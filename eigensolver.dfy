/**
 * The package-level cache of solver/eigensolver.go: the frequencies and
 * modes of the first successful call of the chosen solver. The solver's own
 * Modes is foreign; what it returns is a parameter of the call that needs it.
 */
module EigenSolver {
  import opened Complexes
  import opened Wrappers

  /** A mode as 3 components of z, y, x nested complex values. */
  type Mode = seq<seq<seq<seq<Complex>>>>

  /**
   * The variables solver, eigenfrequencies and eigenmodes; nil is None. The
   * solver is known by an identifier; calls counts the calls of its Modes.
   */
  class ModeCache {
    var solver: nat
    var eigenfrequencies: Option<seq<real>>
    var eigenmodes: Option<seq<Mode>>
    ghost var calls: nat

    /** The zero values of the package variables. */
    constructor (solver: nat)
      ensures this.solver == solver && eigenfrequencies.None? && eigenmodes.None? && calls == 0
    {
      this.solver := solver;
      eigenfrequencies := None;
      eigenmodes := None;
      calls := 0;
    }

    /** Assigning the solver variable leaves the cache as it is. */
    method SetSolver(s: nat)
      modifies this
      ensures solver == s
      ensures eigenfrequencies == old(eigenfrequencies) && eigenmodes == old(eigenmodes) && calls == old(calls)
    {
      solver := s;
    }

    /**
     * Modes: with no frequencies cached the solver is called once, and
     * computed (its result) is stored and returned; otherwise the stored
     * pair is returned and the solver is not called. Only a nil frequency
     * slice counts as empty, so a nil result is recomputed next time.
     */
    method Modes(computed: (Option<seq<real>>, Option<seq<Mode>>))
      returns (freqs: Option<seq<real>>, modes: Option<seq<Mode>>)
      modifies this
      ensures solver == old(solver)
      ensures old(eigenfrequencies).None? ==>
        calls == old(calls) + 1 && eigenfrequencies == computed.0 && eigenmodes == computed.1
      ensures old(eigenfrequencies).Some? ==>
        calls == old(calls) && eigenfrequencies == old(eigenfrequencies) && eigenmodes == old(eigenmodes)
      ensures freqs == eigenfrequencies && modes == eigenmodes
    {
      if eigenfrequencies.None? {
        calls := calls + 1;
        eigenfrequencies, eigenmodes := computed.0, computed.1;
      }
      freqs, modes := eigenfrequencies, eigenmodes;
    }
  }

  /**
   * Two calls in a row: the second returns what the first returned
   * whatever the solver would compute, once the first produced frequencies;
   * a first result with nil frequencies makes the second call the solver again.
   */
  method TwoCalls(cache: ModeCache, first: (Option<seq<real>>, Option<seq<Mode>>),
                  second: (Option<seq<real>>, Option<seq<Mode>>))
    returns (f1: Option<seq<real>>, m1: Option<seq<Mode>>, f2: Option<seq<real>>, m2: Option<seq<Mode>>)
    modifies cache
    ensures old(cache.eigenfrequencies).None? && first.0.Some? ==>
      f2 == f1 == first.0 && m2 == m1 == first.1 && cache.calls == old(cache.calls) + 1
    ensures old(cache.eigenfrequencies).None? && first.0.None? ==>
      f2 == second.0 && m2 == second.1 && cache.calls == old(cache.calls) + 2
    ensures old(cache.eigenfrequencies).Some? ==> f1 == f2 == old(cache.eigenfrequencies) && cache.calls == old(cache.calls)
  {
    f1, m1 := cache.Modes(first);
    f2, m2 := cache.Modes(second);
  }
}

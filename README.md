# mumax-vhf core in Dafny

This project models the linear spin-wave core of mumax-vhf. It covers:

- the dense self-interaction tensors built for a magnetisation on a mesh of nx·ny·nz cells;
- the linear Hamiltonian and the dynamic (cross-product) operator derived from them;
- the rotation of every cell's frame so that its ground-state moment points along z;
- the bookkeeping around the eigen-solvers (LAPACK dgeev and ARPACK output);
- the dispersion helpers of quickdisp and the tolerance counters of the tests.

Properties of the model are proved alongside it.

## How the model is built

- **Numbers.** Floating-point numbers are idealised as `real`.
- **Complex buffers.** A complex buffer (`ComplexSlices.CSlice`) is a pair of real buffers (`Slices.Slice`).
- **Tensors.** A tensor (`Tensors.Tensor`) is a class holding one `array<real>`.
  - The Go nested slices `[c][c_][..cell..][..cell'..]` flatten into this array in lexicographic order.
  - Tensors have reference semantics, as the Go value receivers writing into shared slices do.
  - `Copy` is the only operation that yields independent storage.
- **Storage order.** `Tensors.Shape` records which of the repository's two orders a tensor uses.
  - Order `ZYX` is data/tensor.go.
  - Order `XYZ` is mag/tensor.go.
  - The two files have the same functions at the same lines. Every `Tensors.Tensor` member cited against data/tensor.go in the table below also models the same lines of mag/tensor.go, with the x,y,z cell order.
    - GetIdx 26-28
    - SetIdx 32-34
    - AddIdx 38-40
    - AddTensors 43-75
    - To1D 80-104
    - To2D 108-136
    - Zeros 156-184
    - Copy 187-217
  - `Energy` exists only in mag/tensor.go and is cited there.
- **Vector fields.** A vector field is a sequence of nComp·N reals, with component c of cell r at c·N + r and cells in z,y,x order (`Grid.SliceCell`).
- **Engine quantities.** These enter as parameters:
  - the demag kernel, Msat, Mu0, ExchangeAtCell, Ku1, AnisU, B_ext, GammaLL, the cell size;
  - Sth = sqrt(1 - mz²) of each cell;
  - the replies of dgeev, dnaupd and dneupd.
- **Panics.** A Go panic is the `Panic` case of `Wrappers.Result`.
- **State that changes in place:**
  - the builders fill a fresh zero tensor in loops;
  - the rotation-to-z transform rewrites a copy block by block;
  - `argSort` swaps two arrays together;
  - the solver cache memoises its first answer.

  These are methods with `modifies` clauses. They are proved against specification functions, and the properties are lemmas about those functions.

## How the modules map to the source

| module | source |
|---|---|
| `ComplexSlices` | data/cslice.go |
| `Tensors` | data/tensor.go, mag/tensor.go |
| `Exchange` | mag/exchange.go |
| `Anisotropy` | mag/anisotropy.go |
| `Demag` | mag/demag.go |
| `Field` | mag/field.go |
| `SystemTensors`, `Dynamics`, `EigenProblem` | mag/systemtensors.go |
| `Matrices`, `Congruence`, `Projection` | mag/projection.go |
| `RotatedSolver` | solver/rotatedtoz.go |
| `Geev` | solver/eig.go |
| `Arnoldi` | solver/arnoldi_core.go |
| `EigenPairs` | the conjugate-pair convention that solver/eig.go and solver/arnoldi_core.go share |
| `Straight` | solver/straight.go |
| `EigenSolver` | solver/eigensolver.go |
| `ModeSampling` | quickdisp/modesampling.go |
| `Disp` | quickdisp/disp.go |
| `UniformGS` | quickdisp/uniformgs.go |
| `PlotDisp` | quickdisp/plotdisp.go |
| `Equalities` | tests/equalities.go |

The helper modules (`Arith`, `Sums`, `Grid`, `Slices`, `Complexes`, `Wrappers`) hold the arithmetic, summation, mesh-indexing and buffer helpers that the modules above share.

## Model

| member | source | states |
|---|---|---|
| ComplexSlices.CSlice.SwitchParts | data/cslice.go:53-57 | the real and imaginary buffers are exchanged, so every value z becomes i·conj(z) |
| ComplexSlices.SwitchTwice | data/cslice.go:53-57 | switching the parts twice gives back every value: SwitchParts is an involution |
| ComplexSlices.Copy | data/cslice.go:65-68 | dst's real part becomes src's real part and dst's imaginary part src's imaginary part; when dst's real buffer is src's imaginary buffer the second copy reads the overwritten buffer |
| ComplexSlices.CSlice.CPUAccess | data/cslice.go:77-88 | true when both parts are on the host, false when both are on the device, and a panic exactly when they differ |
| ComplexSlices.CSlice.HostCopy | data/cslice.go:90-95 | fresh host-resident buffers holding the same values as both parts |
| ComplexSlices.Dotc | data/cslice.go:152-159 | the four real dot products combine to the conjugated inner product Σ conj(a_k)·b_k |
| ComplexSlices.InnerParts | data/cslice.go:154-155 | the conjugated inner product has real part ⟨ar,br⟩+⟨ai,bi⟩ and imaginary part ⟨ar,bi⟩−⟨ai,br⟩ |
| ComplexSlices.InnerConjugate | data/cslice.go:152-159 | swapping the two arguments of the inner product conjugates it |
| ComplexSlices.DotcConjugate | data/cslice.go:152-159 | Dotc(b, a) is the conjugate of Dotc(a, b) |
| ComplexSlices.DotcSelf | data/cslice.go:152-159 | Dotc(a, a) has zero imaginary part and a non-negative real part |
| ComplexSlices.SScal | data/cslice.go:161-164 | both parts of dst become factor times the same part of src, independently |
| ComplexSlices.SMadd2 | data/cslice.go:166-169 | each part of dst becomes f1·src1 + f2·src2 of that part, with the same real factors on both parts |
| ComplexSlices.CMadd2 | data/cslice.go:171-174 | every element of dst becomes f1·src1 + f2·src2 in complex arithmetic |
| ComplexSlices.MaddZip | data/cslice.go:172-173 | the two Madd4 calls, with factors (re f1, −im f1, re f2, −im f2) and (im f1, re f1, im f2, re f2), are the real and imaginary parts of f1·z1 + f2·z2 |
| Tensors.Offset | data/tensor.go:26-28 | every entry (c, c_, r, r') of the shape has a storage offset below the number of entries |
| Tensors.EntryAt | data/tensor.go:13-17 | each offset below (nComp²)·N² holds exactly one entry, and Offset gives the offset back |
| Tensors.EntryAtOffset | data/tensor.go:13-17 | decoding the offset of an entry gives back that entry |
| Tensors.OffsetInjective | data/tensor.go:26-28 | two entries with the same offset are the same entry: the nested slices never share an element |
| Tensors.IdxEntry | data/tensor.go:26-28 | the coordinates (c, c_, i, j, k, i_, j_, k_) of a grid address an entry inside the shape; the z,y,x order of data/tensor.go and the x,y,z order of mag/tensor.go differ only in the cell index |
| Tensors.SetThenGet | data/tensor.go:32-34 | after writing val at one entry, that entry reads val and every other entry reads what it read before |
| Tensors.Tensor.GetIdx | data/tensor.go:26-28 | reads the entry that the eight coordinates address |
| Tensors.Tensor.SetIdx | data/tensor.go:32-34 | the addressed entry becomes val and every other entry is unchanged; the storage written is the tensor's own shared array, also for a copy of the handle |
| Tensors.Tensor.AddIdx | data/tensor.go:38-40 | the addressed entry grows by val and every other entry is unchanged |
| Tensors.Tensor.Add | data/tensor.go:38-40 | adding val at an entry given as (c, c_, r, r') changes that entry only |
| Tensors.Tensor.Zeros | data/tensor.go:156-184 | a fresh tensor whose every entry is 0 |
| Tensors.Tensor.Copy | data/tensor.go:187-217 | a fresh tensor in storage of its own whose entries equal the original's |
| Tensors.AddTensors | data/tensor.go:43-75 | a fresh tensor whose every entry is the sum of the arguments' entries at the same place |
| Tensors.SumArrays | data/tensor.go:47-72 | entry p of the result array is the sum over the arguments of their entry p, and the arguments are not changed |
| Tensors.EntrySum | data/tensor.go:61-64 | the innermost loop adds the arguments' entries at one place, in argument order |
| Tensors.SumOfNoneOrOne | data/tensor.go:43-75 | with no arguments AddTensors gives all zeros; with one it gives that tensor's entries |
| Tensors.SumOfThreeAt | data/tensor.go:43-75 | an entry of the sum of three tensors is the sum of their three entries |
| Sums.SumAtPermutation | data/tensor.go:62-64 | the sum at an entry does not depend on the order of the arguments |
| Tensors.RowIndex | data/tensor.go:89 | the row N·c + r of component c of cell r lies below nComp·N |
| Tensors.MatrixEntry | data/tensor.go:84-101 | each (row, column) of the flattened matrix is one entry, whose row and column indices give back (row, column) |
| Tensors.MatrixEntryOfRows | data/tensor.go:84-101 | the entry of the row and column of an entry is that entry |
| Tensors.FlatIndex | data/tensor.go:89-94 | the To1D position of each entry lies below (nComp·N)² |
| Tensors.FlatEntry | data/tensor.go:89-94 | every To1D position holds an entry, and FlatIndex maps it back to that position |
| Tensors.FlatIndexBijective | data/tensor.go:80-104 | the To1D position map is a bijection from the entries onto [0, (nComp·N)²) |
| Tensors.Flatten | data/tensor.go:80-104 | To1D has (nComp·N)² elements |
| Tensors.FlattenAt | data/tensor.go:94 | To1D holds GetIdx of the entry at that entry's position |
| Tensors.To1DLayout | data/tensor.go:89-94 | GetIdx(c, c_, i, j, k, i_, j_, k_) sits at row N·c + Nx·Ny·k + Nx·j + i and column N·c_ + Nx·Ny·k_ + Nx·j_ + i_ of To1D (z,y,x order) |
| Tensors.LayoutRow | data/tensor.go:89 | the written-out row N·c + Nx·Ny·k + Nx·j + i (or N·c + Ny·Nz·i + Nz·j + k for x,y,z order) is the row of component c of that cell, below nComp·N |
| Tensors.Rows | data/tensor.go:108-136 | To2D has nComp·N rows of nComp·N elements |
| Tensors.RowsOfFlatten | data/tensor.go:108-136 | To2D[row][col] is To1D[row·nComp·N + col]: x is the fastest index in both |
| Tensors.Tensor.To1D | data/tensor.go:80-104 | returns the flattened matrix, row after row |
| Tensors.Tensor.To2D | data/tensor.go:108-136 | returns the rows of the flattened matrix |
| Tensors.Product | data/tensor.go:245-261 | the tensor-slice product has one element per component and cell |
| Tensors.ProductLinear | data/tensor.go:245-261 | the product is linear in the slice: T(a·u + b·w) = a·Tu + b·Tw |
| Tensors.Tensor.RowTimes | data/tensor.go:245-261 | the accumulation for one output is row R of the flattened matrix dotted with v |
| Tensors.Tensor.ProductArray | data/tensor.go:231-261 | the accumulated result array holds the product, element by element |
| Tensors.StoreAll | data/tensor.go:266-274 | the store loop copies every accumulated value into the result slice |
| Tensors.Tensor.TSP | data/tensor.go:220-284 | returns result[c·N + r] = Σ T[c][c_][r][r']·v[c_·N + r'] in fresh storage on the side v lived on, and leaves v and the tensor unchanged |
| Tensors.Tensor.TCSP | data/tensor.go:286-294 | TSP applied to the real part and to the imaginary part separately |
| Tensors.Weights | mag/tensor.go:236 | one weight m_c(r)·m_c_(r') per stored entry, with m read in z,y,x order |
| Tensors.Tensor.QuadraticSum | mag/tensor.go:226-244 | the accumulated sum is Σ T[c][c_][r][r']·m_c(r)·m_c_(r') over all entries |
| Tensors.Tensor.Energy | mag/tensor.go:221-248 | the energy is half the quadratic form of T in m |
| Tensors.QuadFormOfZeros | mag/tensor.go:221-248 | the energy form of the zero tensor is 0 |
| Tensors.QuadFormOfSum | mag/tensor.go:221-248 | the energy form of AddTensors is the sum of the arguments' forms |
| Tensors.QuadFormNegated | mag/tensor.go:221-248 | the energy form does not change when m is negated |
| Tensors.BuilderShape | mag/exchange.go:22 | the builders' tensors have three components over the grid |
| Grid.CellIndex | data/tensor.go:27 | the cell index of a cell of the grid lies below N = Nx·Ny·Nz |
| Grid.CellIndexExpanded | mag/tensor.go:89 | the index is Nx·Ny·k + Nx·j + i in z,y,x order (data/tensor.go) and Ny·Nz·i + Nz·j + k in x,y,z order (mag/tensor.go) |
| Grid.CellAt | mag/tensor.go:26-28 | every index below N is the index of one cell of the grid |
| Grid.CellAtIndex | mag/tensor.go:80-104 | CellAt undoes CellIndex: in both orders the index map is a bijection onto [0, N) |
| Grid.CellIndexInjective | mag/tensor.go:26-40 | distinct cells have distinct indices, so writes through SetIdx at distinct cells never collide |
| Grid.CellsPositive | data/tensor.go:47-72 | the grid has a cell exactly when it extends along all three axes |
| Grid.SliceCell | mag/tensor.go:224 | the z,y,x slice position of the cell stored at an x,y,z index lies below N |
| Grid.ComponentIndexInjective | mag/tensor.go:94 | distinct (component, cell) pairs have distinct positions N·c + r, all below nc·N |
| Grid.ComponentIndexOnto | mag/tensor.go:94 | every position below nc·N is component idx / N of the cell with index idx mod N |
| Exchange.ExchangeTensor | mag/exchange.go:11-109 | a fresh tensor whose every entry is the stencil entry ExchangeEntry: built by the x pass, the y pass and (for Nz > 1) the z pass over a zero tensor |
| Exchange.Pass | mag/exchange.go:24-49 | after one axis pass every entry is what the pass writes in its row (diagonal set or added to, couplings set), or what it was before |
| Exchange.Line | mag/exchange.go:26-47 | one line along the axis: its first cell, the interior cells in order and its last cell are written, nothing else |
| Exchange.CellStep | mag/exchange.go:33-40 | the writes of one cell: prev and next as the source computes them, for c = 0, 1, 2 |
| Exchange.CellComponent | mag/exchange.go:36-40 | for one component the diagonal is set (or added to) and the couplings towards the previous and next neighbour, where they exist, are set; no other entry changes |
| Exchange.WriteDiag | mag/exchange.go:37 | the diagonal write changes only entry (c, c, x, x): SetIdx in the x pass, AddIdx in the y and z passes |
| Exchange.WriteAt | mag/exchange.go:38-39 | a coupling write changes only entry (c, c, x, y) |
| Exchange.VisitedRow | mag/exchange.go:28-47 | inside row (c, x) a pass writes −next, −prev−next or −prev on the diagonal and prev, next towards the two neighbours |
| Exchange.Staged | mag/exchange.go:22-105 | the x pass (setting), the y pass and, for more than one layer, the z pass (adding) run over zeros give the stencil |
| Exchange.EntrySplit | mag/exchange.go:22-105 | a stencil entry is the sum of what each visited axis contributes |
| Exchange.AxisOk | mag/exchange.go:28-105 | every visited axis has at least two cells and a non-zero cell size |
| Exchange.Support | mag/exchange.go:28-105 | an entry is non-zero only between equal components, on the diagonal or towards a nearest neighbour along a visited axis (never along z for one layer); towards such a neighbour it is −2/D²·ExchangeAtCell of that axis |
| Exchange.AlongExclusive | mag/exchange.go:28-105 | a cell is a neighbour of another along at most one axis and never of itself, so the passes write distinct couplings |
| Exchange.Boundary | mag/exchange.go:28-32 | a cell at either end of a line has one coupling along that axis, an interior cell two |
| Exchange.AxisRowAt | mag/exchange.go:33-40 | the row one axis writes holds the diagonal, the previous and the next coupling at three distinct places, zero elsewhere |
| Exchange.AxisRowSum | mag/exchange.go:30-31 | what one axis writes in a row sums to zero |
| Exchange.DiagBalances | mag/exchange.go:37-39 | the diagonal of one axis is minus the sum of its couplings |
| Exchange.RowSumZero | mag/exchange.go:22-105 | every row (c, r) of the tensor sums to zero |
| Exchange.Symmetric | mag/exchange.go:28-47 | with a symmetric ExchangeAtCell the tensor is symmetric under swapping (c, r) with (c_, r') |
| Anisotropy.UniAnisTensor | mag/anisotropy.go:13-46 | a fresh tensor whose same-cell entries are −2·Ku1(r)·u_c(r)·u_c_(r) and whose entries between distinct cells are zero |
| Anisotropy.SetBlock | mag/anisotropy.go:35-39 | the writes of one cell set exactly its 3×3 block, every other entry is unchanged |
| Anisotropy.BlockSymmetric | mag/anisotropy.go:37 | each cell block is symmetric in (c, c_) |
| Anisotropy.BlockTrace | mag/anisotropy.go:35-41 | the trace of a cell block is −2·Ku1(r)·\|u(r)\|² |
| Demag.Mod | mag/demag.go:91-93 | mod(a, b) = (a + b) % b with Go's truncating %: in [0, b) and equal to a mod b when −b ≤ a, and not positive when a + b < 0 |
| Demag.Displacement | mag/demag.go:56 | the wrapped displacement (mod(i−i_), mod(j−j_), mod(k−k_) or 0 for one layer) lies inside the kernel |
| Demag.DemagTensor | mag/demag.go:13-88 | a fresh tensor whose every entry is DemagEntry: zero between z and an in-plane component for one layer, else −Mu0·K[c][c_] at the wrapped displacement times Msat of both cells |
| Demag.FillBlock | mag/demag.go:29-83 | the (c, c_) block is written for every cell pair, and nothing else changes |
| Demag.FillRow | mag/demag.go:52-60 | the entries (c, c_, r, r') of one cell r are written for every r', and nothing else changes |
| Demag.EntryValue | mag/demag.go:55-56 | the value the loop body stores for (c, c_, x, y) is DemagEntry of that entry (zero when decoupled, mag/demag.go:40) |
| Demag.DemagTranslation | mag/demag.go:56 | two entries of the same component pair with the same wrapped displacement and the same Msat product are equal |
| Demag.DemagZeroMsat | mag/demag.go:73-74 | an entry with zero Msat at either cell is zero |
| Demag.DisplacementShift | mag/demag.go:56 | shifting both cells by one along x leaves the wrapped displacement unchanged |
| Field.Energy | mag/field.go:12-41 | the returned energy is ½·Dx·Dy·Dz·Σ T[c][c_][r][r']·m_c(r)·m_c_(r'), read through a host copy when m is on the device |
| Field.EnergyOfZeros | mag/field.go:29 | the zero tensor has zero energy |
| Field.EnergyNegated | mag/field.go:29 | negating m leaves the energy unchanged |
| Field.EnergyOfSum | mag/field.go:39 | the energy of the sum of two tensors is the sum of their energies |
| Field.SelfField | mag/field.go:62-74 | the field has one value per stored value of T·m |
| Field.SelfFieldAt | mag/field.go:66-70 | component c at cell r is −(T·m)/Ms(r) when Ms(r) ≠ 0 and exactly 0 when Ms(r) = 0 |
| Field.SelfFieldLinear | mag/field.go:45-78 | the self-interaction field is linear in m |
| Field.ApplyMsat | mag/field.go:62-74 | the loop replaces every value of the slice by its field value, in place |
| Field.SIField | mag/field.go:45-78 | a fresh host slice holding −T·m/Ms per cell (0 where Ms = 0); m and the tensor are unchanged |
| Field.ApplyMsatComplex | mag/field.go:100-114 | the loop applies the same rule to the real and the imaginary value in place |
| Field.SIFieldComplex | mag/field.go:82-118 | a panic exactly when the two parts of m live in different memories; otherwise fresh host parts holding the field rule applied to the real and imaginary parts of T·m |
| SystemTensors.SelfTensor | mag/systemtensors.go:14-16 | the self-interaction contents hold, entry by entry, the demag plus exchange plus anisotropy entry |
| SystemTensors.SelfInteractionTensor | mag/systemtensors.go:14-16 | a fresh tensor equal to AddTensors(DemagTensor(), ExchangeTensor(), UniAnisTensor()), entry by entry |
| SystemTensors.SelfSum | mag/systemtensors.go:15 | the AddTensors sum of the three builders' contents is the self-interaction tensor |
| SystemTensors.ZeeTerm | mag/systemtensors.go:52-55 | the zeeTerm loop gives B_ext(r)·m(r) |
| SystemTensors.GroundTerm | mag/systemtensors.go:57-69 | the gsTerm loops give Σ over r', c, c_ of m_c(r)·m_c_(r')·T[c][c_][r][r'], read from the system tensor |
| SystemTensors.AddPairs | mag/systemtensors.go:61-65 | the c and c_ loops for one partner cell add its nine terms onto the running gsTerm |
| SystemTensors.Visit | mag/systemtensors.go:48-50 | the step of the i, j, k loops (x outermost) at which a cell is visited lies below N |
| SystemTensors.VisitInverse | mag/systemtensors.go:48-50 | every cell is visited exactly once: the visit step and the cell of a step are inverse maps |
| SystemTensors.Corrections | mag/systemtensors.go:72 | there is one correction per cell |
| SystemTensors.CorrectionAt | mag/systemtensors.go:72 | the correction of cell r is zee(r)·Ms(r) − gs(r) for the cell's own zee and gs terms |
| SystemTensors.AddDiagonal | mag/systemtensors.go:71-73 | the three AddIdx calls add val to entries (c, c, r, r) for c = 0, 1, 2 and change nothing else |
| SystemTensors.PatchStep | mag/systemtensors.go:48-77 | one patching step adds the correction to the diagonal of the cell it visits and leaves the rest as it was |
| SystemTensors.PatchAll | mag/systemtensors.go:48-77 | the patching step for all entries at once keeps the loop state: visited cells carry their correction, the others hold T |
| SystemTensors.PatchCell | mag/systemtensors.go:52-73 | the body for the q-th cell keeps the loop state, gsTerm being read from the unmodified system tensor |
| SystemTensors.Hamiltonian | mag/systemtensors.go:46-78 | a fresh copy of the system tensor with zee·Ms − gs added on the diagonal of every cell block, independent of the visiting order |
| SystemTensors.HamiltonianPatch | mag/systemtensors.go:71-73 | the Hamiltonian differs from the system tensor only at (c, c, r, r), by zee(r)·Ms(r) − gs(r), the same for all three c |
| SystemTensors.LinearHamiltonianTensor | mag/systemtensors.go:20-79 | every entry is the self-interaction entry, patched on the cell-block diagonals |
| EigenProblem.HamiltonianTensor | mag/systemtensors.go:86 | the Hamiltonian contents fit the builder shape |
| EigenProblem.HamiltonianTensorAt | mag/systemtensors.go:86 | each entry of the Hamiltonian contents is that Hamiltonian entry |
| EigenProblem.EigenProblemTensor | mag/systemtensors.go:84-90 | DynamicOperate(LinearHamiltonianTensor()): every entry is the dynamic-operator entry of the Hamiltonian |
| Dynamics.CrossMatrix | mag/systemtensors.go:115-119 | m_cross is 3×3 |
| Dynamics.CrossAntisymmetric | mag/systemtensors.go:115-119 | m_cross is antisymmetric and has a zero diagonal |
| Dynamics.MomentCross | mag/systemtensors.go:111-119 | the m_cross of a cell is built from its three moments, read in z,y,x order |
| Dynamics.CrossOperatedOrthogonal | mag/systemtensors.go:127-136 | m·([m]×·col)·γ/Ms is 0 for every column |
| Dynamics.DynColumnOrthogonal | mag/systemtensors.go:115-136 | every column of a DynamicOperate block is orthogonal to m_r: Σ_p m_p(r)·result[p][q] = 0 |
| Dynamics.AccumulateEntry | mag/systemtensors.go:129-131 | the r loop leaves the entry at Σ_k m_cross[p][k]·T[k][q] and changes no other entry |
| Dynamics.AddProducts | mag/systemtensors.go:129-131 | a run of adds into one place grows it by the dot product of the two sequences |
| Dynamics.OperateEntry | mag/systemtensors.go:129-135 | after the r loop and the SetIdx rescaling one entry holds (m_cross·T)[p][q]·γ/Ms(r), and nothing else changes |
| Dynamics.OperatedOf | mag/systemtensors.go:134-135 | the rescaled sum is the row-times-column product times γ/Ms |
| Dynamics.OperateBlock | mag/systemtensors.go:127-138 | the p and q loops fill exactly the block between the two cells |
| Dynamics.OperateStep | mag/systemtensors.go:107-146 | one block step keeps the loop state: blocks visited in storage order hold their value, the rest are zero |
| Dynamics.OperateCell | mag/systemtensors.go:121-142 | one block of DynamicOperate keeps the loop state |
| Dynamics.DynamicOperate | mag/systemtensors.go:92-150 | a fresh tensor whose block (r, r') is (γ/Ms(r))·[m_r]×·T(r, r'); T is unchanged |
| Dynamics.RotatedAgrees | mag/systemtensors.go:152-185 | where m_r = (0, 0, 1) the general operator's entry equals the rotated operator's |
| Dynamics.UnitCrossRow | mag/systemtensors.go:172-173 | row p of [z]× times a column, scaled by γ/Ms, is −t1, t0 or 0 |
| Dynamics.RotateEntry | mag/systemtensors.go:172-173 | one SetIdx writes row c < 2 of column q of the block and changes nothing else |
| Dynamics.RotateColumn | mag/systemtensors.go:171-174 | the two SetIdx calls write rows 0 and 1 of column q and change nothing else |
| Dynamics.RotateBlock | mag/systemtensors.go:171-174 | the q loop fills the block between two cells; row 2 stays zero |
| Dynamics.RotateStep | mag/systemtensors.go:165-181 | one block step keeps the loop state of DynamicOperateRotated |
| Dynamics.RotateCell | mag/systemtensors.go:168-177 | one block of DynamicOperateRotated keeps the loop state |
| Dynamics.DynamicOperateRotated | mag/systemtensors.go:152-185 | a fresh tensor whose block rows 0 and 1 are −T row 1 and T row 0, times γ over ms[k][j][i], the Msat of cell r = (i, j, k) read from the z,y,x-ordered slice in either storage order; row 2 is zero |
| Dynamics.CellMsatOfCell | mag/systemtensors.go:159-173 | in either storage order, the Msat the rotated operator divides by for cell (i, j, k) is the slice entry ms[k][j][i] |
| Matrices.LeftMul | mag/projection.go:76-83 | R·B as a 3×3 matrix, each entry summed over r in the order of the source's r loop |
| Matrices.RightMulT | mag/projection.go:92-99 | B·Rᵀ as a 3×3 matrix, each entry summed over r in the order of the source's r loop |
| Matrices.Associative | mag/projection.go:76-105 | a·(b·cᵀ) == (a·b)·cᵀ, so the left and right halves of a step can be done in either order |
| Matrices.RotationFrom | mag/projection.go:43-47 | the rotation has rows (Cth·Cph, Cth·Sph, −Sth), (−Sph, Cph, 0) and (Sth·Cph, Sth·Sph, Cth) |
| Matrices.RotationMatrix | mag/projection.go:32-47 | the rotation of moment (mx, my, mz) with Cth = mz, Cph = mx/Sth and Sph = my/Sth, defined only for Sth ≠ 0 |
| Matrices.TiltedAngles | mag/projection.go:36-39 | a unit moment with Sth² = 1 − mz² and Sth ≠ 0 gives two angles: Cth² + Sth² = 1 and Cph² + Sph² = 1 |
| Matrices.RotationFromOrthonormal | mag/projection.go:43-47 | the rows of a rotation built from two angles are orthonormal |
| Matrices.RotationFromAligns | mag/projection.go:43-47 | such a rotation takes its own third row to z |
| Matrices.RotationThirdRow | mag/projection.go:46 | the third row of R_r is m_r itself |
| Matrices.RotationAligns | mag/projection.go:18 | R_r m_r = (0, 0, 1), the promise in InitRotation's doc comment |
| Matrices.RotationOrthonormal | mag/projection.go:43-47 | the rows of R_r are orthonormal |
| Matrices.RotationIsOrthonormal | mag/projection.go:17-47 | R_r of a tilted unit moment is orthonormal and its first two rows are perpendicular to m_r |
| Congruence.Block | mag/projection.go:80 | a block of a 3-component tensor is 3×3 |
| Congruence.RotatedBlock | mag/projection.go:54-55 | the transformed block R_r T(r, r') R_r'ᵀ is 3×3 |
| Congruence.RotatedEntrySum | mag/projection.go:54-55 | entry (p, q) of the transformed block is Σ_s Σ_t R_r[p][s]·T[s][t]·R_r'[q][t] |
| Congruence.Stage | mag/projection.go:62-108 | a block after its left multiplication, its right multiplication, both or neither is 3×3 |
| Congruence.LeftHalf | mag/projection.go:74-89 | the left half of step (a, b) replaces block (a, b) by R_a times it and keeps the loop state |
| Congruence.RightHalf | mag/projection.go:92-105 | the right half of step (a, b) replaces block (b, a) by itself times R_aᵀ and keeps the loop state |
| Congruence.StagedAtStart | mag/projection.go:57 | before any step the copy is the original, with nothing multiplied |
| Congruence.StagedNextRow | mag/projection.go:62-70 | finishing the inner cell loop is the same state as starting the next outer cell |
| Congruence.StagedAtEnd | mag/projection.go:62-114 | after every step each block (x, y) has had R_x on the left once and R_yᵀ on the right once, whichever came first |
| Congruence.BlocksFromEntries | mag/projection.go:85-89 | contents whose entries agree outside block (a, b) agree on every other block |
| Congruence.BlockOfEntries | mag/projection.go:85-89 | a block whose nine entries are those of temp is temp |
| Congruence.CellColumn | mag/projection.go:80 | column q of block (x, y), read with GetIdx |
| Congruence.CellRow | mag/projection.go:96 | row p of block (x, y), read with GetIdx |
| Congruence.LeftEntry | mag/projection.go:78-81 | the r loop leaves temp[p][q] = Σ_r R[p][r]·T(r, q) of block (x, y) |
| Congruence.RightEntry | mag/projection.go:94-97 | the r loop leaves temp[p][q] = Σ_r R[q][r]·T(p, r) of block (x, y) |
| Congruence.LeftProduct | mag/projection.go:74-83 | the p and q loops leave temp = R·block(x, y) |
| Congruence.RightProduct | mag/projection.go:92-99 | the p and q loops leave temp = block(x, y)·Rᵀ |
| Congruence.WriteBlock | mag/projection.go:85-89 | the nine SetIdx calls store temp in block (x, y) and change no other entry |
| Congruence.StoreBlock | mag/projection.go:85-89 | after the stores, block (x, y) is temp and every other block is unchanged |
| Congruence.Step | mag/projection.go:66-105 | one (a, b) step does both halves and keeps the loop state |
| Congruence.RotateBlocks | mag/projection.go:55-116 | on a fresh copy of t, every block (r, r') becomes R_r t(r, r') R_r'ᵀ; t is unchanged |
| Projection.ModeAt | mag/projection.go:124 | the nc components of a field at one cell |
| Projection.Derotated | mag/projection.go:131-148 | the derotated field has three components per cell |
| Projection.Rotated | mag/projection.go:164-181 | the rotated field has two components per cell |
| Projection.DerotatedIndex | mag/projection.go:138-143 | component p of cell r of the derotated field is v_0 R_r[0][p] + v_1 R_r[1][p] |
| Projection.RotatedIndex | mag/projection.go:171-176 | component p of cell r of the rotated field is Σ_q v_q R_r[p][q] |
| Projection.DerotatedComponent | mag/projection.go:137-143 | component k of the derotated vector of a cell is u_0 R[0][k] + u_1 R[1][k] |
| Projection.ColumnDot2 | mag/projection.go:140-142 | a 2-vector dotted with the first two entries of column k is u_0 m[0][k] + u_1 m[1][k] |
| Projection.Span | mag/projection.go:137-143 | u0·x + u1·y has three components |
| Projection.DerotatedCell | mag/projection.go:137-143 | the derotated vector of a cell is v_0 R_r[0] + v_1 R_r[1], the transpose applied to (v_0, v_1, 0) |
| Projection.SpanDot | mag/projection.go:170-176 | a vector in the span of rows 0 and 1 of an orthonormal R, dotted with row p, gives its coefficient on that row, 0 for row 2 |
| Projection.RotateDerotateAt | mag/projection.go:121-185 | RotateMode undoes DerotateMode at one component of one cell |
| Projection.RotateDerotate | mag/projection.go:121-185 | with orthonormal rotations RotateMode(DerotateMode(v)) = v for every 2-component field |
| Projection.DerotatedPerpendicular | mag/projection.go:118-120 | a derotated vector is perpendicular to everything rows 0 and 1 of R_r are perpendicular to |
| Projection.SpanPerpendicular | mag/projection.go:137-143 | u0·x + u1·y is perpendicular to every w that x and y are perpendicular to |
| Projection.RotationAt | mag/projection.go:32-47 | R_r is built from the moment of cell r and its Sth |
| Projection.RotationsOfState | mag/projection.go:17-47 | for a tilted unit ground state each R_r is orthonormal, takes m_r to z and has m_r as its third row |
| Projection.RotationsOfStateRoundTrip | mag/projection.go:118-185 | for the rotations of such a ground state, RotateMode undoes DerotateMode, and every derotated mode is perpendicular to the ground state at every cell |
| Projection.DerotateEntry | mag/projection.go:138-143 | one component is reset to zero and accumulated to DerotatedAt; nothing else changes |
| Projection.RotateEntry | mag/projection.go:171-176 | one component is reset (or must already be zero) and accumulated to RotatedAt; nothing else changes |
| Projection.WriteStep | mag/projection.go:131-148 | the cell and component loops write every position exactly once |
| Projection.DerotateInto | mag/projection.go:131-148 | the derotation loops fill the destination with Derotated(R, v) |
| Projection.RotateInto | mag/projection.go:164-181 | the rotation loops fill the destination with Rotated(R, v); without the reset, the destination must start zero-filled |
| Projection.RotationToZ.constructor | mag/projection.go:13-15 | the zero value holds no rotations |
| Projection.RotationToZ.InitRotation | mag/projection.go:19-51 | R holds one rotation per cell, in z,y,x order, built from that cell's moment |
| Projection.RotationToZ.RotateTensor | mag/projection.go:55-116 | a fresh tensor whose block (r, r') is R_r t(r, r') R_r'ᵀ; t is unchanged |
| Projection.RotationToZ.DerotateMode | mag/projection.go:121-152 | a fresh 3-component host slice holding Derotated of the real part and of the imaginary part |
| Projection.RotationToZ.RotateMode | mag/projection.go:154-185 | a fresh 2-component host slice holding Rotated of the real part and of the imaginary part |
| Projection.RotationToZ.DerotateModeReal | mag/projection.go:187-214 | a fresh 3-component slice holding Derotated of the input |
| Projection.RotationToZ.RotateModeReal | mag/projection.go:216-242 | a fresh 2-component slice holding Rotated of the input, accumulated without a reset into zero-filled storage |
| RotatedSolver.MagCrossed | solver/rotatedtoz.go:177-202 | the magCross contents fit the tensor's shape |
| RotatedSolver.MagCrossedAt | solver/rotatedtoz.go:188-191 | entry (0, q) is −t(1, q), entry (1, q) is t(0, q), row 2 is zero |
| RotatedSolver.MagCrossTwice | solver/rotatedtoz.go:175-176 | crossing with z twice negates rows 0 and 1 and zeroes row 2 |
| RotatedSolver.CrossIsUnitRotated | solver/rotatedtoz.go:177-202 | magCross is DynamicOperateRotated with γ = 1 and Ms = 1 in every cell |
| RotatedSolver.ModeIndexLayout | solver/rotatedtoz.go:66 | the column c·Nx·Ny·Nz + i·Nz·Ny + j·Nz + k is c·N plus the x,y,z index of the cell |
| RotatedSolver.ReshapeMode | solver/rotatedtoz.go:57-70 | the c, i, j, k loops lay the eigenvector out unchanged |
| RotatedSolver.DerotatedComplex | solver/rotatedtoz.go:206-229 | the derotated complex mode has three components per cell |
| RotatedSolver.DerotatedComplexAt | solver/rotatedtoz.go:216-221 | component p of cell r is the complex sum z_0·complex(R[0][p], 0) + z_1·complex(R[1][p], 0) |
| RotatedSolver.SolverRoundTrip | solver/rotatedtoz.go:14-17 | for the solver's rotations of a tilted ground state, rotating a derotated mode gives it back, each R_r is orthonormal, and a derotated mode is perpendicular to its cell's moment |
| RotatedSolver.RotatedToZ.constructor | solver/rotatedtoz.go:19-22 | the zero value has R nil |
| RotatedSolver.RotatedToZ.InitRotationAsWritten | solver/rotatedtoz.go:81-111 | as written, the first store R[i][j][k] indexes an empty row and panics on every non-empty grid |
| RotatedSolver.RotatedToZ.InitRotation | solver/rotatedtoz.go:81-111 | with R stored, R_r is the rotation of the moment of the cell with x,y,z index r |
| RotatedSolver.RotatedToZ.RotateToZ | solver/rotatedtoz.go:115-173 | a fresh tensor whose block (r, r') is R_r t(r, r') R_r'ᵀ over cells in x,y,z order; t is unchanged |
| RotatedSolver.RotatedToZ.MagCross | solver/rotatedtoz.go:177-202 | a fresh tensor whose rows 0 and 1 are −t row 1 and t row 0 |
| RotatedSolver.RotatedToZ.DerotateModeAsWritten | solver/rotatedtoz.go:206-229 | as written, the component arrays are nil, so the first write panics on every non-empty grid |
| RotatedSolver.RotatedToZ.DerotateMode | solver/rotatedtoz.go:206-229 | with storage for the result, the mode becomes R_rᵀ of each cell's two complex components |
| RotatedSolver.RotatedToZ.FrequenciesAsWritten | solver/rotatedtoz.go:49-55 | as written, the loop to 3N reads past the 2N eigenvalues and panics on every non-empty grid |
| RotatedSolver.RowIsNoEigenvector | solver/rotatedtoz.go:46-66 | for a = [[1, 1], [0, 2]] and V = [[1, 1], [0, 1]], each column of V is an eigenvector of a but row 1 is an eigenvector for no eigenvalue |
| RotatedSolver.RotatedToZ.ModesOfAsWritten | solver/rotatedtoz.go:53-73 | as written, over the 2N eigenpairs: frequency p is imag(value p)·DynamicFactor and mode p is the derotated reshape of row p of the eigenvector matrix |
| RotatedSolver.RotatedToZ.ModesOf | solver/rotatedtoz.go:46-73 | with column p read: frequency p is imag(value p)·DynamicFactor and mode p is the derotated reshape of column p, where VectorsTo stores eigenvector p |
| EigenPairs.Roles | solver/eig.go:45-59 | the walk assigns one role to every position from i on |
| EigenPairs.RolesAlternate | solver/eig.go:45-59 | every Second follows a First, every First but a final one precedes a Second, and the walk never starts on a Second |
| EigenPairs.RolesOfZeros | solver/eig.go:47 | a Single has a zero imaginary part and a First a non-zero one |
| EigenPairs.RolesStep | solver/eig.go:46-58 | a zero advances the walk by one and a non-zero by two; a non-zero at the last position is unpaired |
| EigenPairs.Vector | solver/eig.go:48-56 | the vector a role names has n entries |
| EigenPairs.ConjugatePair | solver/eig.go:53-56 | the second vector of a pair is the entrywise conjugate of the first |
| EigenPairs.SingleVector | solver/eig.go:48-50 | for a real eigenvalue, entry j is complex(column i entry j, 0) |
| EigenPairs.PairVectors | solver/eig.go:53-56 | for a pair, entry j of the first vector is column i + i·column i+1, and of the second the conjugate |
| EigenPairs.UnpackVectors | solver/eig.go:45-59 | panics exactly when the walk ends on an unpaired complex value; otherwise vector i is what its role names |
| EigenPairs.Values | solver/eig.go:40-43 | value i is wr[i] + i·wi[i] |
| Geev.Columns | solver/eig.go:49 | column i of the row-major V has entry j at V[n·j + i] |
| Geev.GeevToCmplx | solver/eig.go:37-62 | the eigenvalues wr + i·wi, and the vectors the roles of wi name; panics exactly on an unpaired complex value |
| Geev.Eig | solver/eig.go:15-35 | panics for n = 0, for a non-zero dgeev info and for an unpaired value, and otherwise returns GeevToCmplx of dgeev's output |
| Arnoldi.ScipyNcv | solver/arnoldi_core.go:32 | the scipy default min(max(2·nev + 1, 20), n): at most n, and below n only when at least 20 and 2·nev + 1 |
| Arnoldi.DefaultNcvAsWritten | solver/arnoldi_core.go:33-42 | as written, n when 2·nev + 1 > n, and otherwise 20 or 2·nev + 1, whichever is larger, without the cap at n |
| Arnoldi.DefaultNcvAgreesWithScipy | solver/arnoldi_core.go:32-42 | the written default differs from scipy's exactly when 2·nev + 1 ≤ n < 20, where it is 20 > n |
| Arnoldi.NcvAsWritten | solver/arnoldi_core.go:28-46 | as written: an accepted ncv lies in [nev + 2, n]; a given ncv is accepted exactly when it lies there; the default is accepted only when 2·nev + 1 > n or n ≥ 20 |
| Arnoldi.NcvFor | solver/arnoldi_core.go:28-46 | with the scipy default, a default ncv is accepted exactly when nev + 2 ≤ n |
| Arnoldi.DefaultRejectsSmallProblems | solver/arnoldi_core.go:37-45 | with 1 ≤ nev, 2·nev + 1 ≤ n < 20 and the default, the written code panics although ncv = n is admissible |
| Arnoldi.DefaultRejectsTenTwo | solver/arnoldi_core.go:37-45 | n = 10, nev = 2 with the default panics; the scipy default gives 10 |
| Arnoldi.NevNMinusOneRejected | solver/arnoldi_core.go:28-46 | nev = n − 1 passes the first check and is always refused by the second |
| Arnoldi.NevNMinusTwoAccepted | solver/arnoldi_core.go:33-46 | nev = n − 2 with n > 3 takes ncv = n in both versions |
| Arnoldi.Window | solver/arnoldi_core.go:102 | workd[p−1 : p+n−1] succeeds exactly when 1 ≤ p and p − 1 + n ≤ len(workd), and is then [p − 1, p − 1 + n) |
| Arnoldi.RequestFor | solver/arnoldi_core.go:101-105 | ido 99 gives Finished; otherwise the two windows, panicking when either is out of range |
| Arnoldi.ExtractArguments | solver/arnoldi_core.go:110-123 | rvec is 1 exactly when vectors are asked for; howmany is "A" with ncv zeros for a nil selection and "S" with the selection otherwise |
| Arnoldi.ColumnFits | solver/arnoldi_core.go:146 | column i of count columns of length n ends within them |
| Arnoldi.ArpackColumns | solver/arnoldi_core.go:146-151 | the eigenvector output cut into count columns of n entries |
| Arnoldi.Column | solver/arnoldi_core.go:146 | one column has n entries |
| Arnoldi.ArpackColumnsAt | solver/arnoldi_core.go:146 | entry j of column i is v[ldv·i + j] |
| Arnoldi.Describe | solver/arnoldi_core.go:192 | a map lookup gives the stored string, or "" for a missing key |
| Arnoldi.IterateDescribed | solver/arnoldi_core.go:161-193 | iterateInfo's description is non-empty exactly for the codes dnaupd documents |
| Arnoldi.ExtractDescribed | solver/arnoldi_core.go:195-230 | extractInfo's description is non-empty exactly for the codes dneupd documents |
| Arnoldi.EmptyWorkspace | solver/arnoldi_core.go:63-65 | with 0 ≤ ncv ≤ n the v and workl buffers are empty exactly when ncv = 0 |
| Arnoldi.ArnoldiD.constructor | solver/arnoldi_core.go:59-92 | the struct literal: ido 0, iparam with ishfts 1, maxIter, 1 and mode 1, zeroed ipntr and zero-filled v, workd and workl of sizes n·ncv, 3n and 3ncv² + 6ncv |
| Arnoldi.ArnoldiD.Iterate | solver/arnoldi_core.go:95-106 | panics on an empty resid or workspace before dnaupd; afterwards the state holds what dnaupd left and the result is RequestFor of it |
| Arnoldi.ArnoldiD.Extract | solver/arnoldi_core.go:108-159 | panics on an empty selection, dr or resid, on a negative or too large nevReturned, or on an unpaired value; otherwise the nevReturned values and vectors of dneupd's output |
| Arnoldi.ArnoldiD.IterateInfo | solver/arnoldi_core.go:191-193 | the info code, with the source's description text (character for character) for a documented dnaupd code and "" otherwise |
| Arnoldi.ArnoldiD.ExtractInfo | solver/arnoldi_core.go:228-230 | the info code, with the source's description text (character for character) for a documented dneupd code and "" otherwise |
| Arnoldi.NewArnoldiD | solver/arnoldi_core.go:26-93 | panics exactly when the validation (with the scipy default) fails or n < 0; otherwise a valid state, with info 0 and n zeros for a nil v0, or info 1 sharing v0 |
| Straight.Kept | solver/straight.go:45-70 | the positions p < m whose frequency is non-zero, each below m |
| Straight.KeptExact | solver/straight.go:49 | p is kept exactly when p < m and imag(values[p]) ≠ 0 |
| Straight.KeptIncreasing | solver/straight.go:45-70 | the kept positions are strictly increasing, so the outputs keep the eigensolver's order |
| Straight.KeptAllNonZero | solver/straight.go:45-70 | with no zero frequency, output q comes from input q |
| Straight.StraightIndexLayout | solver/straight.go:60-61 | the index c·Nx·Ny·Nz + k·Nx·Ny + j·Nx + i is component c of the cell in z,y,x order |
| Straight.StraightIndexInjective | solver/straight.go:56-65 | distinct (component, cell) pairs read distinct entries below 3N |
| Straight.StraightIndexOnto | solver/straight.go:56-65 | every entry below 3N is read |
| Straight.StraightMode | solver/straight.go:52-66 | the c, k, j, i loops copy the first 3N entries of the eigenvector unchanged |
| Straight.ProcessStraightAsWritten | solver/straight.go:34-73 | as written, the q-th kept frequency is stored with the mode of vectors[q] rather than of its own eigenvector; outputs past the kept ones keep the zero and nil of make |
| Straight.StraightMispairs | solver/straight.go:45-67 | on one cell with the values [0, i] and eigenvectors e_x, e_y, the kept frequency 1 is stored with e_x as written and with its own eigenvector e_y when corrected |
| Straight.ProcessStraight | solver/straight.go:34-73 | output q is the frequency and the mode of kept input q; outputs past the kept ones keep the zero and nil of make |
| Straight.StoredStep | solver/straight.go:49-67 | keeping input p stores its eigenpair at the next output, and nothing else changes |
| EigenSolver.ModeCache.constructor | solver/eigensolver.go:17-24 | the package variables start nil |
| EigenSolver.ModeCache.SetSolver | solver/eigensolver.go:17-19 | choosing a solver leaves the cache as it is |
| EigenSolver.ModeCache.Modes | solver/eigensolver.go:26-31 | the solver is called once when no frequencies are cached and its result is stored; otherwise the cache is returned unchanged |
| EigenSolver.TwoCalls | solver/eigensolver.go:26-31 | once a call has produced frequencies, a second call returns the same pair without calling the solver; a nil result is recomputed |
| ModeSampling.ExpandPoints | quickdisp/modesampling.go:11-33 | every combination (dx[i], dy[j], dz[k]) sits at (Sy·i + j)·Sz + k; the output has Sx·Sy·Sz entries and is empty exactly when one axis is |
| ModeSampling.ExpansionOnce | quickdisp/modesampling.go:21-29 | distinct combinations land at distinct positions, so each appears exactly once |
| ModeSampling.LowestMode | quickdisp/modesampling.go:41-46 | limn is −n/2 for even n and −(n−1)/2 for odd n, both −⌊n/2⌋ |
| ModeSampling.AxisModes | quickdisp/modesampling.go:40-49 | the run of n consecutive indices from limn: [−n/2, n/2−1] for even n and [−(n−1)/2, (n−1)/2] for odd n; it contains 0, and for odd n it is symmetric |
| ModeSampling.AllModes | quickdisp/modesampling.go:35-53 | the expansion of every admissible index on every axis of the mesh |
| ModeSampling.Clamp | quickdisp/modesampling.go:66-93 | odd n clamps into [−(n−1)/2, (n−1)/2]; even n raises pStart to −n/2 and lowers pStop to n/2−1 when pStart was clamped and to n/2 otherwise, so −n/2 and n/2 are never both in range |
| ModeSampling.SampleAsWritten | quickdisp/modesampling.go:95-118 | as written: an empty range gives no points; with more points than the range holds the upward loop from pStop to pStart writes only a one-point range; one point gives ⌊maxPoints/2⌋; otherwise ⌊i·step⌋ ending on pStop, without pStart added |
| ModeSampling.SpreadStep | quickdisp/modesampling.go:112-116 | with at least as many indices as points, ⌊i·step⌋ is non-negative and strictly increasing |
| ModeSampling.SpreadBelow | quickdisp/modesampling.go:112-116 | every spread point but the last lies below maxPoints − 1 |
| ModeSampling.Sample | quickdisp/modesampling.go:95-118 | with the pStart offset and the fill loop corrected, the loops compute SampleOf: min(nPoints, maxPoints) strictly increasing points inside the range; the whole range when nPoints > maxPoints; panics for nPoints < 1 |
| ModeSampling.FillRange | quickdisp/modesampling.go:103-107 | the fill loop, run upward from pStart to pStop, writes every index of the range in order |
| ModeSampling.FillSpread | quickdisp/modesampling.go:111-117 | the spread loop offset by pStart, then the final store, give pStart + ⌊i·step⌋ for i < nPoints − 1 and pStop last |
| ModeSampling.SpreadSampled | quickdisp/modesampling.go:111-117 | those spread points are strictly increasing and lie inside the range |
| ModeSampling.SpreadIncreasing | quickdisp/modesampling.go:112-117 | the spread points increase strictly and stay below the last one |
| ModeSampling.ModeSample | quickdisp/modesampling.go:55-124 | panics exactly when some axis has a non-empty clamped range and nPoints < 1; otherwise the expansion of the three corrected samples SampleOf, each strictly increasing inside its clamped range |
| ModeSampling.MinElem | quickdisp/modesampling.go:241-249 | an index of a least element, the lowest one on ties |
| ModeSampling.MaxElem | quickdisp/modesampling.go:251-259 | an index of a greatest element, the lowest one on ties |
| ModeSampling.Mirror | quickdisp/modesampling.go:178-186 | 2n−1 entries with ks[i] = pks[i] for i < n and ks[2n−1−i] = −pks[i] for 1 ≤ i < n; panics for n = 0 or a short axis |
| ModeSampling.AlongDirectionMirror | quickdisp/modesampling.go:177-188 | the mirror on all three axes with n = len(pks[0]); panics exactly when n = 0 or another axis is shorter |
| Disp.LimPositive | quickdisp/disp.go:60-65 | T/2 for even T and (T+1)/2 for odd T, both (T+1)/2, at most T and positive for T > 0 |
| Disp.FftFreq | quickdisp/disp.go:57-76 | panics exactly for negative T; otherwise T entries equal to numpy's fftfreq(T, δ), the first 0 |
| Disp.NumpyAgrees | quickdisp/disp.go:67-73 | the two loops compute numpy's entries: i·d below limPositive and (i−T)·d from there, d = 1/(T·δ) |
| Disp.FftFreqSigns | quickdisp/disp.go:68-73 | for δ > 0 the entries are non-negative exactly on the first limPositive indices, and entry 0 is 0 |
| Disp.FftFreqOrder | quickdisp/disp.go:68-73 | for δ > 0 the entries increase strictly within each half, and every negative one lies below every non-negative one |
| PlotDisp.ArgSort.constructor | quickdisp/plotdisp.go:29-35 | values is the caller's array itself, and idx is the identity of length len(arr) |
| PlotDisp.ArgSort.Swap | quickdisp/plotdisp.go:24-27 | the values and the idx entries at i and j are exchanged together, keeping idx a permutation with values[p] = original[idx[p]] |
| PlotDisp.ArgSort.Sort | quickdisp/plotdisp.go:49 | afterwards the values are in order, idx is a permutation and values[p] = original[idx[p]] |
| PlotDisp.ArgSort.LeastFrom | quickdisp/plotdisp.go:49 | the position of a least value among positions i and later |
| PlotDisp.OrderInPlace | quickdisp/plotdisp.go:43-50 | kmag itself ends sorted, and kmag[i] is the original value of wave vector kOrder[i] |
| PlotDisp.OrderCopy | quickdisp/plotdisp.go:51-57 | the caller's frequencies keep their order; the copy is sorted and fcop[j] = frequencies[fOrder[j]] |
| PlotDisp.RowsFor | quickdisp/plotdisp.go:62-69 | every row written passes the filter and carries k and kidx; with the filter on, none has a negative frequency; with it off, every frequency is written |
| PlotDisp.RowsForComplete | quickdisp/plotdisp.go:65 | every sorted frequency that passes the filter has its row |
| PlotDisp.WriteRows | quickdisp/plotdisp.go:62-69 | the j loop writes exactly the rows of RowsFor, in the order of the sorted frequencies |
| UniformGS.Cross | quickdisp/uniformgs.go:270-275 | the vector product is orthogonal to both factors |
| UniformGS.DotLoop | quickdisp/uniformgs.go:262-268 | the accumulation gives the dot product, which is symmetric |
| UniformGS.MatVecMul | quickdisp/uniformgs.go:118-126 | res[c] = Σ_c' mat[c][c']·vec[c'] |
| UniformGS.Madd2 | quickdisp/uniformgs.go:277-282 | res = f1·a + f2·b componentwise |
| UniformGS.Madd4 | quickdisp/uniformgs.go:284-289 | res = f1·a1 + f2·a2 + f3·a3 + f4·a4 componentwise |
| UniformGS.Normalise | quickdisp/uniformgs.go:247-260 | with the norm given, the result times the norm is the input and has unit length |
| UniformGS.UnitAfterScaling | quickdisp/uniformgs.go:255-257 | dividing each component by the norm gives a unit vector |
| UniformGS.MatVecLinear | quickdisp/uniformgs.go:118-126 | matvecmul is linear in the vector |
| UniformGS.FieldAffine | quickdisp/uniformgs.go:128-137 | the field maps an affine combination of magnetisations to the same combination of their fields |
| UniformGS.AffineSum | quickdisp/uniformgs.go:134 | one field component of an affine combination is that combination of the components |
| UniformGS.EnergySplits | quickdisp/uniformgs.go:139-141 | −½·m·B(m) is the sum of the demag and anisotropy quadratic forms and the linear Zeeman term |
| UniformGS.TorqueVanishesWhenAligned | quickdisp/uniformgs.go:234-241 | the torque (m × B) × m is zero when B is parallel to m |
| UniformGS.ErrorOfConstantTorque | quickdisp/uniformgs.go:196 | the error weights sum to zero, so a constant torque has no error |
| UniformGS.ThirdOrderConsistent | quickdisp/uniformgs.go:193 | the third-order weights sum to one: a constant torque advances m by h times it |
| UniformGS.Correction | quickdisp/uniformgs.go:210-219 | NaN counts as 1; corr·Headroom is clamped to [0.5, 2] and kept when inside |
| UniformGS.CorrectionOfNaN | quickdisp/uniformgs.go:210-212 | a NaN correction acts as a correction of 1 |
| UniformGS.Scale | quickdisp/uniformgs.go:221 | dt·corr lies between ½·dt and 2·dt for a clamped correction |
| UniformGS.Bounded | quickdisp/uniformgs.go:223-228 | a non-zero MaxDt bounds the step above; a non-zero MinDt not above MaxDt bounds it below; with both zero, or the step inside both bounds, it is unchanged |
| UniformGS.AdaptDt | quickdisp/uniformgs.go:208-232 | the adapted step respects both bounds, and with no bounds lies between ½·dt and 2·dt |
| UniformGS.CorrectionMonotone | quickdisp/uniformgs.go:214-219 | a larger correction is never clamped to a smaller one |
| UniformGS.ScaleMonotone | quickdisp/uniformgs.go:221 | scaling a non-negative step is monotone in the correction |
| UniformGS.BoundedMonotone | quickdisp/uniformgs.go:223-228 | the MinDt and MaxDt bounds are monotone |
| UniformGS.AdaptDtMonotone | quickdisp/uniformgs.go:208-232 | a larger correction never gives a shorter step |
| UniformGS.AssumeUniform.constructor | quickdisp/uniformgs.go:48-58 | the matrices and the Zeeman vector are the ones supplied, and dtsi starts at zero |
| UniformGS.AssumeUniform.Demag | quickdisp/uniformgs.go:110-112 | the demag matrix times m |
| UniformGS.AssumeUniform.UniAnis | quickdisp/uniformgs.go:106-108 | the anisotropy matrix times m |
| UniformGS.AssumeUniform.Field | quickdisp/uniformgs.go:128-137 | demag·m + uniAnis·m + zeeman |
| UniformGS.AssumeUniform.Energy | quickdisp/uniformgs.go:139-141 | −½·m·B(m), split into the two quadratic forms and the Zeeman term |
| UniformGS.AssumeUniform.TorqueNP | quickdisp/uniformgs.go:234-241 | (m × B) × m, which is orthogonal to m |
| UniformGS.AssumeUniform.ErrorVector | quickdisp/uniformgs.go:196 | madd4 of the four torques with the error weights, zero when the four torques agree |
| UniformGS.AssumeUniform.Step | quickdisp/uniformgs.go:199-205 | returns (m3, k4) exactly when err < MaxErr or dtsi ≤ MinDt, and (m0, k1) otherwise; dtsi is adapted with the cube root or the fourth root of MaxErr/err |
| Equalities.EqualScalars | tests/equalities.go:11-18 | 0 exactly when A/B lies in [1 − maxErr, 1 + maxErr] and 1 otherwise; for B = 0, 0 exactly when A = 0, whose ratio is NaN |
| Equalities.EqualScalarsSelf | tests/equalities.go:14 | a non-zero number compared with itself within a non-negative band gives 0 |
| Equalities.CountRow | tests/equalities.go:39-44 | the flagged elements of one row number at most its width |
| Equalities.CountRows | tests/equalities.go:36-47 | the flagged elements of the visited rows number at most rows·width |
| Equalities.RowLayout | tests/equalities.go:36-40 | A[c][k][j][i] is element i of row (c·Nz + k)·Ny + j |
| Equalities.Rows | tests/equalities.go:36-38 | the c, k and j loops visit 3·Nz·Ny rows of Nx elements, every element once |
| Equalities.Count | tests/equalities.go:35-48 | panics exactly when the i bound exceeds Nx and a row is visited; otherwise the count of CountRows |
| Equalities.CountInRow | tests/equalities.go:39-44 | the inner loop panics exactly past Nx and otherwise counts the flagged elements of the row |
| Equalities.CountRowsStep | tests/equalities.go:36-47 | the count of t + 1 rows is that of t rows plus the next row |
| Equalities.CountRowZero | tests/equalities.go:41-43 | a row's count is zero exactly when none of its elements is flagged |
| Equalities.CountRowsZero | tests/equalities.go:36-47 | with full rows the count is zero exactly when no element is flagged |
| Equalities.FlaggedReals | tests/equalities.go:40-41 | for real slices an element is flagged exactly when its ratio is out of band |
| Equalities.EqualSlicesAsWritten | tests/equalities.go:22-49 | as written the x loop runs to Nz: only the first Nz x-indices are compared, and for Nz > Nx the reads past the row panic |
| Equalities.EqualSlicesSkipsColumns | tests/equalities.go:39 | on a 2 × 1 × 1 mesh a mismatch at x = 1 goes uncounted |
| Equalities.EqualSlices | tests/equalities.go:22-49 | with the x loop bounded by Nx: the number of flagged elements, at most 3N, and zero exactly when no ratio is out of band |
| Equalities.EqualSlicesSelf | tests/equalities.go:41 | a slice of non-zero values compared with itself within a non-negative band gives 0 |
| Equalities.FlaggedComplexes | tests/equalities.go:72-74 | a complex element is flagged exactly when its real or its imaginary ratio is out of band |
| Equalities.EqualCSlices | tests/equalities.go:53-82 | the number of complex elements flagged, at most 3N, and zero exactly when none is |

## Left out

- The engine and the GPU are not modelled: field/*, the CUDA kernels, device copies and the reflection swap of the magnetisation buffer are out. `Slices` models the kernels of data/cslice.go and data/tensor.go by their elementwise meaning.
- Engine quantities are parameters of the model, because they come from the running engine. This covers the make*Matrix and makeZeemanVector readers, the `Zeeman()` accessor, en.M and the host copies.
- The foreign numerical routines are not modelled: LAPACK dgeev, ARPACK dnaupd and dneupd, and the gonum `Eigen` factorisation in `Solve`. Their replies are parameters.
- Geev.Eig: n is a `nat`, so the panic of `make` for a negative n is not modelled.
- The `NewDense` shape of `Solve` is not modelled, because the shape check happens inside gonum. That shape is 9N² against a 4N² buffer in solver/rotatedtoz.go.
- RotatedSolver.RotatedToZ.ModesOf and RotatedSolver.RotatedToZ.ModesOfAsWritten take the eigenvalues and the matrix V that `Eigen.VectorsTo` fills as parameters. The gonum factorisation is foreign code, so neither checks that V really holds eigenvectors.
- The square root that gives Sth in mag/projection.go and solver/rotatedtoz.go is left out: Sth is supplied per cell with Sth² = 1 - mz². The Sth == 0 case, which the source leaves unhandled, is excluded by precondition.
- UniformGS.Normalise takes the norm as a parameter with norm² = |v|², because the norm is a square root.
- UniformGS.AssumeUniform.Step takes the trial state m3, the stage k4 and the error norm as inputs. It models only the accept/reject rule and the `adaptDt` update.
  - The RK23 stages need `normalise` and a square root, so they are not modelled.
  - `math.Pow(MaxErr/err, 1/3)` and its `1/4` counterpart are the inputs pow3 and pow4; a NaN result is `None`.
  - Infinities are not modelled.
- `Relax`, `NStep`, `RandomPerpendicular` and `DisturbMagnetisation` are randomness and time-stepping loops over the engine, so they are not modelled.
- PlotDisp.ArgSort.Sort: Go's `sort.Sort` (pdqsort) is modelled as a selection sort. Its swap sequence differs, but the promise is the same: the values end sorted, idx stays a permutation, and the value at p is the original value at idx[p].
- The file writes, printing and `Log10` in DispImageDat are I/O, so they are not modelled. So are `Kmag`, `GnuplotColorMap` and `ToCSV`.
- The float walk of `AlongDirection` and `AlongDirectionAP` is floating-point accumulation, so it is not modelled. Its walked points are inputs to `ModeSampling.AlongDirectionMirror`.
- The `floor` that turns wave numbers into pStart and pStop is left out; both are integer inputs.
- Disp.FftFreq requires δ ≠ 0: Go divides by zero there and gets an infinity, which reals cannot express.
- The float32 conversions are not modelled: the slices hold reals, so the truncation of data/tensor.go:270 and of the slice stores is out. The `C.int` conversions in solver/arnoldi_core.go are left out too; ints are unbounded.
- `newArnoldiS` and `arnoldiS` are the single-precision copy of `arnoldiD`. They are not modelled separately.
- ComplexSlices.SScal: requires that dst's real buffer is not src's imaginary buffer. The kernel reads src's imaginary part after the real store, so with that aliasing it would read the value just written.
- ComplexSlices.SMadd2: requires that dst's real buffer is neither source's imaginary buffer, for the same reason.
- ComplexSlices.CMadd2: requires `Apart`, meaning dst shares no buffer with src1 or src2. The four-term madd reads both parts of both sources after the first store.
- Exchange.ExchangeTensor: requires a non-zero cell size along every active axis, because -2/D² is an infinity in Go for D = 0. It also requires Nx ≥ 2 and Ny ≥ 2, which the source relies on when it accesses indices 1 and N-2.
- Dynamics.DynamicOperate and Dynamics.DynamicOperateRotated require Msat to be non-zero in every cell, because γ/Ms is an infinity or NaN in Go.
- Tensors.Tensor.Energy sums the terms in storage order, while mag/tensor.go loops over cells outside and components inside. For reals the two sums are equal.
- The tensor members take the number of components as a parameter (2 or 3 in use), where the source hard-codes 3 in some loops.
- Some loops are modelled as helper loops, with the same arithmetic in a different nesting:
  - the innermost r' loops of TSP, Energy and the congruence products go through `Sums.DotSum`;
  - the loops of AddTensors are `SumArrays` and `EntrySum`;
  - the r loop of DynamicOperate reads the column first (`AddProducts`);
  - TSP's store loop is `StoreAll`;
  - the inner loop of the tolerance counters is `CountInRow`.
- Files that the source itself leaves broken, duplicated or unfinished are not part of this model, because none can be a faithful target: solver/choleskyfirst.go, the lanczos files, quickdisp/uniform.go, mag/mag.go, evolver/dpmethod.go, tests/normality.go and the coefficients drafts.
- The gonum and BLAS consumers are not part of this model, because they are foreign: solver/cholesky*, solver/matmul.go, solver/straightgonum.go, solver/arnoldi_matrix.go, solver/arnoldi_field.go and solver/arnoldi_gpu.go.
- Also not part of this model:
  - the JSON loader of tests/loader.go;
  - cmd/mm_em/main.go;
  - data/setup.go and setup/setup.go;
  - solver/frequencymethod.go;
  - quickdisp/uniformmodes*.go;
  - the *_test.go files.

## Findings

| source | as written | input that shows it | evidently intended | confidence | as-written member | corrected member |
|---|---|---|---|---|---|---|
| solver/rotatedtoz.go:81-111 | `initRotation` makes R with Nx nil rows and indexes R[i][j][k] in them, and its value receiver would drop R anyway | any mesh with at least one cell | store one 3×3 rotation per cell in solver.R | high, not executed | RotatedSolver.RotatedToZ.InitRotationAsWritten | RotatedSolver.RotatedToZ.InitRotation |
| solver/rotatedtoz.go:206-229 | `derotateMode` writes into the nil component arrays of `derotated` | any mesh with at least one cell | allocate the three component arrays and fill derotated[p] = Σ_q mode_q·R[q][p] | high, not executed | RotatedSolver.RotatedToZ.DerotateModeAsWritten | RotatedSolver.RotatedToZ.DerotateMode |
| solver/rotatedtoz.go:48-55 | the frequency loop runs to 3N over the 2N eigenvalues of the rotated system | any mesh with at least one cell; values has 2N entries | loop over the 2N eigenvalues | high, not executed | RotatedSolver.RotatedToZ.FrequenciesAsWritten | RotatedSolver.RotatedToZ.ModesOf |
| solver/rotatedtoz.go:46-66 | mode p is reshaped from `vectors.At(p, ·)`, row p of the matrix that `eig.VectorsTo` filled, while VectorsTo stores eigenvector p in column p | a = [[1, 1], [0, 2]] with V = [[1, 1], [0, 1]]: row 1, (0, 1), is an eigenvector of a for no eigenvalue | reshape column p, `vectors.At(·, p)` | medium, not executed | RotatedSolver.RotatedToZ.ModesOfAsWritten, RotatedSolver.RowIsNoEigenvector | RotatedSolver.RotatedToZ.ModesOf |
| solver/arnoldi_core.go:33-46 | the default ncv is raised to 20 without being capped at n, so the validation then panics | n = 10, nev = 2, ncv = -1 | scipy's default, min(max(2·nev+1, 20), n) | high, not executed | Arnoldi.NcvAsWritten, Arnoldi.DefaultRejectsTenTwo | Arnoldi.NcvFor |
| solver/straight.go:60-61 | the mode stored for output q is read from vectors[q] | values [0, i] on a one-cell mesh: frequency 1 is paired with vectors[0] | read vectors[p], the vector of the kept value | high, not executed | Straight.ProcessStraightAsWritten, Straight.StraightMispairs | Straight.ProcessStraight |
| quickdisp/modesampling.go:102-117 | the fill loop runs from pStop up to pStart, and the samples are not offset by pStart | range [2, 4] with 5 points gives [0, 0, 0]; range [2, 4] with 1 point gives [1] | the whole range [2, 3, 4], and the midpoint pStart + floor(maxPoints/2) | high, not executed | ModeSampling.SampleAsWritten | ModeSampling.Sample |
| tests/equalities.go:39 | the x loop is bounded by Nz | a 2×1×1 mesh whose two slices differ only at x = 1 counts 0 mismatches | bound the x loop by Nx | high, not executed | Equalities.EqualSlicesAsWritten, Equalities.EqualSlicesSkipsColumns | Equalities.EqualSlices |

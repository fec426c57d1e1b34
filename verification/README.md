# The verification model of rsdag

rsdag is an expression-DAG compiler: expressions over symbols live in one hash-consed arena,
functions are called from it, and every evaluator (the interpreter over a tape, native code,
specializations, batches in lanes) and every rewrite (differentiation, substitution, inlining,
specialization on constants) promises the same values. These modules model the parts that
promise rests on and prove it.

`dafny verify dfyconfig.toml` checks everything. The modules, in reading order:

- **Native code.** `Scalars` and `OpStream` give the ops of a tape and their interpreter over an
  uninterpreted scalar; `Machines` the abstract instructions, with host calls that clobber
  registers; `LivenessTables` the counting-sorted tables; `CacheInvariant` and `Stages` the
  invariant of the write-back register cache and of calls deferred to their stage's last;
  `Emission` the emitter itself; `Terms` carries its result from symbolic terms to every scalar
  and every memory; `Native` the chunks and the two phases; `LanePlans` the division of a batch.
  `RealMeanings` says in plain arithmetic what the reference ops are over the reals.
- **Differentiation.** `Graphs`, `Tangents` and `Rules` over exact reals; `ForwardMode`,
  `ReverseMode`, `Jacobians`; `Slopes` shows that the tangents are derivatives.
- **Dense kernels.** `Elimination`, `Kernels`, `Solves` (the reference elimination and that it
  solves), `BlockedSolves` and `PanelKernels` (panel-blocked), `FixedKernels` and `BatchSolves`
  (fixed sizes, four systems in lanes), `Pivots` (the pivots chosen, and that they fail only on
  singular systems), `DenseProducts`, `ProductFolds`, `InlineProducts`, `ProductMeanings`.
- **Calls and rewrites.** `Bindings`, `Rewriting`, `Arenas`, `Substitutions`, `CallRewrites`,
  `Inlining`, `Dependence`, `Captures`, `Specializing`.
- **Accelerated forms.** `RegionChoices`, `AdaptivePrograms`, `BodyVariants`.
- **Polynomial degree.** `PolynomialDegrees`, `PolynomialLines`, `Classification`, `ClosedBodies`,
  `AttainedDegrees` (the degree is no larger than it must be) and `RaisedFlags` (when a flag is
  raised).
- **Stored modules.** `Modules` (the data and its check), `Loading` (the loader), `Reloads` (what is
  loaded computes what was stored), `RoundTrips` (a graph's module loads back to the graph).

How the source is rendered:

- A scalar is uninterpreted where the claim is "the same operations on the same operands", so the
  result is the same bits; it is the exact reals where the claim is algebra (derivatives, solving,
  degree). `Emitter` is generic in the scalar; `Terms.ChunkRuns` turns its result over symbolic
  terms into one over every scalar, input and memory.
- Background work, locks and other callers are a schedule: any list of steps between any two
  points of a call. What the source decides by a clock (a tape is large, a lock is contended) is
  an arbitrary flag of the schedule.
- A value an evaluator could not have computed (a clobbered register, scratch memory, a buffer
  another form laid out) is an arbitrary function, so nothing may rest on it.
- `transform.rs`'s `rewrite` is modelled once, loop by loop, in `Rewriting`; the rewrites built on
  it run its schedule with their own rule, which `Rewriting.RewriteReplays` proves to be the same
  run for any rule. Argument lists and contexts are values; of the tables that intern them,
  `Loading` keeps what was entered, in order.
- The smart constructors of the arena outside differentiation, `Tape::decide`, `specialize` and
  `specialize_main` are taken as contracts: value-preserving, and equal to the full program where
  the decided pattern matches or the guards hold. Constant folding is taken to compute what the
  operation does (`CallRewrites.SoundFolds`). Parameters of a function are distinct.
- A function carries a `height` that bounds the calls nested below it: a device of the
  termination proofs, which the source has implicitly because a body is built before it is called.

## Model

| member | source | states |
|---|---|---|
| `LivenessTables.NewLiveness` | crates/rsdag-jit/src/ir.rs:483-525 | The in-place counting sort leaves, per slot, exactly its read and write positions, ascending |
| `LivenessTables.NextReadExact` | crates/rsdag-jit/src/ir.rs:527-533 | The binary search finds the first read of the slot at or after a position, none exactly where there is none |
| `LivenessTables.DeathExact` | crates/rsdag-jit/src/ir.rs:535-553 | The death of the value a slot holds is its last read up to the next write, and the position itself exactly where there is no read |
| `CacheInvariant.PutKeeps` | crates/rsdag-jit/src/native.rs:1270-1288 | Binding a result keeps the cache invariant: maps inverse, registers current, every value still read in a dirty register or in memory |
| `Emission.Emitter.DropIndex` | crates/rsdag-jit/src/native.rs:1150-1158 | A dropped register's value is stored exactly when memory lacks it and some op still reads it; nothing else changes |
| `Emission.Emitter.FreshIn` | crates/rsdag-jit/src/native.rs:1190-1223 | There is always a register to take, it is not pinned, and taking it keeps every value still read; the `unreachable` is never reached |
| `Emission.Emitter.Get` | crates/rsdag-jit/src/native.rs:1238-1260 | The register returned is pinned and holds the interpreter's value of the operand |
| `Emission.Emitter.ArithRm` | crates/rsdag-jit/src/native.rs:1737-1749 | An operand read from memory by the instruction itself gives the same value as one loaded |
| `Emission.Emitter.FoldList` | crates/rsdag-jit/src/native.rs:1833-1877 | A sum, product or dot of any length finds its registers and is the reference's fold: four accumulators merged, then the tail, short lists in a chain |
| `Emission.Emitter.OpUnary` | crates/rsdag-jit/src/native.rs:1751-1831 | Every unary op, inline or through the host, leaves the interpreter's value in its slot |
| `Emission.Emitter.OpCall` | crates/rsdag-jit/src/native.rs:1410-1509 | A call alone, deferred or last of its stage: after the last one every call of the stage has the interpreter's outputs in memory |
| `Emission.Emitter.OpKernel` | crates/rsdag-jit/src/native.rs:1383-1403 | A kernel's operands reach the host in place or gathered, whatever of them was only in registers |
| `Emission.Emitter.Op` | crates/rsdag-jit/src/native.rs:1405-1724 | Every op keeps the simulation with the op-by-op interpreter |
| `RealMeanings.OpMeans` | crates/rsdag/src/tape/mod.rs:983-1017 | What every one-slot op of the reference interpreter writes over the reals, in plain arithmetic of its operands: sums, products, powers, comparisons, branches, reductions, dots |
| `RealMeanings.PowiMeans` | crates/rsdag/src/semantics.rs:365-387 | The square-and-multiply loop gives the base multiplied by itself `n` times, and one over that for a negative exponent of what is not zero |
| `RealMeanings.ReduceMeans` | crates/rsdag/src/semantics.rs:28-74 | A reduction is the sum or the product of its terms, or one of them that no other passes; of none, the identity or the infinity |
| `RealMeanings.UnaryMeans` | crates/rsdag/src/semantics.rs:403-424 | A root is nonnegative, squares to its argument and is zero below zero; a magnitude, a sign and the roundings are theirs |
| `RealMeanings.FoldOrder` | crates/rsdag/src/semantics.rs:23-41 | Over any scalar nine terms are joined in four lanes, the lanes in pairs and the ninth last, and three terms in order from the identity where the fold is short |
| `Emission.Emitter.Flush` | crates/rsdag-jit/src/native.rs:1160-1165 | At the chunk's end every slot a later op or an output reads is in memory |
| `Emission.EmitChunk` | crates/rsdag-jit/src/native.rs:1895-1928 | For every op stream, cache of at least eleven registers and saved/unsaved split, running the chunk leaves in memory the interpreter's value of every slot read later, and other slots nothing writes untouched |
| `Stages.StageRuns` | crates/rsdag-jit/src/ir.rs:102-111 | The host's calls of one stage, one after the other, leave what the interpreter's calls in op order do |
| `Terms.ChunkRuns` | crates/rsdag-jit/src/native.rs:1895-1928 | Code right over terms is right over every scalar, from every memory and registers, whatever clobbered places hold |
| `Native.Chunked` | crates/rsdag-jit/src/native.rs:190-209 | The chunks are a partition of the ops in order, none but the last ends on a deferred call and the last only where the stream does, and every cut that is not inside a stage is a boundary |
| `Native.Compile` | crates/rsdag-jit/src/native.rs:847-871 | Every chunk of both phases is emitted correct on its own from one liveness table, and none straddles the split |
| `Native.EvalRuns` | crates/rsdag-jit/src/native.rs:952-1037 | Separately emitted chunks, each starting with an empty cache and any registers, leave every output as the reference interpreter does, identities being idempotent |
| `Native.MainRuns` | crates/rsdag-jit/src/native.rs:1008-1026 | From slots that agree with memory at the split, a main phase leaves every output as interpreting the main ops from them does, and the memory still agreeing with them |
| `Native.MainAgain` | crates/rsdag-jit/src/native.rs:1019-1026 | However many main phases ran at whatever inputs, the memory is still fit for the next |
| `Native.EpisodeRuns` | crates/rsdag-jit/src/native.rs:1008-1037 | A prolog at one vector of inputs, any number of main phases at any inputs, then a main phase at inputs of the prolog's binding: every output is what the reference interpreter makes of the whole stream at those inputs |
| `LanePlans.LanesFirst` | crates/rsdag-jit/src/native.rs:267-317 | The blocks handed to lane code cover `0..g` in order, the plan for the remainder costs the least over every mix of block widths and scalar runs, and all of it never more than scalar code |
| `LanePlans.Optimal` | crates/rsdag-jit/src/native.rs:280-300 | No mix of blocks and scalar runs with room for the instances is cheaper than the table's |
| `Rules.Cofactors` | crates/rsdag/src/autodiff.rs:266-288 | Prefix and suffix products give each wanted factor the product of all the others, at every point |
| `ForwardMode.Forward` | crates/rsdag/src/autodiff.rs:362-400 | The explicit-stack sweep with its memo terminates on every DAG and gives every root its derivative wherever the pruning test is right; the memo stays right for the next sweep |
| `ForwardMode.Tangent` | crates/rsdag/src/autodiff.rs:405-534 | Each node's derivative from its operands', structural zeros skipped; that the tangents it composes are derivatives is `Slopes.TanSlope` |
| `ForwardMode.Differentiate` | crates/rsdag/src/autodiff.rs:15-26 | The result evaluates to the tangent of the expression at every point, whatever the functions and their slopes are; `Slopes.DerivativeIs` makes it the derivative |
| `Slopes.ExtremumFirst` | crates/rsdag/src/autodiff.rs:464-480 | A maximum is its first term that no term passes, a minimum dually, and its tangent is that term's |
| `Slopes.TanSlope` | crates/rsdag/src/autodiff.rs:405-534 | The tangent of every node along a symbol is the derivative of its value in it, wherever no branch, comparison or extremum is at its edge and the functions have the slopes they claim |
| `Slopes.PowTame` | crates/rsdag/src/autodiff.rs:425-431 | A power by repeated multiplication has the slope the power rule brings, so powers need no assumption |
| `Slopes.SlopeUnique` | crates/rsdag/src/autodiff.rs:15-26 | A function has one derivative at a point, so the tangent is the only right answer |
| `Slopes.DerivativeIs` | crates/rsdag/src/autodiff.rs:15-26 | What a sweep returns for an expression evaluates to its derivative |
| `ReverseMode.Cone` | crates/rsdag/src/autodiff.rs:338-358 | The root's nodes through operands that carry a derivative, closed under them and ascending, so every operand is visited after its users |
| `ReverseMode.SweepNode` | crates/rsdag/src/autodiff.rs:825-968 | What a node's adjoint pushes to its operands, paired with their tangents, is the adjoint times the node's tangent, for every operation |
| `ReverseMode.Gradient` | crates/rsdag/src/autodiff.rs:668-748 | Entry `j` evaluates to the derivative by symbol `j`, as the forward sweep's does, on every DAG and symbol list, repeated symbols included |
| `Jacobians.Unsupported` | crates/rsdag/src/autodiff.rs:318-331 | A node whose support misses a symbol's column does not move with it |
| `Jacobians.SupportIs` | crates/rsdag/src/autodiff.rs:310-331 | A support is exactly the last columns of the symbols reached through operands other than a comparison's and a branch's condition |
| `Jacobians.SparseJacobian` | crates/rsdag/src/autodiff.rs:555-615 | Every row: columns ascend, every entry is the derivative and not the structural zero, in a column of a symbol the residual reaches, and what is left out of its last columns is zero, across shared sweeps and reverse rows |
| `Jacobians.OmittedZero` | crates/rsdag/src/autodiff.rs:560-564 | Whatever the graph, the residual and the row, all a row leaves out is zero if and only if no symbol is listed twice |
| `Jacobians.RepeatedColumn` | crates/rsdag/src/autodiff.rs:560-564 | Of a symbol listed twice no row lists the earlier column, whose derivative is one in the symbol's own row |
| `Kernels.SolveUnblocked` | crates/rsdag/src/semantics.rs:812-905 | The loops in place perform the reference elimination's operations entry by entry, its pivots those of `Pivots.LargestPivot` |
| `Solves.EliminationSolves` | crates/rsdag/src/semantics.rs:812-905 | Over an exact field, pivots nonzero, what back substitution finds solves the system, any pivoting rule |
| `BlockedSolves.PanelsAre` | crates/rsdag/src/semantics.rs:811-890 | Over the reals the panel-blocked factorization with trailing products is the unblocked one, for every width |
| `PanelKernels.SolveGeneric` | crates/rsdag/src/semantics.rs:797-905 | The blocked solver in place, over any scalar, computes exactly the panel-blocked functions of the flat operands, its scratch reused panel by panel |
| `PanelKernels.SolverSolves` | crates/rsdag/src/semantics.rs:769-905 | What the solver returns solves every right-hand side, for every size, panel width and pivoting rule, the pivots nonzero; with the rule it uses they are, for every invertible matrix (`Pivots.InvertibleSolves`) |
| `Pivots.LargestPivot` | crates/rsdag/src/semantics.rs:819-827 | The row chosen is the first of those at or below the diagonal whose entry is largest in magnitude |
| `Pivots.NonsingularPivots` | crates/rsdag/src/semantics.rs:819-860 | All pivots are nonzero if and only if no vector but zero is sent to zero by the matrix |
| `Pivots.InvertibleSolves` | crates/rsdag/src/semantics.rs:769-905 | For every invertible matrix, size, panel width and right-hand side the answer is the one and only solution, with nothing asked of the pivots |
| `FixedKernels.SolveFixed` | crates/rsdag/src/simd.rs:755-811 | The fixed-size kernel on columns, rows never swapped in memory but by select, gives the reference's solution, operation for operation |
| `BatchSolves.SolveLanes` | crates/rsdag/src/simd.rs:676-745 | Lane `q` of four systems solved together is system `q` solved alone, pivots and swaps by select included |
| `BatchSolves.SolveBatch` | crates/rsdag/src/simd.rs:628-670 | A batch, four at a time and a remainder, gives each system its own solution |
| `BatchSolves.FixedSolution` | crates/rsdag/src/semantics.rs:743-755 | A system small enough for the fixed kernels gets the solution the generic solver gives it |
| `DenseProducts.DotSlice` | crates/rsdag/src/semantics.rs:76-89 | Four accumulators, merged and a tail: the reference dot |
| `DenseProducts.GemmWith` | crates/rsdag/src/semantics.rs:547-606 | Every entry is stored exactly once, as its own dot, by any store, under non-associative arithmetic |
| `ProductFolds.Gemv` | crates/rsdag/src/semantics.rs:490-520 | Every entry is its row's own dot; the rest of the output untouched |
| `ProductFolds.FoldInPlace` | crates/rsdag/src/semantics.rs:631-645 | Folds in place and in entry order are the folds of the products as they were |
| `ProductFolds.GemmFold` | crates/rsdag/src/semantics.rs:610-629 | A product with folds leaves the folds of the stored products |
| `ProductFolds.GemmFoldUniform` | crates/rsdag/src/simd.rs:480-515 | So does the one that folds as it stores, where it is taken |
| `ProductFolds.GemvFold` | crates/rsdag/src/semantics.rs:524-540 | And the folding matrix-vector product |
| `ProductMeanings.ProductMeans` | crates/rsdag/src/tape/mod.rs:156-195 | Entry `(i, j)` of a folded product over the reals: the products of row and column added up, then by its code kept, taken from its accumulator, added to it or negated, the accumulator another entry's product, the operand's entry or its own |
| `InlineProducts.Inline` | crates/rsdag-jit/src/ir.rs:265-312 | The loop that records a product records its dots in entry order, then its folds |
| `InlineProducts.InlineIsKernel` | crates/rsdag-jit/src/ir.rs:265-312 | A product expanded to dots then folds leaves the block the folding kernel leaves, on a disjoint output |
| `InlineProducts.VectorIs` | crates/rsdag-jit/src/ir.rs:265-312 | The product with one column is the matrix-vector product, so one expansion serves both |
| `Bindings.Bind` | crates/rsdag/src/graph/calls.rs:473-511 | The context binds each parameter once, ascending, with the least expression where one is bound twice, and is none exactly where nothing is bound |
| `Bindings.Partial` | crates/rsdag/src/graph/calls.rs:450-470 | The call through the binding over what is passed has exactly the operands given, in order |
| `Bindings.RoundTrip` | crates/rsdag/src/graph/calls.rs:538-554 | Bound expressions and arguments come back in parameter order for every binding of every operand list |
| `Rewriting.Rewrite` | crates/rsdag/src/transform.rs:43-151 | The explicit-stack loop with its shared list and context memos terminates on every DAG and equals the recursive bottom-up rewrite for any rule |
| `Rewriting.RewriteReplays` | crates/rsdag/src/transform.rs:43-151 | Each node is rewritten once and after its operands: the run is the rule applied along one schedule |
| `CallRewrites.CallGraph.Rebound` | crates/rsdag/src/graph/calls.rs:228-282 | The function itself where no global is bound to something else; otherwise a copy, kept in the table, each output the original's with the globals replaced, nested calls included, worth the original under the replacements where nothing is captured |
| `Substitutions.SubstCall` | crates/rsdag/src/graph/calls.rs:228-282 | A call of the copy over replaced operands is the call where the symbols are replaced, nothing captured |
| `Inlining.Substitute` | crates/rsdag/src/transform.rs:189-212 | Where nothing is captured every root has, in every environment, the value of the original with the symbols bound to their replacements, and every copy made is right for all arguments; in a scalar that moves with every operand the copies are right only there |
| `Inlining.Captured` | crates/rsdag/src/graph/calls.rs:228-282 | A concrete call the copy gets wrong: the replacement reads a parameter of the body |
| `Captures.RightWhereUncaptured` | crates/rsdag/src/graph/calls.rs:228-282 | Every copy a substitution made under an expression, however deep, is right for all arguments if and only if no replacement put into a body depends on one of its parameters |
| `Captures.UncapturedAllRight` | crates/rsdag/src/graph/calls.rs:228-282 | And in every scalar whatever the copies are right where nothing is captured |
| `Captures.MotionMoves` | crates/rsdag/src/graph/calls.rs:228-282 | There is a scalar that moves with every operand over any graph's constants and folding, so the condition is exact for every graph |
| `Inlining.InlineAll` | crates/rsdag/src/graph/calls.rs:109-117 | Inlining every call keeps every root's value in every environment, through nested calls, contexts and globals, and no call is reached from the results but of external functions |
| `Inlining.InlineWhere` | crates/rsdag/src/graph/calls.rs:137-149 | And inlining some does, the functions left called reading nothing but their arguments; no call of a body that was to be inlined is reached |
| `Specializing.Reassemble` | crates/rsdag/src/graph/calls.rs:962-1030 | Copy, context and rest put exactly the operands that are not folded constants back, in order |
| `Specializing.SpecializeFunction` | crates/rsdag/src/graph/calls.rs:1034-1090 | Each output of the specialized copy, called on the operands left, is worth the function's on all of them, and no call in its bodies passes a constant it could be specialized to |
| `Specializing.SpecializeCalls` | crates/rsdag/src/graph/calls.rs:165-173 | Every root keeps its value in every environment, through nested calls, contexts and globals, with no condition; no call of a symbolic function reached from the results passes a constant for a parameter that is not kept |
| `RegionChoices.Choices.Observe` | crates/rsdag/src/choices.rs:69-86 | The selects unpinned are exactly those two traces disagree on, and are counted once |
| `RegionChoices.Choice.Run` | crates/rsdag/src/variant.rs:196-235 | Over any run of lessons and flips an unpinned select is never pinned again, `off` is for good, and the main phase is built at most once plus once per select |
| `AdaptivePrograms.Adaptive.Land` | crates/rsdag/src/adaptive.rs:548-565 | A job landing at any time keeps the invariant: native code is held only under the version it was compiled at, which names the specialization it was compiled from |
| `AdaptivePrograms.Adaptive.EvalSpec` | crates/rsdag/src/adaptive.rs:249-291 | What a specialized rung serves is the full tape's result |
| `AdaptivePrograms.Adaptive.SpecProlog` | crates/rsdag/src/adaptive.rs:324-360 | The episode started names the form that laid out its buffer at this binding |
| `AdaptivePrograms.Adaptive.MainRung` | crates/rsdag/src/adaptive.rs:390-434 | A main pass gives the full tape's result and an episode the next pass can run on |
| `AdaptivePrograms.Adaptive.Run` | crates/rsdag/src/adaptive.rs:223-434 | In every run of evaluations and episodes over any number of sessions, whatever lands and whoever else calls in between, each result is the full tape's, and a version never names two specializations |
| `BodyVariants.ByVariant` | crates/rsdag/src/variant.rs:717-752 | The counting sort visits each instance once, in its variant's group, in listing order, the variants ascending |
| `BodyVariants.Shared.Variant` | crates/rsdag/src/variant.rs:363-435 | The variant a binding runs on decides that binding's pattern or nothing |
| `BodyVariants.PrologBatch` | crates/rsdag/src/variant.rs:790-808 | Every row's block is its own variant's state at its binding, whatever builds land in between |
| `BodyVariants.MainBatch` | crates/rsdag/src/variant.rs:810-822 | Every instance comes to its own variant's outputs, and to the full body's where its block is its binding's |
| `BodyVariants.BatchRan` | crates/rsdag/src/variant.rs:580-617 | Each instance runs once on its own variant, and exactly those whose guard count is nonzero run again on the variant's own main phase |
| `BodyVariants.BothPhases` | crates/rsdag/src/variant.rs:790-822 | A prolog batch then a main batch, with builds landing and other callers in either phase and in between, gives the full body's outputs per instance |
| `PolynomialDegrees.FlagsUnbounded` | crates/rsdag/src/nonlinearity.rs:131-136 | In every expression, through every call, any flag means the degree is unbounded |
| `PolynomialDegrees.ClassFolds` | crates/rsdag/src/nonlinearity.rs:256-374 | Operations on constants are constant, so folding keeps every class and a graph over classes meets what `ClassOfInlined` asks of it |
| `PolynomialLines.DegreeAlongLines` | crates/rsdag/src/nonlinearity.rs:35-65 | A finite degree `d` means a polynomial of at most `d + 1` coefficients along every line in the variables, bodies read in the caller's environment |
| `AttainedDegrees.DegreeAttained` | crates/rsdag/src/nonlinearity.rs:1-11 | Over sums, products, dots and nonnegative powers of positive constants and rising variables the value along the line is a polynomial whose leading power is exactly the degree reported, unbounded only past 32 bits, and nothing is flagged |
| `AttainedDegrees.NegAttained` | crates/rsdag/src/nonlinearity.rs:272 | A negation attains its operand's degree |
| `AttainedDegrees.SelectAttained` | crates/rsdag/src/nonlinearity.rs:327-340 | A branch on a constant has the larger degree of its arms, attained where that is the arm taken |
| `Classification.ClassifyCone` | crates/rsdag/src/nonlinearity.rs:185-207 | The one-sweep classification is the recursive one |
| `Classification.ClassifyCall` | crates/rsdag/src/nonlinearity.rs:211-253 | A call's class, remembered by output and argument classes, is its body's |
| `Classification.Nonlinearities` | crates/rsdag/src/nonlinearity.rs:162-180 | A system's class is the worst degree and every flag of the recursive classification, which `AttainedDegrees.SystemAttained`, `ClosedBodies.SystemDegree` and `RaisedFlags.SystemFlags` say on values and on what is reached |
| `AttainedDegrees.SystemAttained` | crates/rsdag/src/nonlinearity.rs:152-180 | The degree of a system of such expressions is attained by one of them |
| `RaisedFlags.FlagsAre` | crates/rsdag/src/nonlinearity.rs:92-106 | With every body inlined: a class is constant exactly where no variable goes into the expression, and a flag is raised exactly where an elementary function, a negative power, a comparison, an extremum, a branch or an external function goes into it, applied to something that moves |
| `RaisedFlags.SystemFlags` | crates/rsdag/src/nonlinearity.rs:152-180 | A system has a flag exactly where one of its expressions raises it, and is constant exactly where no variable goes into any |
| `Classification.ClosedIs` | crates/rsdag/src/nonlinearity.rs:185-253 | The class found is that of the body read in its caller's environment, where the globals the calls read are constant |
| `Classification.ClassOfInlined` | crates/rsdag/src/nonlinearity.rs:156-161 | The class found is the class of the expression with every call inlined, none but external functions called any more, where the globals the calls read are constant |
| `Classification.GlobalMissed` | crates/rsdag/src/nonlinearity.rs:244-248 | A call whose body is the variable as a global counts as constant |
| `ClosedBodies.RightWhereClosed` | crates/rsdag/src/nonlinearity.rs:236-253 | Every call is classified as its inlined body, whatever the operations, the arguments' classes and the caller's symbols, if and only if no body depends on a symbol beyond its parameters |
| `ClosedBodies.SystemDegree` | crates/rsdag/src/nonlinearity.rs:152-180 | The degree returned for a system is unbounded if flagged, and if finite every expression is along every line a polynomial with at most that many powers |
| `Dependence.MovesWith` | crates/rsdag/src/eval.rs:58-64 | What an expression depends on is exact: a value moves precisely with those symbols, a body's globals read in the caller's environment |
| `Modules.Validate` | crates/rsdag/src/module.rs:134-286 | Accepts exactly the modules all of whose ids exist and precede their uses, functions defined in time for their calls included; a refusal at a node names the first node that does not fit |
| `Loading.Graph.Sync` | crates/rsdag/src/module.rs:464-511 | Every function up to the called one is defined, in order, over the symbols met, with all its outputs up to the first the sweep has not met; the graph's own functions stay |
| `Loading.Graph.Load` | crates/rsdag/src/module.rs:379-456 | Refused exactly where the check fails or a body is missing, with nothing added; otherwise a panic exactly where some node is not ready; else every node is mapped to its image and every function defined with all its outputs |
| `Loading.PassesYetPanics` | crates/rsdag/src/module.rs:130-133 | Two modules that pass the check and whose load reads out of range |
| `Reloads.LoadKeepsValues` | crates/rsdag/src/module.rs:9-12 | In every environment each node of a module has its value in the graph it is loaded into, through calls, bindings and shared nodes, and that graph's own nodes keep theirs |
| `RoundTrips.RunKeeps` | crates/rsdag/src/graph/mod.rs:278-288 | Whatever is interned, named, defined and appended, in any order: nodes stay distinct and after what they refer to, symbols numbered by their nodes, and no call was made before what its function needs |
| `RoundTrips.StoredPasses` | crates/rsdag/src/module.rs:304-333 | The data of any such graph passes the check and every node of it is ready to load |
| `RoundTrips.LoadBack` | crates/rsdag/src/module.rs:366-374 | Loaded into an empty graph it is never refused and never a panic, and the graph is back: every node at its id, the same functions and names, and tables that hold what the nodes use, in their order |
| `RoundTrips.FoldedCall` | crates/rsdag/src/graph/calls.rs:603-614 | A graph whose pool holds the list of a call that came to a constant; no load of its module enters that list |

## Findings

Properties the code or its documentation promises that do not hold of every input, with the
input and the exact condition.

| property | input | holds exactly when |
|---|---|---|
| A sparse row leaves out only zero entries | `Jacobians.RepeatedColumn`: a symbol listed twice in `wrt`; its earlier column is never filled, and in the symbol's own row that derivative is one | `Jacobians.OmittedZero`: no symbol is listed twice |
| A substituted copy's call is the call with the symbols replaced | `Inlining.Captured`: put `p` in for `s`, then `f(7)` of `f(p) = s` becomes 7 whatever `p` is in the caller | `Captures.RightWhereUncaptured`, ensured by `Inlining.Substitute` of the arena before the call: `Substitutions.Uncaptured`, at every call reached no replacement the body depends on depends on a parameter of it |
| A call is classified as its inlined expression | `Classification.GlobalMissed`: `f() = s` where `s` is a variable counts as constant | `ClosedBodies.RightWhereClosed`: no body depends on a symbol beyond its parameters |
| A module that passes the check loads without a panic | `Loading.PassesYetPanics`: a call bound to an expression whose node comes after it; a binding whose window wraps around 32 bits | `Loading.Graph.Load`: `Loading.LoadReady`, no window of a node wraps and the expressions a call's context binds come before it |
| A stored module loaded into an empty graph is given back whole, tables included | `RoundTrips.FoldedCall`: a call of `f(p) = 1`, whose operand list is in the pool and is no node's | `RoundTrips.LoadBack`: nodes, functions and names always; the tables where they are `RoundTrips.Used`, the lists and calls of the nodes in the order of first use |

The copy of a captured call cannot be repaired inside the body: `Captures.CapturedWrong` shows
that no expression over the same parameters has the wanted value. Inlining and specialization on
constants never capture, and `InlineAll` and `SpecializeCalls` hold with no condition.

## Left out

- Machine encodings, the constant pool, executable memory and calling conventions: an instruction is abstract, and a host call may clobber every register from the saved ones up.
- Lane code with more than one value per register: `Emitter` models the scalar code; `BatchSolves` models lanes for the solvers.
- Which register number a cache position is, and the choice of constants the prologue keeps in registers.
- Floating-point rounding, and the accuracy of `exp`, `ln` and the special functions; `Native.EvalRuns` takes `0 + 0 = 0` and `1 * 1 = 1`.
- Forward: does not model call and `Solve` nodes; a shared node's single visit is how the sweep terminates, not a promise of its contract.
- Tangent: does not model the rules of call nodes (derived functions) and of `Solve` nodes (a second solve).
- Differentiate: does not model call and `Solve` nodes.
- Cone: does not model call and `Solve` nodes.
- SweepNode: does not model the adjoints of a call site's outputs, gathered by `carry` and flushed at the site's first node, nor the transposed solve of a `Solve` node.
- Gradient: does not model call sites and `Solve` nodes.
- Unsupported: does not model the support of a call's output and of a `Solve` node.
- SparseJacobian: does not model call and `Solve` nodes, and promises the omitted entries of a symbol's last column only; see Findings.
- The derived and adjoint functions of `calls.rs`.
- Serialization, and of a module the function names, the output roles but for their number, and the texts of its errors.
- Validate: 32-bit sums wrap; a build that checks overflow already stops there at a window that wraps. The side of a square system is found in the integers, where the source rounds a square root.
- Load: a reading out of range is an outcome; what the graph holds after it is promised only to be in order.
- LoadBack: a module's windows may lie anywhere in its pool; the tables of the graph are lists and calls by value, not windows and numbers.
- LoadKeepsValues: requires that symbol names and the parameters of a function differ, and slots only of functions with a body, as in every graph.
- `affine_in` and `vjp`, which are built on the sweeps proved here.
- The tape compiler, slot allocation and the loop that records a tape as ops; a tape is any op stream that meets `Stages.ProgramOk`.
- The flow analysis as an iteration: a row's support is computed by recursion on the graph.
- `back_substitute` with the lanes across right-hand sides, and the `f64` vector twins of the generic kernels.
- SolveGeneric: holds the augmented matrix in a two-dimensional array where the source indexes a flat slice.
- SolveBatch: has one output matrix per system where the source writes one flat slice.
- Clocks, threads, lock ordering and memory ordering: a schedule of steps stands for them.
- `await_native`, the statistics and the logging of adaptive programs, `eval_lanes`, and `eval_points`.
- The tracing of a body's main phase in the background: a lesson is any list of traces of one length.
- The hashing of argument lists and contexts, and the memo of specialized copies, which only avoids building the same copy again.
- Rebound: does not state that a copy is another function than the original.
- InlineWhere: requires that a function left called reads nothing but its arguments, because a kept call of a body with globals goes through `Rebound` and inherits its capture condition.
- Substitute: promises a root's value where nothing is captured; where something is, an argument may still make the value right by chance, so the exact condition is of the copies.
- ClassOfInlined: requires that the globals of called bodies are constant, since the property fails without; the exact condition is in Findings.
- DegreeAttained: is of expressions nothing cancels in; in others, `x + (-x)` say, the degree is a bound only, which `DegreeAlongLines` proves.
- FlagsAre: is of expressions that call no body, which `ClassOfInlined` makes of any other, and of graphs whose operations have as many operands as they take.
- TanSlope: says nothing at a point where a comparison is between equals, an extremum is attained twice or a branch hangs on a zero: there is no derivative there.
- UnaryMeans: leaves `exp`, `ln` and the coded functions as they come with the scalar.
- ClosedIs: a sufficient condition on what bodies mention, at one root; the exact one, over all calls, is `ClosedBodies.RightWhereClosed`.
- FoldInPlace: requires that an entry folded against an earlier entry's product finds that entry plain, as the source asks of its callers: a folded one would be read folded.

# Distributed vector and pairwise-AMG bookkeeping of rocALUTION, in Dafny

This project models two parts of rocALUTION's multi-node layer and proves
properties of the model.

- **`GlobalVector`** is a vector distributed over MPI ranks. Each rank holds
  its *interior*, its partition of the global vector, and a reference to the
  parallel manager that describes the partitioning.
  - Allocation resolves the local length from the global size against the
    manager's row and column counts; `GetSize` maps it back.
  - The reductions (`Dot`, `Reduce`, `Asum`, `Norm`) compute a local
    partial and all-reduce it by summing.
  - Cloning and `Amax` are unsupported. Restriction and prolongation do
    nothing.
  - A vector is saved as a header file plus one partition file per rank. On
    reading, each rank finds its partition through its line of the header.
- **`GlobalPairwiseAMG`** is the distributed pairwise-aggregation multigrid.
  - `Aggregate_` builds one level's transfer operators. It runs an initial
    pairwise pass, then further passes until the fine-to-coarse size ratio
    reaches the coarsening factor, and stores the level's aggregation data.
  - `ReBuildNumeric` rebuilds every coarse operator from that stored data and
    resets the smoothers and the coarse solver onto the rebuilt operators.
  - `ClearLocal` frees the stored data.

Files and modules:

- `options.dfy` (`Options`): the optional-value datatype both classes use.
- `partition_names.dfy` (`PartitionNames`): the strings of the partitioned
  file set. It covers decimal rank numbers, partition names, the header lines,
  the stream operations the reader uses (`ignore` up to a newline, `getline`),
  whitespace removal with C-locale `isspace`, and the directory part of a path
  (`find_last_of("\\/")`, with the `npos + 1 == 0` wrap).
- `collective.dfy` (`Collective`): the reductions. The world is the sequence
  of every rank's interior, indexed by rank. The all-reduce is the sum of the
  per-rank partials.
- `global_vector.dfy` (`GlobalVectors`): the `GlobalVector` and
  `ParallelManager` classes. The file system is a value (a map from path to
  content) passed in and returned.
- `global_pairwise_amg.dfy` (`PairwiseAmg`): the `GlobalPairwiseAmg` class
  with its configuration, the hierarchy lists and the per-level aggregation
  data. The matrix primitives it calls (initial and further pairwise
  aggregation, coarse operator construction) are parameters, given as total
  functions.

Values are `real`. Floating-point rounding is not modelled.

## Model

| member | source | states |
|---|---|---|
| `PartitionNames.Decimal` | src/base/global_vector.cpp:414-417 | `rs << i` gives a non-empty string of decimal digits, not starting with 0 when the number has two or more digits |
| `PartitionNames.DecimalRoundTrip` | src/base/global_vector.cpp:414-417 | the digits written for a rank read back as that rank number |
| `PartitionNames.DecimalInjective` | src/base/global_vector.cpp:414-417 | different ranks get different decimal strings |
| `PartitionNames.PartitionName` | src/base/global_vector.cpp:426-431 | the partition file of a rank is `filename + ".rank." + decimal(rank)`; the body is the model, and `PartitionNamesDistinct` states its property |
| `PartitionNames.HeaderLines` | src/base/global_vector.cpp:414-423 | line `i` of the program's header is the partition name of rank `i`; the body is the model, and `GlobalVectors.WrittenHeaderHasOneLinePerRank` states what the header text holds |
| `PartitionNames.PartitionNamesDistinct` | src/base/global_vector.cpp:426-431 | different ranks write to different partition files |
| `PartitionNames.GetLine` | src/base/global_vector.cpp:379-380 | the line `getline` returns holds no newline |
| `PartitionNames.SkipLine` | src/base/global_vector.cpp:374-377 | what `ignore(max, '\n')` leaves is a suffix of the stream: it only consumes input |
| `PartitionNames.SkipLineAfter` | src/base/global_vector.cpp:374-380 | on a line followed by a newline, `ignore` leaves exactly the text after the newline and `getline` returns exactly the line |
| `PartitionNames.HeaderLineAt` | src/base/global_vector.cpp:374-380 | skipping `k` lines of a header and reading one gives header line `k`, or the empty string past the last line |
| `PartitionNames.LinesSnoc` | src/base/global_vector.cpp:414-423 | appending `name` and a newline to the header text adds exactly one header line |
| `PartitionNames.StripSpace` | src/base/global_vector.cpp:388 | removing whitespace leaves no whitespace and never lengthens the name |
| `PartitionNames.StripSpaceIdentity` | src/base/global_vector.cpp:388 | removing whitespace leaves a name unchanged exactly when it holds none |
| `PartitionNames.StripSpaceKeeps` | src/base/global_vector.cpp:388 | every non-whitespace character of a name survives whitespace removal |
| `PartitionNames.LastSeparator` | src/base/global_vector.cpp:385 | the result is -1 (`npos`) when no `/` or `\` occurs; otherwise it is the index of the last one |
| `PartitionNames.DirectoryThenBaseName` | src/base/global_vector.cpp:385-386 | the directory part (up to and including the last separator) followed by the base name is the whole file name |
| `PartitionNames.ReadPath` | src/base/global_vector.cpp:374-390 | the path rank `r` opens: `rank` lines skipped, the next line read, its whitespace removed, the directory part in front; the body is the model, and `ReadFindsWrittenPartitionIff` states when it is the written partition |
| `PartitionNames.WrittenHeaderReadPath` | src/base/global_vector.cpp:374-390 | with the header as written, rank `r` opens the directory part followed by partition name `r` with its whitespace removed |
| `PartitionNames.ReadFindsWrittenPartitionIff` | src/base/global_vector.cpp:374-390 | as written, rank `r` reads the file it wrote if and only if the file name has no directory part and no whitespace |
| `PartitionNames.AsWrittenMissesPartitionInDirectory` | src/base/global_vector.cpp:414-423 | with file name `out/v`, the partition is written to `out/v.rank.0` but looked for at `out/out/v.rank.0` |
| `PartitionNames.CorrectedHeaderLineParts` | src/base/global_vector.cpp:385-386 | a corrected header line after the directory part is the partition's path |
| `PartitionNames.CorrectedReadFindsWrittenPartition` | src/base/global_vector.cpp:374-390 | with the corrected header, rank `r` reads the file it wrote if and only if the base name holds no whitespace |
| `Collective.LocalAsum` | src/base/global_vector.cpp:624-639 | the local absolute sum is never negative |
| `Collective.Asum` | src/base/global_vector.cpp:624-639 | the all-reduced absolute sum is never negative |
| `Collective.Dot` | src/base/global_vector.cpp:564-579 | the local dot product, then the all-reduce; the body is the model, and `DotIsGlobal` states its value |
| `Collective.Reduce` | src/base/global_vector.cpp:607-622 | the local sum, then the all-reduce; the body is the model, and `ReduceIsGlobal` states its value |
| `Collective.SumOfDotPartials` | src/base/global_vector.cpp:564-579 | the sum of the ranks' local dot products is the dot product of the global vectors |
| `Collective.DotIsGlobal` | src/base/global_vector.cpp:564-579 | with multinode support, every rank's `Dot` is the dot product of the whole global vectors; without it, the local dot product |
| `Collective.ReduceIsGlobal` | src/base/global_vector.cpp:607-622 | with multinode support, every rank's `Reduce` is the sum of the whole global vector; without it, the local sum |
| `Collective.AsumIsGlobal` | src/base/global_vector.cpp:624-639 | with multinode support, every rank's `Asum` is the absolute sum of the whole global vector; without it, the local one |
| `Collective.ReductionsIgnorePartitioning` | src/base/global_vector.cpp:564-639 | with multinode support, `Dot`, `Reduce` and `Asum` give the same value on every rank and for every split of the same global vectors |
| `Collective.DotSelfNonNegative` | src/base/global_vector.cpp:598-605 | a vector's dot product with itself is never negative, so its square root exists |
| `Collective.Norm` | src/base/global_vector.cpp:598-605 | the norm is non-negative and its square is the self dot product that `Dot` returns for the same partials, rank and multinode flag |
| `GlobalVectors.GetSizeAfterAllocate` | src/base/global_vector.cpp:98-114 | `GetSize` after `Allocate(size)` gives `size` back unless `size` is the column count, the local counts coincide and the global counts differ |
| `GlobalVectors.WrittenHeaderHasOneLinePerRank` | src/base/global_vector.cpp:414-423 | the program's header on rank 0 has exactly `numProcs` lines: line `i` is `filename + ".rank." + decimal(i)`, reading past the last line gives the empty string, and nothing follows line `numProcs - 1` |
| `GlobalVectors.CorrectedHeaderHasOneLinePerRank` | src/base/global_vector.cpp:414-423 | corrected header (Findings): exactly `numProcs` lines, nothing after them, and line `i` put after the header's directory is rank `i`'s partition file |
| `GlobalVectors.WriteOutcomeFiles` | src/base/global_vector.cpp:398-432 | for any header text: a write succeeds exactly when the header (on rank 0) and the rank's partition can be opened. A failure names the header file when rank 0 cannot open it, and the partition otherwise; a failure on the header changes nothing. On success the rank's partition holds the interior and rank 0's header file holds the header. Only those two files can be added or changed, and every other file keeps its content |
| `GlobalVectors.RoundTripWith` | src/base/global_vector.cpp:357-432 | whenever a header leads rank `r` back to its own partition, rank `r` reads back exactly the interior it wrote after rank 0 and rank `r` write |
| `GlobalVectors.WriteThenReadRoundTrip` | src/base/global_vector.cpp:357-432 | with the program's header, rank `r` reads back what it wrote when the file name has no directory part and no whitespace (with a directory part it does not: `PartitionNames.ReadFindsWrittenPartitionIff`) |
| `GlobalVectors.WriteRanksKeeps` | src/base/global_vector.cpp:398-432 | when every rank of the world writes in turn and the header and all their partitions can be opened, every write succeeds, each partition keeps its own rank's interior (a later rank never overwrites an earlier rank's file) and the header file holds the header |
| `GlobalVectors.WorldRoundTripWith` | src/base/global_vector.cpp:357-432 | after every rank writes, any rank that the header leads back to its own partition reads back exactly its own interior |
| `GlobalVectors.WorldRoundTrip` | src/base/global_vector.cpp:357-432 | with the program's header, a file name without directory part or whitespace, and all files writable, every rank of the world reads back its own interior |
| `GlobalVectors.CorrectedWorldRoundTrip` | src/base/global_vector.cpp:357-432 | corrected header (Findings): every rank of the world reads back its own interior wherever the header lives, provided the base name holds no whitespace |
| `GlobalVectors.CorrectedWriteThenReadRoundTrip` | src/base/global_vector.cpp:357-432 | corrected header (Findings): rank `r` reads back what it wrote whenever the base name holds no whitespace, wherever the header lives |
| `GlobalVectors.GhostSizeDependsOnlyOnManager` | src/base/global_vector.cpp:122-126 | the ghost length is the manager's receive count: two vectors on the same manager report the same ghost length whatever their interiors, sizes and names |
| `GlobalVectors.GlobalVector.Unattached` | src/base/global_vector.cpp:44-57 | the default constructor leaves no parallel manager, an empty name and an empty interior |
| `GlobalVectors.GlobalVector.constructor` | src/base/global_vector.cpp:59-69 | the vector refers to the given parallel manager, with an empty name and an empty interior |
| `GlobalVectors.GlobalVector.Clear` | src/base/global_vector.cpp:79-85 | the interior becomes empty |
| `GlobalVectors.GlobalVector.SetParallelManager` | src/base/global_vector.cpp:87-95 | the vector now refers to the given parallel manager |
| `GlobalVectors.GlobalVector.GetGhostSize` | src/base/global_vector.cpp:122-126 | returns the manager's receive count (a getter; `GhostSizeDependsOnlyOnManager` states its property) |
| `GlobalVectors.GlobalVector.LocalSize` | src/base/global_vector.cpp:116-120 | the length of the interior (a getter; `Allocate` states what it becomes) |
| `GlobalVectors.GlobalVector.GetSize` | src/base/global_vector.cpp:98-114 | the row count when the local length is the local row count, else the column count when it is the local column count, else 0; `GetSizeAfterAllocate` states when it gives the allocated size back |
| `GlobalVectors.GlobalVector.Allocate` | src/base/global_vector.cpp:144-175 | requires the size to be the global row or column count. The interior gets the local column count when the size is the column count, else the local row count. Name and ghost index array are set |
| `GlobalVectors.GlobalVector.SetDataPtr` | src/base/global_vector.cpp:201-236 | requires a non-NULL buffer of the resolved local length. The buffer becomes the interior, the caller's slot becomes NULL, and names are set |
| `GlobalVectors.GlobalVector.LeaveDataPtr` | src/base/global_vector.cpp:238-247 | requires an empty slot and a non-empty interior; the slot receives the interior and the vector is left empty |
| `GlobalVectors.GlobalVector.CopyFrom` | src/base/global_vector.cpp:268-277 | requires another vector on the same parallel manager; only the interior changes, to the source's |
| `GlobalVectors.GlobalVector.CloneFrom` | src/base/global_vector.cpp:279-285 | always ends in a fatal error |
| `GlobalVectors.GlobalVector.Amax` | src/base/global_vector.cpp:641-646 | always ends in a fatal error |
| `GlobalVectors.GlobalVector.At` | src/base/global_vector.cpp:313-321 | requires `0 <= i < local size`; the value read is an element of the interior |
| `GlobalVectors.GlobalVector.SetAt` | src/base/global_vector.cpp:303-311 | requires `0 <= i < local size`; only element `i` of the interior changes |
| `GlobalVectors.GlobalVector.Restriction` | src/base/global_vector.cpp:673-677 | neither vector changes |
| `GlobalVectors.GlobalVector.Prolongation` | src/base/global_vector.cpp:679-683 | neither vector changes |
| `GlobalVectors.GlobalVector.ReadFile` | src/base/global_vector.cpp:357-396 | the loop skips exactly `rank` header lines. A read succeeds exactly when the header and the derived partition can be opened, and then sets the interior, the name and the ghost index array. A failure names the file and changes nothing |
| `GlobalVectors.GlobalVector.ReadFileASCII` | src/base/global_vector.cpp:357-396 | `ReadFile` in the ASCII layout: success exactly when the partition loads, a failure names the file that could not be opened and changes nothing |
| `GlobalVectors.GlobalVector.ReadFileBinary` | src/base/global_vector.cpp:434-473 | `ReadFile` in the binary layout: success exactly when the partition loads, a failure names the file that could not be opened and changes nothing |
| `GlobalVectors.GlobalVector.WriteFile` | src/base/global_vector.cpp:398-432 | the loop emits one header line `filename + ".rank." + i` per rank; the status and the files are those of the write outcome |
| `GlobalVectors.GlobalVector.WriteFileASCII` | src/base/global_vector.cpp:398-432 | `WriteFile` in the ASCII layout |
| `GlobalVectors.GlobalVector.WriteFileBinary` | src/base/global_vector.cpp:475-509 | `WriteFile` in the binary layout |
| `GlobalVectors.GlobalVector.CorrectedWriteFile` | src/base/global_vector.cpp:398-432 | corrected writer (Findings): the loop emits one header line per rank holding the base name, and the status and files are those of the corrected write outcome |
| `PairwiseAmg.GlobalPairwiseAmg.constructor` | src/solvers/multigrid/global_pairwise_amg.cpp:45-68 | the defaults: beta 0.35, coarse size 1000, factor 4.0, two pre- and two post-smoothing steps, K-cycle, no scaling, ordering 1 |
| `PairwiseAmg.GlobalPairwiseAmg.SetBeta` | src/solvers/multigrid/global_pairwise_amg.cpp:112-118 | only beta changes, to the given value |
| `PairwiseAmg.GlobalPairwiseAmg.SetCoarseningFactor` | src/solvers/multigrid/global_pairwise_amg.cpp:120-126 | only the coarsening factor changes, to the given value |
| `PairwiseAmg.GlobalPairwiseAmg.SetOrdering` | src/solvers/multigrid/global_pairwise_amg.cpp:128-137 | requires `0 <= ordering <= 5`; only the ordering changes |
| `PairwiseAmg.FurtherPasses` | src/solvers/multigrid/global_pairwise_amg.cpp:252-258 | the loop ends only once the ratio is no longer below the factor. It runs at most `fuel` passes, and with no pass it keeps its starting state |
| `PairwiseAmg.FurtherPassesFuelIrrelevant` | src/solvers/multigrid/global_pairwise_amg.cpp:252-258 | once the loop ends within `fuel` passes, more fuel gives the same result, so the bound never changes a loop that terminates |
| `PairwiseAmg.AggregateOutcome` | src/solvers/multigrid/global_pairwise_amg.cpp:246-260 | the map allocated to the local rows, the initial pass, the loop, and the transfers from the final map; the body is the model, and `GlobalPairwiseAmg.Aggregate`, `AggregateMeetsFactor` and `NoFurtherPassIff` state its properties |
| `PairwiseAmg.AggregateMeetsFactor` | src/solvers/multigrid/global_pairwise_amg.cpp:252-258 | after the loop, the fine size is at least the factor times the coarse size (or the coarse size is 0) |
| `PairwiseAmg.NoFurtherPassIff` | src/solvers/multigrid/global_pairwise_amg.cpp:248-258 | zero further passes run if and only if the initial pass already meets the factor |
| `PairwiseAmg.StalledPassesNeverEnd` | src/solvers/multigrid/global_pairwise_amg.cpp:252-258 | as written (Findings): once the ratio is below the factor and further passes never make the coarse operator smaller, no number of passes ends the loop |
| `PairwiseAmg.AggregateNeverEndsWhenPassesStall` | src/solvers/multigrid/global_pairwise_amg.cpp:246-258 | as written (Findings): if the initial pass is below the factor and the passes stall, `Aggregate_` never returns, whatever the fuel |
| `PairwiseAmg.DiagonalOperatorNeverEnds` | src/solvers/multigrid/global_pairwise_amg.cpp:246-258 | as written (Findings): a non-empty operator on which every row stays its own aggregate never returns with the default beta, ordering and factor 4.0 |
| `PairwiseAmg.StoppingPasses` | src/solvers/multigrid/global_pairwise_amg.cpp:252-258 | corrected loop (Findings): with no bound, it ends within as many passes as the coarse operator has rows, and it runs a pass exactly when the ratio is below the factor |
| `PairwiseAmg.StoppingPassesAgreeWhenPassesShrink` | src/solvers/multigrid/global_pairwise_amg.cpp:252-258 | corrected loop (Findings): where every pass shrinks the coarse operator, the corrected loop gives exactly what the loop as written gives |
| `PairwiseAmg.DiagonalOperatorStopsWhenCorrected` | src/solvers/multigrid/global_pairwise_amg.cpp:246-258 | corrected loop (Findings): on the same diagonal operator it ends after one further pass |
| `PairwiseAmg.FactorAtMostOneSkipsLoop` | src/solvers/multigrid/global_pairwise_amg.cpp:248-258 | with a factor of at most 1 and an initial pass that does not grow the operator, the initial pass's result is final |
| `PairwiseAmg.GlobalPairwiseAmg.Aggregate` | src/solvers/multigrid/global_pairwise_amg.cpp:217-267 | the map is allocated to the local rows. The transfers are built from the final map, local rows and final aggregate count. Exactly one entry (final `nc`, `Gsize`, `rGsize`, `rG`) is appended to each of the four lists, which stay equally long |
| `PairwiseAmg.RebuiltLevels` | src/solvers/multigrid/global_pairwise_amg.cpp:149-171 | one rebuilt coarse operator per stored level; `RebuiltLevelWiring` states how each is built |
| `PairwiseAmg.RebuiltLevelWiring` | src/solvers/multigrid/global_pairwise_amg.cpp:146-171 | rebuilt level `i` is coarsened from the fine operator for `i == 0` and from rebuilt level `i - 1` otherwise, with the manager and aggregation data stored at index `i` |
| `PairwiseAmg.GlobalPairwiseAmg.RebuildOperators` | src/solvers/multigrid/global_pairwise_amg.cpp:146-171 | the first `levels - 1` operators and managers are the rebuilt levels; the rest are unchanged |
| `PairwiseAmg.GlobalPairwiseAmg.ResetSmoothers` | src/solvers/multigrid/global_pairwise_amg.cpp:173-186 | smoother 0 is reset onto the fine operator and smoother `i` onto level `i - 1`. The coarse solver is reset onto level `levels - 2` |
| `PairwiseAmg.GlobalPairwiseAmg.ConvertLevels` | src/solvers/multigrid/global_pairwise_amg.cpp:188-195 | each of the first `levels - 1` operators takes the operator format; nothing else changes |
| `PairwiseAmg.GlobalPairwiseAmg.ReBuildNumeric` | src/solvers/multigrid/global_pairwise_amg.cpp:139-196 | requires `levels > 1`, a built hierarchy and an operator. Levels are rebuilt from the stored data and converted only when the format is not CSR. Smoothers and the coarse solver are reset onto their operators, and the stored lists are outside its frame |
| `PairwiseAmg.GlobalPairwiseAmg.ClearLocal` | src/solvers/multigrid/global_pairwise_amg.cpp:198-215 | on a built hierarchy, each of the first `levels - 1` ghost arrays is freed once, in order, and the four lists become empty; otherwise nothing changes |

## Left out

- `DotNonConj`: on real values it is `Dot`. Complex values are not modelled.
- Floating-point arithmetic: values, the reductions and the coarsening ratio are exact reals. The ratio test is false when the coarse size is 0, because the quotient is then infinite or NaN.
- `PairwiseAmg.GlobalPairwiseAmg.constructor`: beta is the real 0.35, not its `float` or `double` rounding.
- `PairwiseAmg.GlobalPairwiseAmg.Aggregate`: the `while` loop has no bound when further passes stop shrinking the operator (Findings). The model gives it `fuel` passes and returns None, changing nothing, when they do not reach the factor. The method models the loop as written; `PairwiseAmg.StoppingPasses` is the corrected loop.
- `PairwiseAmg.GlobalPairwiseAmg.constructor`: `!build`, `op == None`, the empty stored lists and `freed == []` are the defaults of the base multigrid class and of the four lists' own constructors, which are not part of this model; lines 45-68 set only the configuration.
- `GlobalVectors.GlobalVector.Allocate`: the local allocator is not part of this model; the new interior is taken to be zero-filled.
- `GlobalVectors.GlobalVector.ReadFile`: the partition file's own format (the ASCII value parser and the binary layout) is not modelled. A partition is a value with its layout tag, and a missing or mismatched one is a fatal error naming its path.
- `GlobalVectors.GlobalVector.At`: the reference `operator[]` returns, and aliasing through it, is not modelled; writing through it is `SetAt`.
- The MPI all-reduce: blocking and the ordering across ranks are not modelled. Every rank's result is the sum of all partials.
- The default constructor's fatal error when multinode support is compiled out, and the `ParallelManager::Status()` assertions: build configuration and manager internals are not part of this model.
- `GlobalVectors.GlobalVector.GetSize`: sizes are unbounded naturals. The source returns `IndexType2` but passes the global count through `int global_size` (src/base/global_vector.cpp:99-113), so a global count above `INT_MAX` is narrowed there; the model does not capture that narrowing.
- The `LocalVector` kernels (`AddScale`, `ScaleAdd2`, `PointWiseMult`, `Power`, random fills, `Zeros`, `Ones`, `SetValues`) and the host/accelerator moves: foreign code outside this model.
- `Info`, `Print`, `PrintStart_`, `PrintEnd_` and logging: output only.
- The matrix primitives (`InitialPairwiseAggregation`, `FurtherPairwiseAggregation`, `CoarsenOperator`, `CreateFromMap`) and the smoother and solver internals: they are parameters. The coarse operator is taken to depend only on its inputs, not on what the target held before (`Clear` and `ConvertToCSR` before a rebuild are therefore not modelled). `ConvertTo` is a change of the format tag.
- `Aggregate_`'s pointer out-parameters (restriction, prolongation, coarse operator, manager, map) are returned as values, and the assertions that they are non-NULL are implied by the types.
- The multigrid build loop, the V/W/K cycle, the multigrid base class and `src/base/host/host_io.hpp` are not part of this model.

## Findings

| source | as written | input that shows it | evidently intended | confidence | as-written member | corrected member |
|---|---|---|---|---|---|---|
| src/base/global_vector.cpp:420 | the header line for rank `i` is the whole `filename + ".rank." + i` (also line 497); the reader (lines 385-390) then puts the directory part of `filename` in front of that line again | file name `out/v`, one rank: the partition is written to `out/v.rank.0`, the reader opens `out/out/v.rank.0` | header lines relative to the header's directory, so a rank reads the file it wrote wherever the header lives | not executed | `PartitionNames.AsWrittenMissesPartitionInDirectory` | `PartitionNames.CorrectedReadFindsWrittenPartition` |
| src/solvers/multigrid/global_pairwise_amg.cpp:252-258 | the loop repeats further aggregation while `fine rows / coarse rows` is below the coarsening factor, and nothing ends it when a pass leaves the coarse operator as large as before | an operator whose rows have no strong couplings (a diagonal matrix, say) with factor 4.0: every row stays its own aggregate, the coarse size equals the fine size, and the ratio stays 1.0 below 4.0 on every pass | the loop also stops when a pass no longer reduces the coarse size, so it always ends | not executed; assumes the aggregation primitives leave such rows unpaired | `PairwiseAmg.AggregateNeverEndsWhenPassesStall` | `PairwiseAmg.StoppingPasses` |

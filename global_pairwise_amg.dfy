/**
 * The bookkeeping of the distributed pairwise-aggregation multigrid: its
 * configuration, the aggregation of one level (an initial pairwise pass,
 * then further passes until the target coarsening factor is reached), the
 * numeric rebuild of every level from the data stored when it was built, and
 * the release of that data.
 *
 * The matrix primitives the code calls (pairwise aggregation, coarse
 * operator construction) are not part of this model: they are passed in as
 * `Collaborators`, total functions whose results stand for what the
 * matrices compute.
 */
module PairwiseAmg {
  import opened Options

  datatype MatrixFormat = DENSE | CSR | MCSR | BCSR | COO | DIA | ELL | HYB

  /**
   * An operator as seen here: its global row count `m`, its local row count
   * `localM`, its storage format, and `entries`, which stands for its
   * pattern and values.
   */
  datatype Matrix = Matrix(m: nat, localM: nat, format: MatrixFormat, entries: nat)

  /** The parallel manager of one level, which building the coarse operator sets up. */
  datatype Comm = Comm(id: nat)

  /** A host array of ghost rows (`int*`), or NULL. */
  datatype GhostArray = NullArray | HostArray(rows: seq<int>)

  /**
   * What a pairwise aggregation pass produces: the aggregate count `nc`, the
   * fine-to-aggregate map `trans`, and the ghost aggregation data `gsize`,
   * `rG` and `rGsize`.
   */
  datatype Aggregation = Aggregation(nc: int, trans: seq<int>, gsize: int, rG: GhostArray, rGsize: int)

  /** A coarse operator together with the parallel manager built for it. */
  datatype Coarse = Coarse(op: Matrix, pm: Comm)

  /**
   * The matrix primitives: `initial` is `op.InitialPairwiseAggregation(beta,
   * ..., ordering)` given the freshly allocated map; `further` is
   * `coarse.FurtherPairwiseAggregation(beta, ..., ordering)` given the
   * previous pass; `coarsen` is `fine.CoarsenOperator(..., pm, nc, nc, trans,
   * Gsize, rG, rGsize)`.
   */
  datatype Collaborators = Collaborators(
    initial: (Matrix, real, int, seq<int>) -> Aggregation,
    further: (Matrix, real, int, Aggregation) -> Aggregation,
    coarsen: (Matrix, Comm, Aggregation) -> Coarse)

  /** Restriction and prolongation, as built by `CreateFromMap(map, fine rows, coarse rows)`. */
  datatype Transfer = FromMap(aggregates: seq<int>, fineRows: nat, coarseRows: int)

  /** Which operator a smoother or coarse solver is attached to. */
  datatype OpRef = FineOperator | LevelOperator(level: nat)

  /** A smoother or coarse solver: its configuration, its operator, its numeric rebuild count and verbosity. */
  datatype Solver = Solver(config: nat, operator: Option<OpRef>, numericBuilds: nat, verbose: int)

  /** `ResetOperator(A)`, `ReBuildNumeric()`, `Verbose(0)`: configuration kept, operator and numeric state renewed. */
  function ResetOnto(s: Solver, target: OpRef): Solver {
    s.(operator := Some(target), numericBuilds := s.numericBuilds + 1, verbose := 0)
  }

  /** A freshly allocated transfer map (the local allocator zero-fills). */
  function ZeroMap(n: nat): seq<int> {
    seq(n, _ => 0)
  }

  /**
   * The loop test `double(fineM) / double(coarseM) < factor`. When `coarseM`
   * is 0 the quotient is +inf or NaN, and the test is false.
   */
  predicate RatioBelow(fineM: nat, coarseM: nat, factor: real) {
    0 < coarseM && (fineM as real) / (coarseM as real) < factor
  }

  /** The state of one level's aggregation after `passes` further passes. */
  datatype PassState = PassState(agg: Aggregation, coarse: Coarse, passes: nat)

  /** The initial pass on `op`, with the transfer map allocated to `op`'s local rows. */
  function InitialPass(c: Collaborators, op: Matrix, pm: Comm, beta: real, ordering: int): PassState {
    var agg := c.initial(op, beta, ordering, ZeroMap(op.localM));
    PassState(agg, c.coarsen(op, pm, agg), 0)
  }

  /**
   * The `while` loop of `Aggregate_`: further aggregation of the coarse
   * operator and a new coarse operator from `op`, while the ratio is below
   * the factor. None when `fuel` passes do not reach the factor.
   */
  function FurtherPasses(c: Collaborators, op: Matrix, beta: real, ordering: int, factor: real,
                         s: PassState, fuel: nat): (r: Option<PassState>)
    ensures r.Some? ==> !RatioBelow(op.m, r.value.coarse.op.m, factor)
    ensures r.Some? ==> s.passes <= r.value.passes <= s.passes + fuel
    ensures r.Some? && r.value.passes == s.passes ==> r.value == s
    decreases fuel
  {
    if !RatioBelow(op.m, s.coarse.op.m, factor) then Some(s)
    else if fuel == 0 then None
    else
      var agg := c.further(s.coarse.op, beta, ordering, s.agg);
      FurtherPasses(c, op, beta, ordering, factor, PassState(agg, c.coarsen(op, s.coarse.pm, agg), s.passes + 1), fuel - 1)
  }

  /**
   * The fuel only bounds the loop: once `fuel` passes reach the factor, any
   * larger fuel gives the same result.
   */
  lemma {:induction false} FurtherPassesFuelIrrelevant(c: Collaborators, op: Matrix, beta: real, ordering: int,
                                                        factor: real, s: PassState, fuel: nat, k: nat)
    requires FurtherPasses(c, op, beta, ordering, factor, s, fuel).Some?
    ensures FurtherPasses(c, op, beta, ordering, factor, s, fuel + k)
         == FurtherPasses(c, op, beta, ordering, factor, s, fuel)
    decreases fuel
  {
    if RatioBelow(op.m, s.coarse.op.m, factor) {
      var agg := c.further(s.coarse.op, beta, ordering, s.agg);
      FurtherPassesFuelIrrelevant(c, op, beta, ordering, factor,
                                  PassState(agg, c.coarsen(op, s.coarse.pm, agg), s.passes + 1), fuel - 1, k);
    }
  }

  /** What one call of `Aggregate_` produces. */
  datatype Aggregated = Aggregated(transfer: Transfer, coarse: Coarse, agg: Aggregation, passes: nat)

  function AggregateOutcome(c: Collaborators, op: Matrix, pm: Comm, beta: real, ordering: int,
                            factor: real, fuel: nat): Option<Aggregated>
  {
    match FurtherPasses(c, op, beta, ordering, factor, InitialPass(c, op, pm, beta, ordering), fuel)
    case None => None
    case Some(s) => Some(Aggregated(FromMap(s.agg.trans, op.localM, s.agg.nc), s.coarse, s.agg, s.passes))
  }

  lemma QuotientAtLeast(a: real, b: real, f: real)
    requires 0.0 < b && f <= a / b
    ensures f * b <= a
  {
    calc {
      f * b;
    <= { assert f <= a / b; }
      (a / b) * b;
    ==
      a;
    }
  }

  lemma QuotientAtLeastOne(a: real, b: real)
    requires 0.0 < b <= a
    ensures 1.0 <= a / b
  {
    var q := a / b;
    assert q * b == a;
    if q < 1.0 {
      assert false;
    }
  }

  /**
   * The loop is left only once the fine size is at least `factor` times the
   * coarse size (or the coarse size is 0).
   */
  lemma AggregateMeetsFactor(c: Collaborators, op: Matrix, pm: Comm, beta: real, ordering: int,
                             factor: real, fuel: nat)
    ensures var r := AggregateOutcome(c, op, pm, beta, ordering, factor, fuel);
      r.Some? ==> r.value.coarse.op.m == 0 || factor * (r.value.coarse.op.m as real) <= op.m as real
  {
    var r := AggregateOutcome(c, op, pm, beta, ordering, factor, fuel);
    if r.Some? && r.value.coarse.op.m != 0 {
      QuotientAtLeast(op.m as real, r.value.coarse.op.m as real, factor);
    }
  }

  /** No further pass runs exactly when the initial pass already meets the factor. */
  lemma NoFurtherPassIff(c: Collaborators, op: Matrix, pm: Comm, beta: real, ordering: int,
                         factor: real, fuel: nat)
    ensures var r := AggregateOutcome(c, op, pm, beta, ordering, factor, fuel);
      (r.Some? && r.value.passes == 0)
        <==> !RatioBelow(op.m, InitialPass(c, op, pm, beta, ordering).coarse.op.m, factor)
  {
  }

  /**
   * With a factor of at most 1 and an initial pass that does not grow the
   * operator, only the initial pass runs, and its result is kept.
   */
  lemma FactorAtMostOneSkipsLoop(c: Collaborators, op: Matrix, pm: Comm, beta: real, ordering: int,
                                 factor: real, fuel: nat)
    requires factor <= 1.0
    requires InitialPass(c, op, pm, beta, ordering).coarse.op.m <= op.m
    ensures var s := InitialPass(c, op, pm, beta, ordering);
      AggregateOutcome(c, op, pm, beta, ordering, factor, fuel)
        == Some(Aggregated(FromMap(s.agg.trans, op.localM, s.agg.nc), s.coarse, s.agg, 0))
  {
    var cm := InitialPass(c, op, pm, beta, ordering).coarse.op.m;
    if 0 < cm {
      QuotientAtLeastOne(op.m as real, cm as real);
    }
  }

  /**
   * Further passes that never make the coarse operator smaller, as on an
   * operator without strong couplings, where every row stays an aggregate
   * of its own.
   */
  ghost predicate PassesStall(c: Collaborators, op: Matrix, beta: real, ordering: int) {
    forall m: Matrix, p: Comm, a: Aggregation :: m.m <= c.coarsen(op, p, c.further(m, beta, ordering, a)).op.m
  }

  /** Further passes that make a non-empty coarse operator strictly smaller. */
  ghost predicate PassesShrink(c: Collaborators, op: Matrix, beta: real, ordering: int) {
    forall m: Matrix, p: Comm, a: Aggregation :: 0 < m.m ==> c.coarsen(op, p, c.further(m, beta, ordering, a)).op.m < m.m
  }

  lemma QuotientShrinks(a: real, b: real, b': real)
    requires 0.0 <= a && 0.0 < b <= b'
    ensures a / b' <= a / b
  {
  }

  /**
   * As written, the loop has no way out once the passes stall below the
   * factor: no number of passes ends it.
   */
  lemma {:induction false} StalledPassesNeverEnd(c: Collaborators, op: Matrix, beta: real, ordering: int,
                                                 factor: real, s: PassState, fuel: nat)
    requires PassesStall(c, op, beta, ordering)
    requires RatioBelow(op.m, s.coarse.op.m, factor)
    ensures FurtherPasses(c, op, beta, ordering, factor, s, fuel) == None
    decreases fuel
  {
    if 0 < fuel {
      var agg := c.further(s.coarse.op, beta, ordering, s.agg);
      var next := PassState(agg, c.coarsen(op, s.coarse.pm, agg), s.passes + 1);
      QuotientShrinks(op.m as real, s.coarse.op.m as real, next.coarse.op.m as real);
      StalledPassesNeverEnd(c, op, beta, ordering, factor, next, fuel - 1);
    }
  }

  /** `Aggregate_` as written: when the initial pass is below the factor and the passes stall, it never returns. */
  lemma AggregateNeverEndsWhenPassesStall(c: Collaborators, op: Matrix, pm: Comm, beta: real, ordering: int,
                                          factor: real, fuel: nat)
    requires PassesStall(c, op, beta, ordering)
    requires RatioBelow(op.m, InitialPass(c, op, pm, beta, ordering).coarse.op.m, factor)
    ensures AggregateOutcome(c, op, pm, beta, ordering, factor, fuel) == None
  {
    StalledPassesNeverEnd(c, op, beta, ordering, factor, InitialPass(c, op, pm, beta, ordering), fuel);
  }

  /** Aggregation that leaves every row an aggregate of its own, as on a diagonal operator. */
  function Singletons(): Collaborators {
    Collaborators(
      (op: Matrix, beta: real, ordering: int, trans: seq<int>) => Aggregation(op.m, trans, 0, NullArray, 0),
      (coarse: Matrix, beta: real, ordering: int, a: Aggregation) => a.(nc := coarse.m),
      (fine: Matrix, pm: Comm, a: Aggregation) => Coarse(Matrix(if a.nc < 0 then 0 else a.nc, 0, fine.format, 0), pm))
  }

  /** A non-empty diagonal operator with the default beta, ordering and factor: `Aggregate_` never returns. */
  lemma DiagonalOperatorNeverEnds(op: Matrix, pm: Comm, fuel: nat)
    requires 0 < op.m
    ensures AggregateOutcome(Singletons(), op, pm, 0.35, 1, 4.0, fuel) == None
  {
    AggregateNeverEndsWhenPassesStall(Singletons(), op, pm, 0.35, 1, 4.0, fuel);
  }

  /**
   * The corrected loop: further passes while the ratio is below the factor,
   * stopping once a pass no longer makes the coarse operator smaller. It needs no bound: it repeats only after the coarse size
   * shrank, so it runs at most as many passes as the coarse operator has rows.
   */
  function StoppingPasses(c: Collaborators, op: Matrix, beta: real, ordering: int, factor: real,
                          s: PassState): (r: PassState)
    ensures s.passes <= r.passes <= s.passes + s.coarse.op.m
    ensures r.passes == s.passes <==> !RatioBelow(op.m, s.coarse.op.m, factor)
    decreases s.coarse.op.m
  {
    if !RatioBelow(op.m, s.coarse.op.m, factor) then s
    else
      var agg := c.further(s.coarse.op, beta, ordering, s.agg);
      var next := PassState(agg, c.coarsen(op, s.coarse.pm, agg), s.passes + 1);
      if next.coarse.op.m < s.coarse.op.m then StoppingPasses(c, op, beta, ordering, factor, next)
      else next
  }

  /**
   * Where every pass shrinks the coarse operator, the corrected loop does
   * exactly what the loop as written does, within as many passes as the
   * coarse operator has rows.
   */
  lemma {:induction false} StoppingPassesAgreeWhenPassesShrink(c: Collaborators, op: Matrix, beta: real,
                                                               ordering: int, factor: real, s: PassState)
    requires PassesShrink(c, op, beta, ordering)
    ensures FurtherPasses(c, op, beta, ordering, factor, s, s.coarse.op.m)
         == Some(StoppingPasses(c, op, beta, ordering, factor, s))
    decreases s.coarse.op.m
  {
    if RatioBelow(op.m, s.coarse.op.m, factor) {
      var agg := c.further(s.coarse.op, beta, ordering, s.agg);
      var next := PassState(agg, c.coarsen(op, s.coarse.pm, agg), s.passes + 1);
      assert next.coarse.op.m < s.coarse.op.m;
      StoppingPassesAgreeWhenPassesShrink(c, op, beta, ordering, factor, next);
      FurtherPassesFuelIrrelevant(c, op, beta, ordering, factor, next, next.coarse.op.m,
                                  s.coarse.op.m - 1 - next.coarse.op.m);
    }
  }

  /** The corrected loop on the same diagonal operator: it ends after one further pass. */
  lemma DiagonalOperatorStopsWhenCorrected(op: Matrix, pm: Comm)
    requires 0 < op.m
    ensures StoppingPasses(Singletons(), op, 0.35, 1, 4.0, InitialPass(Singletons(), op, pm, 0.35, 1)).passes == 1
  {
  }

  /** The stored per-level aggregation data, zipped level by level. */
  function StoredAggregations(dims: seq<int>, trans: seq<seq<int>>, gsizes: seq<int>,
                              rGs: seq<GhostArray>, rGsizes: seq<int>, n: nat): (s: seq<Aggregation>)
    requires n <= |dims| && n <= |trans| && n <= |gsizes| && n <= |rGs| && n <= |rGsizes|
    ensures |s| == n
  {
    seq(n, i requires 0 <= i < n => Aggregation(dims[i], trans[i], gsizes[i], rGs[i], rGsizes[i]))
  }

  /**
   * The coarse operators `ReBuildNumeric` builds, level by level: level 0
   * from the fine operator, level `i` from the rebuilt level `i - 1`, each
   * with its stored parallel manager and aggregation data.
   */
  function RebuiltLevels(c: Collaborators, op: Matrix, pms: seq<Comm>, stored: seq<Aggregation>, n: nat): (r: seq<Coarse>)
    requires n <= |pms| && n <= |stored|
    ensures |r| == n
  {
    if n == 0 then []
    else
      var prev := RebuiltLevels(c, op, pms, stored, n - 1);
      prev + [c.coarsen(if n == 1 then op else prev[n - 2].op, pms[n - 1], stored[n - 1])]
  }

  lemma {:induction false} RebuiltLevelsPrefix(c: Collaborators, op: Matrix, pms: seq<Comm>, stored: seq<Aggregation>,
                                               n: nat, k: nat)
    requires k <= n <= |pms| && n <= |stored|
    ensures RebuiltLevels(c, op, pms, stored, n)[..k] == RebuiltLevels(c, op, pms, stored, k)
  {
    if k < n {
      RebuiltLevelsPrefix(c, op, pms, stored, n - 1, k);
      assert RebuiltLevels(c, op, pms, stored, n)[..n - 1] == RebuiltLevels(c, op, pms, stored, n - 1);
      assert RebuiltLevels(c, op, pms, stored, n)[..k] == RebuiltLevels(c, op, pms, stored, n)[..n - 1][..k];
    }
  }

  /**
   * The wiring of the rebuild: level `i` is coarsened from the fine operator
   * when `i` is 0 and from rebuilt level `i - 1` otherwise, with the
   * parallel manager and aggregation data stored at index `i`.
   */
  lemma RebuiltLevelWiring(c: Collaborators, op: Matrix, pms: seq<Comm>, stored: seq<Aggregation>, n: nat, i: nat)
    requires i < n <= |pms| && n <= |stored|
    ensures var r := RebuiltLevels(c, op, pms, stored, n);
      r[i] == c.coarsen(if i == 0 then op else r[i - 1].op, pms[i], stored[i])
  {
    RebuiltLevelsPrefix(c, op, pms, stored, n, i + 1);
    var r := RebuiltLevels(c, op, pms, stored, n);
    assert r[i] == r[..i + 1][i];
    if 0 < i {
      assert r[i - 1] == r[..i + 1][i - 1];
      RebuiltLevelsPrefix(c, op, pms, stored, i + 1, i);
    }
  }

  /** The format conversion at the end of `ReBuildNumeric`: only when the target format is not CSR. */
  function InFormat(m: Matrix, format: MatrixFormat): Matrix {
    if format != CSR then m.(format := format) else m
  }

  /** The operator smoother `i` is reset onto: the fine operator for 0, coarse level `i - 1` otherwise. */
  function SmootherTarget(i: nat): OpRef {
    if i == 0 then FineOperator else LevelOperator(i - 1)
  }

  const MaxOrdering := 5

  class GlobalPairwiseAmg {
    // configuration
    var beta: real
    var coarseSize: int
    var coarseningFactor: real
    var iterPreSmooth: int
    var iterPostSmooth: int
    var cycle: int
    var scaling: bool
    var aggregationOrdering: int

    // the hierarchy
    var levels: int
    var build: bool
    var op: Option<Matrix>
    var opFormat: MatrixFormat
    var opLevel: seq<Matrix>
    var pmLevel: seq<Comm>
    var transLevel: seq<seq<int>>
    var smootherLevel: seq<Solver>
    var solverCoarse: Option<Solver>

    // the data kept for numeric rebuilds, one entry per aggregated level
    var dimLevel: seq<int>
    var gsizeLevel: seq<int>
    var rGsizeLevel: seq<int>
    var rGLevel: seq<GhostArray>

    /** The ghost arrays handed to `free_host`, in order. */
    ghost var freed: seq<GhostArray>

    /** The four lists of stored aggregation data grow and shrink together. */
    ghost predicate Valid()
      reads this
    {
      |gsizeLevel| == |dimLevel| && |rGsizeLevel| == |dimLevel| && |rGLevel| == |dimLevel|
    }

    /** The configuration defaults. */
    constructor ()
      ensures beta == 0.35 && coarseSize == 1000 && coarseningFactor == 4.0
      ensures iterPreSmooth == 2 && iterPostSmooth == 2
      ensures cycle == 2 && !scaling && aggregationOrdering == 1
      ensures !build && op == None
      ensures dimLevel == [] && gsizeLevel == [] && rGsizeLevel == [] && rGLevel == [] && freed == []
      ensures Valid()
    {
      beta := 0.35;
      coarseSize := 1000;
      coarseningFactor := 4.0;
      iterPreSmooth, iterPostSmooth := 2, 2;
      cycle := 2;
      scaling := false;
      aggregationOrdering := 1;
      build, op := false, None;
      dimLevel, gsizeLevel, rGsizeLevel, rGLevel := [], [], [], [];
      freed := [];
    }

    method SetBeta(beta: real)
      modifies this`beta
      ensures this.beta == beta
    {
      this.beta := beta;
    }

    method SetCoarseningFactor(factor: real)
      modifies this`coarseningFactor
      ensures coarseningFactor == factor
    {
      coarseningFactor := factor;
    }

    method SetOrdering(ordering: int)
      requires 0 <= ordering <= MaxOrdering
      modifies this`aggregationOrdering
      ensures aggregationOrdering == ordering
    {
      aggregationOrdering := ordering;
    }

    /**
     * `Aggregate_`: one level's aggregation and transfer operators. On
     * success exactly one entry is appended to each of the four stored
     * lists. None means `fuel` further passes did not reach the factor (the
     * program would go on looping); nothing is changed then.
     */
    method Aggregate(fine: Matrix, pm: Comm, c: Collaborators, fuel: nat) returns (r: Option<Aggregated>)
      requires Valid()
      modifies this`dimLevel, this`gsizeLevel, this`rGsizeLevel, this`rGLevel
      ensures Valid()
      ensures r == AggregateOutcome(c, fine, pm, beta, aggregationOrdering, coarseningFactor, fuel)
      ensures r.Some? ==> r.value.transfer == FromMap(r.value.agg.trans, fine.localM, r.value.agg.nc)
      ensures r.Some? ==> !RatioBelow(fine.m, r.value.coarse.op.m, coarseningFactor)
      ensures r.Some? ==> (dimLevel == old(dimLevel) + [r.value.agg.nc]
                        && gsizeLevel == old(gsizeLevel) + [r.value.agg.gsize]
                        && rGsizeLevel == old(rGsizeLevel) + [r.value.agg.rGsize]
                        && rGLevel == old(rGLevel) + [r.value.agg.rG])
      ensures r.None? ==> unchanged(this)
    {
      var trans := ZeroMap(fine.localM);
      var agg := c.initial(fine, beta, aggregationOrdering, trans);
      var coarse := c.coarsen(fine, pm, agg);
      var passes: nat := 0;
      ghost var start := PassState(agg, coarse, 0);
      while RatioBelow(fine.m, coarse.op.m, coarseningFactor)
        invariant passes <= fuel
        invariant FurtherPasses(c, fine, beta, aggregationOrdering, coarseningFactor, PassState(agg, coarse, passes), fuel - passes)
               == FurtherPasses(c, fine, beta, aggregationOrdering, coarseningFactor, start, fuel)
        decreases fuel - passes
      {
        if passes == fuel {
          return None;
        }
        agg := c.further(coarse.op, beta, aggregationOrdering, agg);
        coarse := c.coarsen(fine, coarse.pm, agg);
        passes := passes + 1;
      }
      var transfer := FromMap(agg.trans, fine.localM, agg.nc);
      dimLevel := dimLevel + [agg.nc];
      gsizeLevel := gsizeLevel + [agg.gsize];
      rGsizeLevel := rGsizeLevel + [agg.rGsize];
      rGLevel := rGLevel + [agg.rG];
      r := Some(Aggregated(transfer, coarse, agg, passes));
    }

    /** The aggregation data stored for the first `levels - 1` levels. */
    function Stored(): seq<Aggregation>
      reads this
      requires Valid() && 1 <= levels && levels - 1 <= |dimLevel| && levels - 1 <= |transLevel|
    {
      StoredAggregations(dimLevel, transLevel, gsizeLevel, rGLevel, rGsizeLevel, levels - 1)
    }

    /** The coarse operators and parallel managers a numeric rebuild produces, before format conversion. */
    function RebuildPlan(c: Collaborators): seq<Coarse>
      reads this
      requires Valid() && 1 <= levels && op.Some?
      requires levels - 1 <= |dimLevel| && levels - 1 <= |transLevel| && levels - 1 <= |pmLevel|
    {
      RebuiltLevels(c, op.value, pmLevel, Stored(), levels - 1)
    }

    /**
     * `ReBuildNumeric`: every level's operator rebuilt from the stored
     * aggregation data without aggregating again, every smoother and the
     * coarse solver reset onto their operators, and the levels converted to
     * the operator format unless it is CSR. The stored lists do not change.
     */
    method ReBuildNumeric(c: Collaborators)
      requires Valid()
      requires levels > 1 && build && op.Some?
      requires levels - 1 <= |dimLevel| && levels - 1 <= |transLevel|
      requires levels - 1 <= |opLevel| && levels - 1 <= |pmLevel| && levels - 1 <= |smootherLevel|
      requires solverCoarse.Some?
      modifies this`opLevel, this`pmLevel, this`smootherLevel, this`solverCoarse
      ensures |opLevel| == |old(opLevel)| && |pmLevel| == |old(pmLevel)| && |smootherLevel| == |old(smootherLevel)|
      ensures forall i :: 0 <= i < levels - 1 ==> opLevel[i] == InFormat(old(RebuildPlan(c))[i].op, opFormat)
      ensures forall i :: 0 <= i < levels - 1 ==> pmLevel[i] == old(RebuildPlan(c))[i].pm
      ensures forall i :: levels - 1 <= i < |opLevel| ==> opLevel[i] == old(opLevel[i])
      ensures forall i :: levels - 1 <= i < |pmLevel| ==> pmLevel[i] == old(pmLevel[i])
      ensures forall i :: 0 <= i < levels - 1 ==> smootherLevel[i] == ResetOnto(old(smootherLevel[i]), SmootherTarget(i))
      ensures forall i :: levels - 1 <= i < |smootherLevel| ==> smootherLevel[i] == old(smootherLevel[i])
      ensures solverCoarse == Some(ResetOnto(old(solverCoarse.value), LevelOperator(levels - 2)))
    {
      ghost var plan := RebuildPlan(c);
      RebuildOperators(c);
      ResetSmoothers();
      if opFormat != CSR {
        ConvertLevels();
      }
    }

    /** The first loop of `ReBuildNumeric`: each level's operator and parallel manager, coarsest last. */
    method RebuildOperators(c: Collaborators)
      requires Valid()
      requires levels > 1 && op.Some?
      requires levels - 1 <= |dimLevel| && levels - 1 <= |transLevel|
      requires levels - 1 <= |opLevel| && levels - 1 <= |pmLevel|
      modifies this`opLevel, this`pmLevel
      ensures |opLevel| == |old(opLevel)| && |pmLevel| == |old(pmLevel)|
      ensures forall i :: 0 <= i < levels - 1 ==> opLevel[i] == old(RebuildPlan(c))[i].op
      ensures forall i :: 0 <= i < levels - 1 ==> pmLevel[i] == old(RebuildPlan(c))[i].pm
      ensures forall i :: levels - 1 <= i < |opLevel| ==> opLevel[i] == old(opLevel[i])
      ensures forall i :: levels - 1 <= i < |pmLevel| ==> pmLevel[i] == old(pmLevel[i])
    {
      ghost var plan := RebuildPlan(c);
      ghost var stored := Stored();
      var n := levels - 1;
      var first := c.coarsen(op.value, pmLevel[0], Aggregation(dimLevel[0], transLevel[0], gsizeLevel[0], rGLevel[0], rGsizeLevel[0]));
      RebuiltLevelWiring(c, op.value, pmLevel, stored, n, 0);
      opLevel := opLevel[0 := first.op];
      pmLevel := pmLevel[0 := first.pm];
      for i := 1 to n
        invariant |opLevel| == |old(opLevel)| && |pmLevel| == |old(pmLevel)|
        invariant forall j :: 0 <= j < i ==> opLevel[j] == plan[j].op && pmLevel[j] == plan[j].pm
        invariant forall j :: i <= j < |opLevel| ==> opLevel[j] == old(opLevel[j])
        invariant forall j :: i <= j < |pmLevel| ==> pmLevel[j] == old(pmLevel[j])
      {
        var next := c.coarsen(opLevel[i - 1], pmLevel[i],
                              Aggregation(dimLevel[i], transLevel[i], gsizeLevel[i], rGLevel[i], rGsizeLevel[i]));
        RebuiltLevelWiring(c, op.value, old(pmLevel), stored, n, i);
        opLevel := opLevel[i := next.op];
        pmLevel := pmLevel[i := next.pm];
      }
    }

    /** The second loop of `ReBuildNumeric` and the coarse solver's reset. */
    method ResetSmoothers()
      requires levels > 1 && levels - 1 <= |smootherLevel| && solverCoarse.Some?
      modifies this`smootherLevel, this`solverCoarse
      ensures |smootherLevel| == |old(smootherLevel)|
      ensures forall i :: 0 <= i < levels - 1 ==> smootherLevel[i] == ResetOnto(old(smootherLevel[i]), SmootherTarget(i))
      ensures forall i :: levels - 1 <= i < |smootherLevel| ==> smootherLevel[i] == old(smootherLevel[i])
      ensures solverCoarse == Some(ResetOnto(old(solverCoarse.value), LevelOperator(levels - 2)))
    {
      smootherLevel := smootherLevel[0 := ResetOnto(smootherLevel[0], FineOperator)];
      for i := 1 to levels - 1
        modifies this`smootherLevel
        invariant |smootherLevel| == |old(smootherLevel)|
        invariant forall j :: 0 <= j < i ==> smootherLevel[j] == ResetOnto(old(smootherLevel[j]), SmootherTarget(j))
        invariant forall j :: i <= j < |smootherLevel| ==> smootherLevel[j] == old(smootherLevel[j])
      {
        smootherLevel := smootherLevel[i := ResetOnto(smootherLevel[i], LevelOperator(i - 1))];
      }
      solverCoarse := Some(ResetOnto(solverCoarse.value, LevelOperator(levels - 2)));
    }

    /** The last loop of `ReBuildNumeric`: every level converted to the operator's format. */
    method ConvertLevels()
      requires 1 <= levels && levels - 1 <= |opLevel|
      modifies this`opLevel
      ensures |opLevel| == |old(opLevel)|
      ensures forall i :: 0 <= i < levels - 1 ==> opLevel[i] == old(opLevel[i]).(format := opFormat)
      ensures forall i :: levels - 1 <= i < |opLevel| ==> opLevel[i] == old(opLevel[i])
    {
      for i := 0 to levels - 1
        invariant |opLevel| == |old(opLevel)|
        invariant forall j :: 0 <= j < i ==> opLevel[j] == old(opLevel[j]).(format := opFormat)
        invariant forall j :: i <= j < |opLevel| ==> opLevel[j] == old(opLevel[j])
      {
        opLevel := opLevel[i := opLevel[i].(format := opFormat)];
      }
    }

    /**
     * `ClearLocal`: on a built hierarchy, frees the ghost array of each of the
     * first `levels - 1` levels once and empties the four stored lists;
     * otherwise changes nothing.
     */
    method ClearLocal()
      requires Valid()
      requires build ==> levels - 1 <= |rGLevel|
      modifies this`dimLevel, this`gsizeLevel, this`rGsizeLevel, this`rGLevel, this`freed
      ensures Valid()
      ensures build ==> freed == old(freed) + old(rGLevel)[..if levels < 1 then 0 else levels - 1]
      ensures build ==> dimLevel == [] && gsizeLevel == [] && rGsizeLevel == [] && rGLevel == []
      ensures !build ==> unchanged(this)
    {
      if build {
        var i := 0;
        while i < levels - 1
          invariant 0 <= i && (1 <= levels ==> i <= levels - 1) && (levels < 1 ==> i == 0)
          invariant |rGLevel| == |old(rGLevel)|
          invariant freed == old(freed) + old(rGLevel)[..i]
          invariant forall j :: i <= j < |rGLevel| ==> rGLevel[j] == old(rGLevel[j])
        {
          freed := freed + [rGLevel[i]];
          rGLevel := rGLevel[i := NullArray];
          i := i + 1;
        }
        dimLevel, gsizeLevel, rGsizeLevel, rGLevel := [], [], [], [];
      }
    }
  }
}

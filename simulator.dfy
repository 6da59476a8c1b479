/**
 * The simulator's two command-line spec parsers and the workflow shapes they
 * produce: `createWorkflow` (with the validation of the `indep` and `levels`
 * generators and the level/dependency structure of a `levels` workflow) and
 * `createWMS`.  Random task durations are not part of this model: a workflow
 * here is its task names and its control dependencies.
 */
module Simulator {
  import opened Common
  import opened Text

  /** Why a spec string was refused (each is an `std::invalid_argument`). */
  datatype SpecError =
    | MissingToken                       // the C++ indexes past the token vector
    | InvalidWorkflowSpec                // wrong number of tokens for the kind
    | UnknownWorkflowType(kind: string)
    | InvalidSeed
    | InvalidNumTasks                    // `indep`
    | InvalidLevelNumTasks(level: nat)   // `levels`, names the offending level
    | InvalidMinTime
    | InvalidMaxTime
    | InvalidStaticSpec
    | InvalidZhangSpec
    | UnknownSchedulerType(kind: string)

  /** Number of tasks and bounds (seconds) of the durations of one level. */
  datatype LevelParams = LevelParams(numTasks: nat, minTime: nat, maxTime: nat)

  predicate ValidLevel(p: LevelParams)
  {
    1 <= p.numTasks <= ULONG_MAX && p.minTime <= p.maxTime <= ULONG_MAX
  }

  /** What a workflow specification asks for. */
  datatype WorkflowSpec =
    | IndepSpec(params: LevelParams)
    | LevelsSpec(levels: seq<LevelParams>)
    | DaxSpec(filename: string)

  /** Task names and control dependencies (parent, child) of a generated workflow. */
  datatype Workflow = Workflow(tasks: seq<string>, deps: set<(string, string)>)

  /** What `createWorkflow` hands back: a generated workflow, or a DAX file to import. */
  datatype CreatedWorkflow = Generated(workflow: Workflow) | FromDax(filename: string)

  /** The scheduler `createWMS` instantiates. */
  datatype WmsChoice =
    | StaticWms(algorithm: string)
    | ZhangWms(overlap: bool, plimit: bool)

  // ---------------------------------------------------------------------
  // Workflow specifications
  // ---------------------------------------------------------------------

  /**
   * The `levels` token-count test, `size == 2 || (size - 2) % 3`, with the
   * subtraction done on `size_t`, that is modulo 2^64.
   */
  predicate LevelsCountRejected(n: nat)
  {
    n == 2 || WrappingSub(n, 2) % 3 != 0
  }

  /**
   * `a - b` on `size_t`, for a vector size `a` (always below 2^64) and a
   * small constant `b`: a negative difference wraps to 2^64 + a - b.
   */
  function WrappingSub(a: nat, b: nat): nat
    requires b <= ULONG_MAX
  {
    if a >= b then a - b else a + (ULONG_MAX + 1) - b
  }

  /** It is subtraction modulo 2^64 on 64-bit operands. */
  lemma WrappingSubIsModular(a: nat, b: nat)
    requires a <= ULONG_MAX && b <= ULONG_MAX
    ensures WrappingSub(a, b) == (a - b) % (ULONG_MAX + 1)
    ensures WrappingSub(a, b) <= ULONG_MAX
  {
  }

  /**
   * Counts that pass are a lone `levels` token (1 - 2 wraps to 2^64 - 1,
   * which 3 divides) and 2 + 3k tokens for k >= 1.
   */
  lemma LevelsCountAccepted(n: nat)
    requires 1 <= n <= ULONG_MAX
    ensures !LevelsCountRejected(n) <==> n == 1 || (n >= 5 && n % 3 == 2)
  {
  }

  /** `sscanf(tok, "%u", &seed) == 1`; the seed only feeds the random durations. */
  predicate SeedParses(tok: string)
  {
    ScanULong(tok).Some?
  }

  /**
   * The checks both generators make on a task count and two duration
   * bounds, as scanned by `%lu`: at least one task, then a readable minimum,
   * then a readable maximum no smaller than the minimum.
   */
  function CheckLevel(n: Option<nat>, lo: Option<nat>, hi: Option<nat>, badCount: SpecError): (r: Result<LevelParams, SpecError>)
    requires n.Some? ==> n.value <= ULONG_MAX
    requires lo.Some? ==> lo.value <= ULONG_MAX
    requires hi.Some? ==> hi.value <= ULONG_MAX
    ensures r.Success? ==> ValidLevel(r.value)
    ensures r.Failure? ==> r.error in {badCount, InvalidMinTime, InvalidMaxTime}
  {
    if n.None? || n.value < 1 then Failure(badCount)
    else if lo.None? then Failure(InvalidMinTime)
    else if hi.None? || hi.value < lo.value then Failure(InvalidMaxTime)
    else Success(LevelParams(n.value, lo.value, hi.value))
  }

  /** The checks of the `indep` generator, in the order it makes them. */
  function ParseIndep(tokens: seq<string>): (r: Result<WorkflowSpec, SpecError>)
    requires |tokens| == 5
    ensures r.Success? ==> r.value.IndepSpec? && ValidLevel(r.value.params)
  {
    if !SeedParses(tokens[1]) then Failure(InvalidSeed)
    else
      match CheckLevel(ScanULong(tokens[2]), ScanULong(tokens[3]), ScanULong(tokens[4]), InvalidNumTasks)
      case Failure(e) => Failure(e)
      case Success(p) => Success(IndepSpec(p))
  }

  /** What `%lu` makes of each token. */
  function ScanAll(tokens: seq<string>): (scans: seq<Option<nat>>)
    ensures |scans| == |tokens|
    ensures forall i :: 0 <= i < |scans| ==> scans[i].Some? ==> scans[i].value <= ULONG_MAX
  {
    if tokens == [] then [] else ScanAll(tokens[..|tokens| - 1]) + [ScanULong(tokens[|tokens| - 1])]
  }

  lemma {:induction false} ScanAllIndex(tokens: seq<string>, i: nat)
    requires i < |tokens|
    ensures ScanAll(tokens)[i] == ScanULong(tokens[i])
  {
    if i < |tokens| - 1 {
      ScanAllIndex(tokens[..|tokens| - 1], i);
    }
  }

  /** The checks made for level `l` of a `levels` spec, from tokens 2+3l .. 4+3l. */
  function ParseLevel(scans: seq<Option<nat>>, l: nat): (r: Result<LevelParams, SpecError>)
    requires 3 * l + 4 < |scans|
    requires forall i :: 0 <= i < |scans| ==> scans[i].Some? ==> scans[i].value <= ULONG_MAX
  {
    CheckLevel(scans[3 * l + 2], scans[3 * l + 3], scans[3 * l + 4], InvalidLevelNumTasks(l))
  }

  /**
   * Levels 0 .. k-1 validated in order; the first invalid one stops the
   * loop with its error.
   */
  function ParseLevelsUpTo(scans: seq<Option<nat>>, k: nat): (r: Result<seq<LevelParams>, SpecError>)
    requires 3 * k + 1 < |scans|
    requires forall i :: 0 <= i < |scans| ==> scans[i].Some? ==> scans[i].value <= ULONG_MAX
    ensures r.Success? <==> forall i :: 0 <= i < k ==> ParseLevel(scans, i).Success?
    ensures r.Success? ==> |r.value| == k && forall i :: 0 <= i < k ==> ParseLevel(scans, i) == Success(r.value[i])
    ensures r.Failure? ==> exists i :: 0 <= i < k && ParseLevel(scans, i) == Failure(r.error)
  {
    if k == 0 then Success([])
    else
      match ParseLevelsUpTo(scans, k - 1)
      case Failure(e) => Failure(e)
      case Success(ps) =>
        match ParseLevel(scans, k - 1)
        case Failure(e) => Failure(e)
        case Success(p) => Success(ps + [p])
  }

  /** Once a level is invalid, the levels after it are never looked at. */
  lemma {:induction false} FirstFailureStops(scans: seq<Option<nat>>, j: nat, k: nat)
    requires j <= k && 3 * k + 1 < |scans|
    requires forall i :: 0 <= i < |scans| ==> scans[i].Some? ==> scans[i].value <= ULONG_MAX
    requires ParseLevelsUpTo(scans, j).Failure?
    ensures ParseLevelsUpTo(scans, k).Failure? && ParseLevelsUpTo(scans, k).error == ParseLevelsUpTo(scans, j).error
  {
    if j < k {
      FirstFailureStops(scans, j, k - 1);
    }
  }

  /** One iteration of that loop: the three `sscanf` calls for level `l` and their checks. */
  method ScanLevel(tokens: seq<string>, l: nat) returns (p: Result<LevelParams, SpecError>)
    requires 3 * l + 4 < |tokens|
    ensures p == ParseLevel(ScanAll(tokens), l)
  {
    var n := ScanULong(tokens[3 * l + 2]);
    var lo := ScanULong(tokens[3 * l + 3]);
    var hi := ScanULong(tokens[3 * l + 4]);
    p := CheckLevel(n, lo, hi, InvalidLevelNumTasks(l));
    ScanAllIndex(tokens, 3 * l + 2);
    ScanAllIndex(tokens, 3 * l + 3);
    ScanAllIndex(tokens, 3 * l + 4);
  }

  /** The loop of `createLevelsWorkflow` that reads and checks each level's triple. */
  method ValidateLevels(tokens: seq<string>, numLevels: nat) returns (r: Result<seq<LevelParams>, SpecError>)
    requires 3 * numLevels + 1 < |tokens|
    ensures r == ParseLevelsUpTo(ScanAll(tokens), numLevels)
  {
    ghost var scans := ScanAll(tokens);
    var levels: seq<LevelParams> := [];
    var l := 0;
    while l < numLevels
      invariant l <= numLevels
      invariant ParseLevelsUpTo(scans, l) == Success(levels)
    {
      var p := ScanLevel(tokens, l);
      if p.Failure? {
        FirstFailureStops(scans, l + 1, numLevels);
        return Failure(p.error);
      }
      levels := levels + [p.value];
      l := l + 1;
    }
    return Success(levels);
  }

  /** The `levels` generator: a seed, then `(size - 1) / 3` level triples. */
  function ParseLevels(tokens: seq<string>): (r: Result<WorkflowSpec, SpecError>)
    requires |tokens| >= 1 && !LevelsCountRejected(|tokens|)
    ensures r.Success? ==> r.value.LevelsSpec? && |r.value.levels| == (|tokens| - 1) / 3
  {
    if |tokens| < 2 then Failure(MissingToken)
    else if !SeedParses(tokens[1]) then Failure(InvalidSeed)
    else
      match ParseLevelsUpTo(ScanAll(tokens), (|tokens| - 1) / 3)
      case Failure(e) => Failure(e)
      case Success(ps) => Success(LevelsSpec(ps))
  }

  /** The dispatch of `createWorkflow` on the first `:`-separated token. */
  function ParseWorkflowTokens(tokens: seq<string>): (r: Result<WorkflowSpec, SpecError>)
  {
    if tokens == [] then Failure(MissingToken)
    else if tokens[0] == "indep" then
      if |tokens| != 5 then Failure(InvalidWorkflowSpec) else ParseIndep(tokens)
    else if tokens[0] == "levels" then
      if LevelsCountRejected(|tokens|) then Failure(InvalidWorkflowSpec) else ParseLevels(tokens)
    else if tokens[0] == "dax" then
      if |tokens| != 2 then Failure(InvalidWorkflowSpec) else Success(DaxSpec(tokens[1]))
    else Failure(UnknownWorkflowType(tokens[0]))
  }

  function ParseWorkflowSpec(spec: string): Result<WorkflowSpec, SpecError>
  {
    ParseWorkflowTokens(Split(spec, ':'))
  }

  /** Whatever is accepted is of the kind its first token names, with valid parameters. */
  lemma ParsedWorkflowIsValid(spec: string)
    requires ParseWorkflowSpec(spec).Success?
    ensures var tokens := Split(spec, ':');
      match ParseWorkflowSpec(spec)
      case Success(IndepSpec(p)) => tokens[0] == "indep" && |tokens| == 5 && ValidLevel(p)
      case Success(LevelsSpec(ps)) =>
        tokens[0] == "levels" && |tokens| == 2 + 3 * |ps| && |ps| >= 1
        && forall i :: 0 <= i < |ps| ==> ValidLevel(ps[i])
      case Success(DaxSpec(f)) => tokens == ["dax", f]
  {
    var tokens := Split(spec, ':');
    if tokens[0] == "levels" {
      var ps := ParseWorkflowSpec(spec).value.levels;
      forall i | 0 <= i < |ps| ensures ValidLevel(ps[i]) {
        assert ParseLevel(ScanAll(tokens), i) == Success(ps[i]);
      }
    }
  }

  /** A lone `levels` passes the count test and then reads a seed token that is not there. */
  lemma LoneLevelsToken()
    ensures ParseWorkflowSpec("levels") == Failure(MissingToken)
  {
    SplitJoin(["levels"], ':');
    assert Join(["levels"], ':') == "levels";
    assert !LevelsCountRejected(1);
  }

  /** The decimal tokens a `levels` spec lists for its levels, three per level. */
  function Triples(ps: seq<LevelParams>): (tokens: seq<string>)
    ensures |tokens| == 3 * |ps|
    ensures forall i :: 0 <= i < |ps| ==>
      tokens[3 * i] == Decimal(ps[i].numTasks)
      && tokens[3 * i + 1] == Decimal(ps[i].minTime)
      && tokens[3 * i + 2] == Decimal(ps[i].maxTime)
  {
    if ps == [] then []
    else
      var p := ps[|ps| - 1];
      Triples(ps[..|ps| - 1]) + [Decimal(p.numTasks), Decimal(p.minTime), Decimal(p.maxTime)]
  }

  /** The spec string that asks for the `levels` workflow `ps` with RNG seed `seed`. */
  function UnparseLevels(seed: nat, ps: seq<LevelParams>): string
  {
    Join(["levels", Decimal(seed)] + Triples(ps), ':')
  }

  function UnparseIndep(seed: nat, p: LevelParams): string
  {
    Join(["indep", Decimal(seed), Decimal(p.numTasks), Decimal(p.minTime), Decimal(p.maxTime)], ':')
  }

  lemma ScanDecimalToken(n: nat)
    requires n <= ULONG_MAX
    ensures ScanULong(Decimal(n)) == Some(n)
  {
    ScanDecimal(n, []);
    assert Decimal(n) + [] == Decimal(n);
  }

  /** Scans 2+3i .. 4+3i read back the parameters of level i. */
  predicate ScansList(scans: seq<Option<nat>>, ps: seq<LevelParams>)
  {
    |scans| == 2 + 3 * |ps|
    && forall i :: 0 <= i < |ps| ==>
      scans[3 * i + 2] == Some(ps[i].numTasks)
      && scans[3 * i + 3] == Some(ps[i].minTime)
      && scans[3 * i + 4] == Some(ps[i].maxTime)
  }

  lemma {:induction false} ParseLevelsOfScans(scans: seq<Option<nat>>, ps: seq<LevelParams>, k: nat)
    requires ScansList(scans, ps) && k <= |ps|
    requires forall i :: 0 <= i < |scans| ==> scans[i].Some? ==> scans[i].value <= ULONG_MAX
    requires forall i :: 0 <= i < |ps| ==> ValidLevel(ps[i])
    ensures ParseLevelsUpTo(scans, k) == Success(ps[..k])
  {
    if k > 0 {
      ParseLevelsOfScans(scans, ps, k - 1);
      assert ParseLevel(scans, k - 1) == Success(ps[k - 1]);
      assert ps[..k] == ps[..k - 1] + [ps[k - 1]];
    }
  }

  lemma ScanTriple(tokens: seq<string>, ps: seq<LevelParams>, i: nat)
    requires |tokens| == 2 + 3 * |ps| && tokens[2..] == Triples(ps)
    requires i < |ps| && ValidLevel(ps[i])
    ensures ScanULong(tokens[3 * i + 2]) == Some(ps[i].numTasks)
    ensures ScanULong(tokens[3 * i + 3]) == Some(ps[i].minTime)
    ensures ScanULong(tokens[3 * i + 4]) == Some(ps[i].maxTime)
  {
    var p := ps[i];
    assert tokens[3 * i + 2] == Triples(ps)[3 * i];
    assert tokens[3 * i + 3] == Triples(ps)[3 * i + 1];
    assert tokens[3 * i + 4] == Triples(ps)[3 * i + 2];
    ScanDecimalToken(p.numTasks);
    ScanDecimalToken(p.minTime);
    ScanDecimalToken(p.maxTime);
  }

  lemma ScansOfTriples(tokens: seq<string>, ps: seq<LevelParams>)
    requires |tokens| == 2 + 3 * |ps| && tokens[2..] == Triples(ps)
    requires forall i :: 0 <= i < |ps| ==> ValidLevel(ps[i])
    ensures ScansList(ScanAll(tokens), ps)
  {
    var scans := ScanAll(tokens);
    forall i | 0 <= i < |ps|
      ensures scans[3 * i + 2] == Some(ps[i].numTasks)
      ensures scans[3 * i + 3] == Some(ps[i].minTime)
      ensures scans[3 * i + 4] == Some(ps[i].maxTime)
    {
      ScanTriple(tokens, ps, i);
      ScanAllIndex(tokens, 3 * i + 2);
      ScanAllIndex(tokens, 3 * i + 3);
      ScanAllIndex(tokens, 3 * i + 4);
    }
  }

  lemma LevelsTokens(seed: nat, ps: seq<LevelParams>)
    requires |ps| >= 1
    ensures Split(UnparseLevels(seed, ps), ':') == ["levels", Decimal(seed)] + Triples(ps)
  {
    var tokens := ["levels", Decimal(seed)] + Triples(ps);
    forall i | 0 <= i < |tokens| ensures ':' !in tokens[i] {
      if i == 1 {
        DecimalExcludes(':', seed);
      } else if i >= 2 {
        var j := (i - 2) / 3;
        var p := ps[j];
        assert tokens[i] == Triples(ps)[i - 2];
        assert i - 2 == 3 * j || i - 2 == 3 * j + 1 || i - 2 == 3 * j + 2;
        DecimalExcludes(':', p.numTasks);
        DecimalExcludes(':', p.minTime);
        DecimalExcludes(':', p.maxTime);
      }
    }
    assert tokens[|tokens| - 1] == Decimal(ps[|ps| - 1].maxTime);
    SplitJoin(tokens, ':');
  }

  /** Every valid `levels` workflow can be written as a spec that reads back as itself. */
  lemma LevelsRoundTrip(seed: nat, ps: seq<LevelParams>)
    requires seed <= ULONG_MAX && |ps| >= 1
    requires forall i :: 0 <= i < |ps| ==> ValidLevel(ps[i])
    ensures ParseWorkflowSpec(UnparseLevels(seed, ps)) == Success(LevelsSpec(ps))
  {
    LevelsTokens(seed, ps);
    ParseLevelsTokens(seed, ps);
  }

  lemma ParseLevelsTokens(seed: nat, ps: seq<LevelParams>)
    requires seed <= ULONG_MAX && |ps| >= 1
    requires forall i :: 0 <= i < |ps| ==> ValidLevel(ps[i])
    ensures ParseWorkflowTokens(["levels", Decimal(seed)] + Triples(ps)) == Success(LevelsSpec(ps))
  {
    var tokens := ["levels", Decimal(seed)] + Triples(ps);
    assert SeedParses(tokens[1]) by {
      ScanDecimalToken(seed);
    }
    assert ParseLevelsUpTo(ScanAll(tokens), |ps|) == Success(ps) by {
      assert tokens[2..] == Triples(ps);
      ScansOfTriples(tokens, ps);
      ParseLevelsOfScans(ScanAll(tokens), ps, |ps|);
      assert ps[..|ps|] == ps;
    }
    DispatchLevels(tokens, ps);
  }

  lemma TripleArithmetic(m: nat)
    ensures (3 * m) % 3 == 0 && (3 * m + 1) / 3 == m
  {
  }

  lemma DispatchLevels(tokens: seq<string>, ps: seq<LevelParams>)
    requires |ps| >= 1 && |tokens| == 2 + 3 * |ps| && tokens[0] == "levels"
    requires SeedParses(tokens[1])
    requires ParseLevelsUpTo(ScanAll(tokens), |ps|) == Success(ps)
    ensures ParseWorkflowTokens(tokens) == Success(LevelsSpec(ps))
  {
    var m := |ps|;
    assert WrappingSub(|tokens|, 2) == 3 * m;
    TripleArithmetic(m);
    assert !LevelsCountRejected(|tokens|);
    assert ParseLevels(tokens) == Success(LevelsSpec(ps));
  }

  /** Every valid `indep` workflow can be written as a spec that reads back as itself. */
  lemma IndepRoundTrip(seed: nat, p: LevelParams)
    requires seed <= ULONG_MAX && ValidLevel(p)
    ensures ParseWorkflowSpec(UnparseIndep(seed, p)) == Success(IndepSpec(p))
  {
    var tokens := ["indep", Decimal(seed), Decimal(p.numTasks), Decimal(p.minTime), Decimal(p.maxTime)];
    DecimalExcludes(':', seed);
    DecimalExcludes(':', p.numTasks);
    DecimalExcludes(':', p.minTime);
    DecimalExcludes(':', p.maxTime);
    SplitJoin(tokens, ':');
    ScanDecimalToken(seed);
    ScanDecimalToken(p.numTasks);
    ScanDecimalToken(p.minTime);
    ScanDecimalToken(p.maxTime);
  }

  /** A `dax` spec is accepted exactly when it is `dax` and one more token. */
  lemma DaxSpecExact(spec: string, f: string)
    ensures ParseWorkflowSpec(spec) == Success(DaxSpec(f)) <==> Split(spec, ':') == ["dax", f]
  {
  }

  // ---------------------------------------------------------------------
  // Generated workflow shapes
  // ---------------------------------------------------------------------

  /** `"Task_" + std::to_string(i)`, the i-th task of an `indep` workflow. */
  function IndepName(i: nat): string
  {
    "Task_" + Decimal(i)
  }

  /** `"Task_l" + std::to_string(l) + "_" + std::to_string(t)`, task t of level l. */
  function TaskName(l: nat, t: nat): string
  {
    "Task_l" + Decimal(l) + "_" + Decimal(t)
  }

  lemma IndepNameInjective(i: nat, j: nat)
    ensures IndepName(i) == IndepName(j) <==> i == j
  {
    if IndepName(i) == IndepName(j) {
      assert Decimal(i) == IndepName(i)[5..];
      assert Decimal(j) == IndepName(j)[5..];
      DecimalInjective(i, j);
    }
  }

  /** Digit runs followed by `_` can only line up when they are the same run. */
  lemma DigitsBeforeUnderscore(x: string, u: string, y: string, v: string)
    requires AllDigits(x) && AllDigits(y)
    requires x + "_" + u == y + "_" + v
    ensures x == y && u == v
  {
    var s := x + "_" + u;
    assert s == x + ("_" + u) && s == y + ("_" + v);
    DigitRunOfDigits(x, "_" + u);
    DigitRunOfDigits(y, "_" + v);
    assert x == s[..|x|] == y;
    assert u == s[|x| + 1..] == v;
  }

  /** Two decimals joined by `_` determine both numbers. */
  lemma DecimalPairInjective(a: nat, b: nat, c: nat, d: nat)
    requires Decimal(a) + "_" + Decimal(b) == Decimal(c) + "_" + Decimal(d)
    ensures a == c && b == d
  {
    DigitsBeforeUnderscore(Decimal(a), Decimal(b), Decimal(c), Decimal(d));
    DecimalInjective(a, c);
    DecimalInjective(b, d);
  }

  lemma TaskNameInjective(l: nat, t: nat, l': nat, t': nat)
    ensures TaskName(l, t) == TaskName(l', t') <==> l == l' && t == t'
  {
    if TaskName(l, t) == TaskName(l', t') {
      assert TaskName(l, t)[6..] == Decimal(l) + "_" + Decimal(t);
      assert TaskName(l', t')[6..] == Decimal(l') + "_" + Decimal(t');
      DecimalPairInjective(l, t, l', t');
    }
  }

  /** The tasks of an `indep` workflow with n tasks, in creation order. */
  function IndepTasks(n: nat): (tasks: seq<string>)
    ensures |tasks| == n
  {
    if n == 0 then [] else IndepTasks(n - 1) + [IndepName(n - 1)]
  }

  /** An `indep` workflow holds exactly tasks `Task_0 .. Task_<n-1>`, each once. */
  lemma {:induction false} IndepTasksExact(n: nat)
    ensures forall i: nat :: IndepName(i) in IndepTasks(n) <==> i < n
    ensures forall i, j :: 0 <= i < j < n ==> IndepTasks(n)[i] != IndepTasks(n)[j]
    ensures forall i :: 0 <= i < n ==> IndepTasks(n)[i] == IndepName(i)
  {
    if n > 0 {
      IndepTasksExact(n - 1);
      var prev := IndepTasks(n - 1);
      forall i: nat ensures IndepName(i) in IndepTasks(n) <==> i < n {
        IndepNameInjective(i, n - 1);
      }
      forall i | 0 <= i < n - 1 ensures prev[i] != IndepName(n - 1) {
        IndepNameInjective(i, n - 1);
      }
    }
  }

  /** Tasks 0 .. n-1 of level l, in creation order. */
  function LevelTasks(l: nat, n: nat): (tasks: seq<string>)
    ensures |tasks| == n
  {
    if n == 0 then [] else LevelTasks(l, n - 1) + [TaskName(l, n - 1)]
  }

  /** The tasks of levels 0 .. k-1, level by level. */
  function TasksUpTo(counts: seq<nat>, k: nat): seq<string>
    requires k <= |counts|
  {
    if k == 0 then [] else TasksUpTo(counts, k - 1) + LevelTasks(k - 1, counts[k - 1])
  }

  /** Edges from parents 0 .. p-1 of level l-1 to task t of level l. */
  function ParentEdges(l: nat, t: nat, p: nat): set<(string, string)>
    requires l >= 1
  {
    if p == 0 then {} else ParentEdges(l, t, p - 1) + {(TaskName(l - 1, p - 1), TaskName(l, t))}
  }

  /** Edges into tasks 0 .. t-1 of level l from the whole of level l-1. */
  function LevelEdges(counts: seq<nat>, l: nat, t: nat): set<(string, string)>
    requires 1 <= l < |counts|
  {
    if t == 0 then {} else LevelEdges(counts, l, t - 1) + ParentEdges(l, t - 1, counts[l - 1])
  }

  /** The dependencies into levels 1 .. k-1. */
  function DepsUpTo(counts: seq<nat>, k: nat): set<(string, string)>
    requires k <= |counts|
  {
    if k <= 1 then {} else DepsUpTo(counts, k - 1) + LevelEdges(counts, k - 1, counts[k - 1])
  }

  /** The workflow `createLevelsWorkflow` builds for the given level sizes. */
  function LevelsWorkflow(counts: seq<nat>): Workflow
  {
    Workflow(TasksUpTo(counts, |counts|), DepsUpTo(counts, |counts|))
  }

  function IndepWorkflow(n: nat): Workflow
  {
    Workflow(IndepTasks(n), {})
  }

  lemma {:induction false} LevelTasksMembers(l: nat, n: nat, a: nat, q: nat)
    ensures TaskName(a, q) in LevelTasks(l, n) <==> a == l && q < n
  {
    if n > 0 {
      LevelTasksMembers(l, n - 1, a, q);
      TaskNameInjective(a, q, l, n - 1);
    }
  }

  lemma {:induction false} TasksUpToMembers(counts: seq<nat>, k: nat, a: nat, q: nat)
    requires k <= |counts|
    ensures TaskName(a, q) in TasksUpTo(counts, k) <==> a < k && q < counts[a]
  {
    if k > 0 {
      TasksUpToMembers(counts, k - 1, a, q);
      LevelTasksMembers(k - 1, counts[k - 1], a, q);
    }
  }

  /** A string of the form `Task_l<l>_<t>`. */
  ghost predicate IsTaskName(s: string)
  {
    exists l: nat, t: nat :: s == TaskName(l, t)
  }

  /** A dependency between two strings of that form. */
  ghost predicate IsEdgeOfTaskNames(e: (string, string))
  {
    IsTaskName(e.0) && IsTaskName(e.1)
  }

  lemma {:induction false} TasksUpToNamed(counts: seq<nat>, k: nat)
    requires k <= |counts|
    ensures forall s :: s in TasksUpTo(counts, k) ==> IsTaskName(s)
  {
    if k > 0 {
      TasksUpToNamed(counts, k - 1);
      forall s | s in LevelTasks(k - 1, counts[k - 1]) ensures IsTaskName(s) {
        var i :| 0 <= i < counts[k - 1] && LevelTasks(k - 1, counts[k - 1])[i] == s;
        LevelTasksIndex(k - 1, counts[k - 1], i);
      }
    }
  }

  lemma {:induction false} LevelTasksIndex(l: nat, n: nat, i: nat)
    requires i < n
    ensures LevelTasks(l, n)[i] == TaskName(l, i)
  {
    if i < n - 1 {
      LevelTasksIndex(l, n - 1, i);
    }
  }

  lemma {:induction false} TasksUpToDistinct(counts: seq<nat>, k: nat)
    requires k <= |counts|
    ensures forall i, j :: 0 <= i < j < |TasksUpTo(counts, k)| ==> TasksUpTo(counts, k)[i] != TasksUpTo(counts, k)[j]
  {
    if k > 0 {
      TasksUpToDistinct(counts, k - 1);
      var front := TasksUpTo(counts, k - 1);
      var level := LevelTasks(k - 1, counts[k - 1]);
      var all := TasksUpTo(counts, k);
      assert all == front + level;
      forall i, j | 0 <= i < j < |all| ensures all[i] != all[j] {
        if j >= |front| {
          LevelTasksIndex(k - 1, counts[k - 1], j - |front|);
          if i >= |front| {
            LevelTasksIndex(k - 1, counts[k - 1], i - |front|);
            TaskNameInjective(k - 1, i - |front|, k - 1, j - |front|);
          } else {
            assert front[i] in front;
            TasksUpToMembers(counts, k - 1, k - 1, j - |front|);
          }
        }
      }
    }
  }

  /**
   * A `levels` workflow holds, for each level l, exactly the tasks
   * `Task_l<l>_0 .. Task_l<l>_<num_tasks[l]-1>`, each once, and nothing else.
   */
  lemma LevelsTasksExact(counts: seq<nat>)
    ensures var tasks := LevelsWorkflow(counts).tasks;
      (forall l: nat, t: nat :: TaskName(l, t) in tasks <==> l < |counts| && t < counts[l])
      && (forall s :: s in tasks ==> IsTaskName(s))
      && (forall i, j :: 0 <= i < j < |tasks| ==> tasks[i] != tasks[j])
  {
    forall l: nat, t: nat ensures TaskName(l, t) in TasksUpTo(counts, |counts|) <==> l < |counts| && t < counts[l] {
      TasksUpToMembers(counts, |counts|, l, t);
    }
    TasksUpToNamed(counts, |counts|);
    TasksUpToDistinct(counts, |counts|);
  }

  lemma {:induction false} ParentEdgesMembers(l: nat, t: nat, p: nat, a: nat, q: nat, b: nat, s: nat)
    requires l >= 1
    ensures (TaskName(a, q), TaskName(b, s)) in ParentEdges(l, t, p) <==> a == l - 1 && q < p && b == l && s == t
  {
    if p > 0 {
      ParentEdgesMembers(l, t, p - 1, a, q, b, s);
      TaskNameInjective(a, q, l - 1, p - 1);
      TaskNameInjective(b, s, l, t);
    }
  }

  lemma {:induction false} LevelEdgesMembers(counts: seq<nat>, l: nat, t: nat, a: nat, q: nat, b: nat, s: nat)
    requires 1 <= l < |counts|
    ensures (TaskName(a, q), TaskName(b, s)) in LevelEdges(counts, l, t)
      <==> a == l - 1 && q < counts[l - 1] && b == l && s < t
  {
    if t > 0 {
      LevelEdgesMembers(counts, l, t - 1, a, q, b, s);
      ParentEdgesMembers(l, t - 1, counts[l - 1], a, q, b, s);
    }
  }

  lemma {:induction false} DepsUpToMembers(counts: seq<nat>, k: nat, a: nat, q: nat, b: nat, s: nat)
    requires k <= |counts|
    ensures (TaskName(a, q), TaskName(b, s)) in DepsUpTo(counts, k)
      <==> 1 <= b < k && a == b - 1 && q < counts[a] && s < counts[b]
  {
    if k > 1 {
      DepsUpToMembers(counts, k - 1, a, q, b, s);
      LevelEdgesMembers(counts, k - 1, counts[k - 1], a, q, b, s);
    }
  }

  lemma {:induction false} DepsUpToNamed(counts: seq<nat>, k: nat)
    requires k <= |counts|
    ensures forall e :: e in DepsUpTo(counts, k) ==> IsEdgeOfTaskNames(e)
  {
    if k > 1 {
      DepsUpToNamed(counts, k - 1);
      forall e | e in LevelEdges(counts, k - 1, counts[k - 1]) ensures IsEdgeOfTaskNames(e) {
        LevelEdgesNamed(counts, k - 1, counts[k - 1], e);
      }
    }
  }

  lemma {:induction false} LevelEdgesNamed(counts: seq<nat>, l: nat, t: nat, e: (string, string))
    requires 1 <= l < |counts| && e in LevelEdges(counts, l, t)
    ensures IsEdgeOfTaskNames(e)
  {
    if e in LevelEdges(counts, l, t - 1) {
      LevelEdgesNamed(counts, l, t - 1, e);
    } else {
      ParentEdgesNamed(l, t - 1, counts[l - 1], e);
    }
  }

  lemma {:induction false} ParentEdgesNamed(l: nat, t: nat, p: nat, e: (string, string))
    requires l >= 1 && e in ParentEdges(l, t, p)
    ensures IsEdgeOfTaskNames(e)
  {
    if e in ParentEdges(l, t, p - 1) {
      ParentEdgesNamed(l, t, p - 1, e);
    } else {
      assert e == (TaskName(l - 1, p - 1), TaskName(l, t));
    }
  }

  /**
   * Every task of level l >= 1 depends on every task of level l-1, and
   * there is no other dependency.
   */
  lemma LevelsDepsExact(counts: seq<nat>)
    ensures var deps := LevelsWorkflow(counts).deps;
      (forall a: nat, q: nat, b: nat, s: nat :: (TaskName(a, q), TaskName(b, s)) in deps
        <==> 1 <= b < |counts| && a == b - 1 && q < counts[a] && s < counts[b])
      && (forall e :: e in deps ==> IsEdgeOfTaskNames(e))
  {
    forall a: nat, q: nat, b: nat, s: nat
      ensures (TaskName(a, q), TaskName(b, s)) in DepsUpTo(counts, |counts|)
        <==> 1 <= b < |counts| && a == b - 1 && q < counts[a] && s < counts[b]
    {
      DepsUpToMembers(counts, |counts|, a, q, b, s);
    }
    DepsUpToNamed(counts, |counts|);
  }

  /** The task-creation loop of the `indep` generator. */
  method BuildIndepWorkflow(n: nat) returns (w: Workflow)
    ensures w == IndepWorkflow(n)
  {
    var tasks: seq<string> := [];
    var i := 0;
    while i < n
      invariant i <= n
      invariant tasks == IndepTasks(i)
    {
      tasks := tasks + [IndepName(i)];
      i := i + 1;
    }
    w := Workflow(tasks, {});
  }

  /** The task-creation and dependency loops of `createLevelsWorkflow`. */
  method BuildLevelsWorkflow(counts: seq<nat>) returns (w: Workflow)
    ensures w == LevelsWorkflow(counts)
  {
    var tasks: seq<string> := [];
    var l := 0;
    while l < |counts|
      invariant l <= |counts|
      invariant tasks == TasksUpTo(counts, l)
    {
      var t := 0;
      while t < counts[l]
        invariant t <= counts[l]
        invariant tasks == TasksUpTo(counts, l) + LevelTasks(l, t)
      {
        tasks := tasks + [TaskName(l, t)];
        t := t + 1;
      }
      l := l + 1;
    }
    var deps: set<(string, string)> := {};
    l := 1;
    while l < |counts|
      invariant 1 <= l
      invariant l <= |counts| || |counts| == 0
      invariant deps == DepsUpTo(counts, if |counts| == 0 then 0 else l)
    {
      var t := 0;
      while t < counts[l]
        invariant t <= counts[l]
        invariant deps == DepsUpTo(counts, l) + LevelEdges(counts, l, t)
      {
        var p := 0;
        while p < counts[l - 1]
          invariant p <= counts[l - 1]
          invariant deps == DepsUpTo(counts, l) + LevelEdges(counts, l, t) + ParentEdges(l, t, p)
        {
          deps := deps + {(TaskName(l - 1, p), TaskName(l, t))};
          p := p + 1;
        }
        t := t + 1;
      }
      l := l + 1;
    }
    w := Workflow(tasks, deps);
  }

  function TaskCounts(ps: seq<LevelParams>): (counts: seq<nat>)
    ensures |counts| == |ps| && forall i :: 0 <= i < |ps| ==> counts[i] == ps[i].numTasks
  {
    if ps == [] then [] else TaskCounts(ps[..|ps| - 1]) + [ps[|ps| - 1].numTasks]
  }

  /** The workflow an accepted specification yields. */
  function Realize(spec: WorkflowSpec): CreatedWorkflow
  {
    match spec
    case IndepSpec(p) => Generated(IndepWorkflow(p.numTasks))
    case LevelsSpec(ps) => Generated(LevelsWorkflow(TaskCounts(ps)))
    case DaxSpec(f) => FromDax(f)
  }

  /**
   * `createWorkflow`: tokenise on `:`, dispatch and validate, then run the
   * generator's loops.
   */
  method CreateWorkflow(spec: string) returns (r: Result<CreatedWorkflow, SpecError>)
    ensures ParseWorkflowSpec(spec).Failure? ==> r == Failure(ParseWorkflowSpec(spec).error)
    ensures ParseWorkflowSpec(spec).Success? ==> r == Success(Realize(ParseWorkflowSpec(spec).value))
  {
    var tokens := Tokenize(spec, ':');
    var parsed := ParseWorkflowTokens(tokens);
    if parsed.Failure? {
      return Failure(parsed.error);
    }
    match parsed.value
    case IndepSpec(p) =>
      var w := BuildIndepWorkflow(p.numTasks);
      r := Success(Generated(w));
    case LevelsSpec(ps) =>
      var w := BuildLevelsWorkflow(TaskCounts(ps));
      r := Success(Generated(w));
    case DaxSpec(f) =>
      r := Success(FromDax(f));
  }

  // ---------------------------------------------------------------------
  // Scheduler specifications
  // ---------------------------------------------------------------------

  function OverlapWord(overlap: bool): string
  {
    if overlap then "overlap" else "nooverlap"
  }

  function PlimitWord(plimit: bool): string
  {
    if plimit then "plimit" else "pnolimit"
  }

  /** `createWMS` on the `:`-separated tokens of the scheduler spec. */
  function ParseWmsTokens(tokens: seq<string>): Result<WmsChoice, SpecError>
  {
    if tokens == [] then Failure(MissingToken)
    else if tokens[0] == "static" then
      if |tokens| != 2 then Failure(InvalidStaticSpec) else Success(StaticWms(tokens[1]))
    else if tokens[0] == "zhang" then
      if |tokens| != 3 then Failure(InvalidZhangSpec)
      else if tokens[1] != "overlap" && tokens[1] != "nooverlap" then Failure(InvalidZhangSpec)
      else if tokens[2] != "plimit" && tokens[2] != "pnolimit" then Failure(InvalidZhangSpec)
      else Success(ZhangWms(tokens[1] == "overlap", tokens[2] == "plimit"))
    else Failure(UnknownSchedulerType(tokens[0]))
  }

  function CreateWms(spec: string): Result<WmsChoice, SpecError>
  {
    ParseWmsTokens(Split(spec, ':'))
  }

  /** A Zhang scheduler is chosen exactly by `zhang:<overlap word>:<plimit word>`. */
  lemma ZhangSpecExact(spec: string, overlap: bool, plimit: bool)
    ensures CreateWms(spec) == Success(ZhangWms(overlap, plimit))
      <==> Split(spec, ':') == ["zhang", OverlapWord(overlap), PlimitWord(plimit)]
  {
  }

  /** A static scheduler is chosen exactly by `static:<algorithm>`. */
  lemma StaticSpecExact(spec: string, algorithm: string)
    ensures CreateWms(spec) == Success(StaticWms(algorithm)) <==> Split(spec, ':') == ["static", algorithm]
  {
  }

  /** The spec string that selects a scheduler. */
  function UnparseWms(c: WmsChoice): string
  {
    match c
    case StaticWms(a) => "static:" + a
    case ZhangWms(o, p) => "zhang:" + OverlapWord(o) + ":" + PlimitWord(p)
  }

  lemma StaticSpecSplits(a: string)
    requires a != [] && ':' !in a
    ensures Split("static:" + a, ':') == ["static", a]
  {
    SplitJoin(["static", a], ':');
    assert Join(["static", a], ':') == "static:" + a;
  }

  lemma ZhangSpecSplits(o: bool, p: bool)
    ensures Split("zhang:" + OverlapWord(o) + ":" + PlimitWord(p), ':') == ["zhang", OverlapWord(o), PlimitWord(p)]
  {
    var tokens := ["zhang", OverlapWord(o), PlimitWord(p)];
    assert tokens[1..] == [OverlapWord(o), PlimitWord(p)];
    assert tokens[1..][1..] == [PlimitWord(p)];
    assert Join([PlimitWord(p)], ':') == PlimitWord(p);
    assert Join(tokens[1..], ':') == OverlapWord(o) + ":" + PlimitWord(p);
    assert Join(tokens, ':') == "zhang" + ":" + (OverlapWord(o) + ":" + PlimitWord(p));
    assert Join(tokens, ':') == "zhang:" + OverlapWord(o) + ":" + PlimitWord(p);
    SplitJoin(tokens, ':');
  }

  /** Every scheduler choice whose algorithm name is a single non-empty token reads back as itself. */
  lemma WmsRoundTrip(c: WmsChoice)
    requires c.StaticWms? ==> c.algorithm != [] && ':' !in c.algorithm
    ensures CreateWms(UnparseWms(c)) == Success(c)
  {
    match c
    case StaticWms(a) =>
      StaticSpecSplits(a);
      StaticSpecExact(UnparseWms(c), a);
    case ZhangWms(o, p) =>
      ZhangSpecSplits(o, p);
      ZhangSpecExact(UnparseWms(c), o, p);
  }
}

/**
 * The level-by-level placeholder controller (`LevelByLevelWMS`): pilot jobs
 * are requested one workflow level at a time, each level's clustered jobs
 * become placeholder jobs that move pending -> running -> completed, an
 * expired pilot with unfinished tasks is replaced by a smaller one, and a
 * level is dropped once nothing of it is pending or running.
 *
 * Placeholder objects live in an arena (`map<PhId, Placeholder>`) whose keys
 * stand for their addresses and for the handles of their pilot jobs; each
 * `OngoingLevel` holds the ids of its placeholders. Job-manager requests are
 * appended to `jobLog`.
 */
module LevelByLevel {
  import opened Common
  import opened Text

  type PhId = nat

  /** A clustered job: the tasks it groups and the number of nodes it asks for. */
  datatype ClusteredJob = ClusteredJob(tasks: seq<TaskId>, numNodes: nat)

  /**
   * A placeholder job: a clustered job waiting for, or running in, its own
   * pilot job. Each placeholder is created together with its pilot and no
   * two share one, so the pilot's handle is the placeholder's arena id. The
   * pilot is created with `job.numNodes` hosts of one core each.
   */
  datatype Placeholder = Placeholder(job: ClusteredJob, numCompletedTasks: nat, startLevel: nat, endLevel: nat)

  datatype OngoingLevel = OngoingLevel(levelNumber: nat, pending: set<PhId>, running: set<PhId>, completed: set<PhId>)

  datatype LblError =
    | MissingClusteringToken   // `tokens[0]` of an empty spec
    | InvalidClusteringSpec    // runtime_error "Invalid clustering spec"
    | InvalidHcSpec            // invalid_argument "Invalid static:hc specification"
    | NoPendingPlaceholder     // a started pilot that no pending placeholder owns
    | NoRunningPlaceholder     // an expired pilot that no running placeholder owns
    | NoPlaceholderForTask     // a completed task that no running placeholder holds

  datatype Outcome = Done | Failed(error: LblError)

  /** Where a placeholder sits: the level it belongs to and its arena id. */
  datatype Location = Location(level: nat, id: PhId)

  // ---------------------------------------------------------------------
  // The clustering spec `hc-<tasks per cluster>-<nodes per cluster>`
  // ---------------------------------------------------------------------

  /** The spec check of createPlaceHolderJobsForLevel: both numbers are read with `%lu` and must be at least 1. */
  function ParseHcSpec(spec: string): (r: Result<(nat, nat), LblError>)
    ensures r.Success? ==> 1 <= r.value.0 <= ULONG_MAX && 1 <= r.value.1 <= ULONG_MAX
  {
    var tokens := Split(spec, '-');
    if tokens == [] then Failure(MissingClusteringToken)
    else if tokens[0] != "hc" then Failure(InvalidClusteringSpec)
    else if |tokens| != 3 then Failure(InvalidClusteringSpec)
    else
      var perCluster := ScanULong(tokens[1]);
      var nodes := ScanULong(tokens[2]);
      if perCluster.None? || perCluster.value < 1 || nodes.None? || nodes.value < 1 then Failure(InvalidHcSpec)
      else Success((perCluster.value, nodes.value))
  }

  /** A spec is accepted exactly when it is `hc` and two `%lu` numbers that are both at least 1. */
  lemma HcSpecExact(spec: string, perCluster: nat, nodes: nat)
    ensures ParseHcSpec(spec) == Success((perCluster, nodes)) <==>
      var tokens := Split(spec, '-');
      |tokens| == 3 && tokens[0] == "hc" && perCluster >= 1 && nodes >= 1
      && ScanULong(tokens[1]) == Some(perCluster) && ScanULong(tokens[2]) == Some(nodes)
  {
  }

  /** Anything but `hc` in front is refused, whatever follows. */
  lemma OnlyHcIsKnown(spec: string)
    requires Split(spec, '-') != [] && Split(spec, '-')[0] != "hc"
    ensures ParseHcSpec(spec) == Failure(InvalidClusteringSpec)
  {
  }

  function HcSpec(perCluster: nat, nodes: nat): string
  {
    "hc-" + Decimal(perCluster) + "-" + Decimal(nodes)
  }

  /** Every pair of positive `unsigned long` values written as a spec reads back as itself. */
  lemma HcSpecRoundTrip(perCluster: nat, nodes: nat)
    requires 1 <= perCluster <= ULONG_MAX && 1 <= nodes <= ULONG_MAX
    ensures ParseHcSpec(HcSpec(perCluster, nodes)) == Success((perCluster, nodes))
  {
    var tokens := ["hc", Decimal(perCluster), Decimal(nodes)];
    DecimalExcludes('-', perCluster);
    DecimalExcludes('-', nodes);
    assert NoDelimiter(tokens, '-');
    assert tokens[1..] == [Decimal(perCluster), Decimal(nodes)];
    assert tokens[1..][1..] == [Decimal(nodes)];
    assert Join([Decimal(nodes)], '-') == Decimal(nodes);
    assert Join(tokens, '-') == HcSpec(perCluster, nodes);
    SplitJoin(tokens, '-');
    ScanDecimal(perCluster, []);
    ScanDecimal(nodes, []);
    assert Decimal(perCluster) + [] == Decimal(perCluster);
    assert Decimal(nodes) + [] == Decimal(nodes);
  }

  /**
   * createPlaceHolderJobsForLevel: the clustered jobs that become the level's
   * placeholders. The clustering itself is a parameter; it receives the two
   * numbers and the level (its first and last level are the same).
   */
  function PlaceholderJobsForLevel(spec: string, level: nat, createHCJobs: (nat, nat, nat) -> seq<ClusteredJob>)
    : (r: Result<seq<ClusteredJob>, LblError>)
    ensures r.Failure? <==> ParseHcSpec(spec).Failure?
    ensures r.Failure? ==> r.error == ParseHcSpec(spec).error
  {
    match ParseHcSpec(spec)
    case Failure(e) => Failure(e)
    case Success(p) => Success(createHCJobs(p.0, p.1, level))
  }

  // ---------------------------------------------------------------------
  // Which level may be submitted next
  // ---------------------------------------------------------------------

  /**
   * The loop over the ongoing levels with the `ULONG_MAX` sentinel, then the
   * unsigned increment; the levels are given by their numbers.
   */
  method LevelToSubmit(keys: set<nat>) returns (l: nat)
    requires forall k :: k in keys ==> k < ULONG_MAX
    ensures l == NextLevel(keys)
  {
    var level: nat := ULONG_MAX;
    var todo := keys;
    ghost var seen: set<nat> := {};
    while todo != {}
      invariant seen + todo == keys && seen !! todo
      invariant level == if seen == {} then ULONG_MAX else MaxOf(seen)
    {
      var n :| n in todo;
      if level == ULONG_MAX || level < n {
        level := n;
      }
      MaxOfAdd(seen, n);
      seen := seen + {n};
      todo := todo - {n};
    }
    l := if level == ULONG_MAX then 0 else level + 1;
  }

  /**
   * The level computed at the top of submitPilotJobsForNextLevel: one more
   * than the largest ongoing level, in `unsigned long` arithmetic, so 0 when
   * no level is ongoing.
   */
  ghost function NextLevel(keys: set<nat>): (l: nat)
    ensures keys == {} ==> l == 0
    ensures l > 0 ==> l - 1 in keys && forall k :: k in keys ==> k < l
    ensures (forall k :: k in keys ==> k < ULONG_MAX) ==> (l == 0 <==> keys == {})
  {
    if keys == {} then 0
    else
      var m := MaxOf(keys);
      if m == ULONG_MAX then 0 else m + 1
  }

  datatype Admission = Hold | Admit(level: nat)

  /** The gate of submitPilotJobsForNextLevel. */
  ghost function SubmissionGate(levels: map<nat, OngoingLevel>, overlap: bool, numLevels: nat): (g: Admission)
    ensures |levels| >= 2 ==> g == Hold
    ensures !overlap && levels != map[] ==> g == Hold
    ensures g.Admit? ==> g.level == NextLevel(levels.Keys) && g.level < numLevels
  {
    if |levels| >= 2 then Hold
    else if !overlap && levels != map[] then Hold
    else
      var l := NextLevel(levels.Keys);
      if l >= numLevels then Hold
      else if l > 0 && levels[l - 1].pending != {} then Hold
      else Admit(l)
  }

  /**
   * Levels are submitted in order: an admitted level is above every ongoing
   * one, follows the previous level directly and only once every
   * placeholder of that level has started.
   */
  lemma {:induction false} AdmittedLevelFollowsStartedLevel(levels: map<nat, OngoingLevel>, overlap: bool, numLevels: nat)
    requires forall k :: k in levels ==> k < ULONG_MAX
    requires SubmissionGate(levels, overlap, numLevels).Admit?
    ensures var l := SubmissionGate(levels, overlap, numLevels).level;
      l !in levels && (forall k :: k in levels ==> k < l)
      && (l > 0 ==> l - 1 in levels && levels[l - 1].pending == {})
  {
    var l := SubmissionGate(levels, overlap, numLevels).level;
    assert l == NextLevel(levels.Keys);
    if l > 0 {
      assert l - 1 in levels;
    }
  }

  /** A level still waiting for a pilot to start holds back the next level. */
  lemma {:induction false} PendingLevelBlocksNext(levels: map<nat, OngoingLevel>, overlap: bool, numLevels: nat, k: nat)
    requires forall j :: j in levels ==> j < ULONG_MAX
    requires k in levels && levels[k].pending != {}
    ensures SubmissionGate(levels, overlap, numLevels) != Admit(k + 1)
  {
    if SubmissionGate(levels, overlap, numLevels) == Admit(k + 1) {
      AdmittedLevelFollowsStartedLevel(levels, overlap, numLevels);
    }
  }

  /**
   * Once every ongoing level has finished and been dropped, the gate starts
   * again from level 0, since the computation only looks at ongoing levels.
   */
  lemma NoOngoingLevelRestartsAtZero(overlap: bool, numLevels: nat)
    requires numLevels > 0
    ensures SubmissionGate(map[], overlap, numLevels) == Admit(0)
  {
  }

  /** The checks at the top of submitPilotJobsForNextLevel, in their order. */
  method Gate(levels: map<nat, OngoingLevel>, overlap: bool, numLevels: nat) returns (g: Admission)
    requires forall k :: k in levels ==> k < ULONG_MAX
    ensures g == SubmissionGate(levels, overlap, numLevels)
  {
    if |levels| >= 2 {
      return Hold;
    }
    if !overlap && levels != map[] {
      return Hold;
    }
    var l := LevelToSubmit(levels.Keys);
    if l >= numLevels {
      return Hold;
    }
    if l > 0 && levels[l - 1].pending != {} {
      return Hold;
    }
    return Admit(l);
  }

  // ---------------------------------------------------------------------
  // Transitions of one ongoing level
  // ---------------------------------------------------------------------

  /** A pending placeholder whose pilot started. */
  function Promote(ol: OngoingLevel, id: PhId): (r: OngoingLevel)
    requires id in ol.pending
    ensures r.levelNumber == ol.levelNumber && r.completed == ol.completed
    ensures id !in r.pending && id in r.running
    ensures r.pending + r.running == ol.pending + ol.running
  {
    ol.(pending := ol.pending - {id}, running := ol.running + {id})
  }

  /** A running placeholder whose tasks have all completed. */
  function Retire(ol: OngoingLevel, id: PhId): (r: OngoingLevel)
    requires id in ol.running
    ensures r.levelNumber == ol.levelNumber && r.pending == ol.pending
    ensures id !in r.running && id in r.completed
    ensures r.running + r.completed == ol.running + ol.completed
  {
    ol.(running := ol.running - {id}, completed := ol.completed + {id})
  }

  /** An expired running placeholder and the replacement submitted for it. */
  function Replace(ol: OngoingLevel, id: PhId, newId: PhId): (r: OngoingLevel)
    requires id in ol.running && id !in ol.pending && newId !in ol.pending + ol.running + ol.completed
    ensures r.levelNumber == ol.levelNumber && r.completed == ol.completed
    ensures r.pending + r.running == (ol.pending + ol.running - {id}) + {newId}
    ensures newId in r.pending && id !in r.running + r.pending
  {
    ol.(running := ol.running - {id}, pending := ol.pending + {newId})
  }

  /** A level is dropped exactly when it has neither pending nor running placeholders; no other level changes. */
  function Settle(levels: map<nat, OngoingLevel>, k: nat): (r: map<nat, OngoingLevel>)
    requires k in levels
    ensures k in r <==> levels[k].pending != {} || levels[k].running != {}
    ensures k in r ==> r[k] == levels[k]
    ensures forall j :: j != k ==> (j in r <==> j in levels)
    ensures forall j :: j != k && j in r ==> r[j] == levels[j]
  {
    if levels[k].pending == {} && levels[k].running == {} then levels - {k} else levels
  }

  /** The clustered job of the replacement for an expired placeholder. */
  function RestartJob(job: ClusteredJob, state: TaskId -> TaskState): (r: ClusteredJob)
    ensures forall t :: t in r.tasks <==> t in job.tasks && state(t) != Completed
    ensures r.numNodes <= job.numNodes && r.numNodes <= |r.tasks|
    ensures r.numNodes == job.numNodes || r.numNodes == |r.tasks|
  {
    var rest := Incomplete(job.tasks, state);
    ClusteredJob(rest, Min(job.numNodes, |rest|))
  }

  /** The placeholder after one more of its tasks completed. */
  function Counted(ph: Placeholder): (r: Placeholder)
    ensures r.numCompletedTasks == ph.numCompletedTasks + 1
    ensures r.(numCompletedTasks := ph.numCompletedTasks) == ph
  {
    ph.(numCompletedTasks := ph.numCompletedTasks + 1)
  }

  predicate AllDone(ph: Placeholder)
  {
    ph.numCompletedTasks == |ph.job.tasks|
  }

  /** The level after one of its running placeholders counted a completion. */
  function AfterCompletion(ol: OngoingLevel, id: PhId, counted: Placeholder): OngoingLevel
    requires id in ol.running
  {
    if AllDone(counted) then Retire(ol, id) else ol
  }

  // ---------------------------------------------------------------------
  // Consistency of the controller's bookkeeping
  // ---------------------------------------------------------------------

  predicate Placed(ph: Placeholder, k: nat)
  {
    ph.startLevel == k && ph.endLevel == k
  }

  /** A running placeholder has not yet counted all its tasks (unless it has none). */
  predicate RunningCount(ph: Placeholder)
  {
    ph.numCompletedTasks < |ph.job.tasks| || ph.numCompletedTasks == 0 == |ph.job.tasks|
  }

  function Members(ol: OngoingLevel): set<PhId>
  {
    ol.pending + ol.running + ol.completed
  }

  /**
   * Level `k` is keyed by its own number, its three sets are disjoint, each
   * member is a placeholder for level k, pending ones have counted nothing,
   * running ones are not done and completed ones have counted every task.
   */
  ghost predicate WellFormedLevel(ol: OngoingLevel, k: nat, phs: map<PhId, Placeholder>)
  {
    && ol.levelNumber == k
    && ol.pending !! ol.running && ol.pending !! ol.completed && ol.running !! ol.completed
    && (forall id {:trigger id in ol.pending} :: id in ol.pending ==> id in phs && Placed(phs[id], k) && phs[id].numCompletedTasks == 0)
    && (forall id {:trigger id in ol.running} :: id in ol.running ==> id in phs && Placed(phs[id], k) && RunningCount(phs[id]))
    && (forall id {:trigger id in ol.completed} :: id in ol.completed ==> id in phs && Placed(phs[id], k) && AllDone(phs[id]))
  }

  /**
   * Every ongoing level is well formed and below `ULONG_MAX`, and every
   * arena id (hence every pilot handle) is below the next fresh one.
   */
  ghost predicate Consistent(levels: map<nat, OngoingLevel>, phs: map<PhId, Placeholder>, nextId: PhId)
  {
    && (forall k :: k in levels ==> k < ULONG_MAX)
    && (forall k {:trigger k in levels} :: k in levels ==> WellFormedLevel(levels[k], k, phs))
    && (forall id :: id in phs ==> id < nextId)
  }

  /** Consistent bookkeeping; at most two levels are ongoing, and at most one without overlap. */
  ghost predicate Bookkeeping(levels: map<nat, OngoingLevel>, phs: map<PhId, Placeholder>, nextId: PhId, overlap: bool)
  {
    && Consistent(levels, phs, nextId)
    && |levels| <= 2
    && (!overlap ==> |levels| <= 1)
  }

  /** A placeholder belongs to one level only, since it records the level it was made for. */
  lemma SeparateLevels(levels: map<nat, OngoingLevel>, phs: map<PhId, Placeholder>, nextId: PhId, k1: nat, k2: nat, id: PhId)
    requires Consistent(levels, phs, nextId)
    requires k1 in levels && k2 in levels && id in Members(levels[k1]) && id in Members(levels[k2])
    ensures k1 == k2
  {
    assert WellFormedLevel(levels[k1], k1, phs) && WellFormedLevel(levels[k2], k2, phs);
  }

  lemma WellFormedLevelFrame(ol: OngoingLevel, k: nat, phs: map<PhId, Placeholder>, phs2: map<PhId, Placeholder>)
    requires WellFormedLevel(ol, k, phs)
    requires forall id :: id in Members(ol) ==> id in phs2 && phs2[id] == phs[id]
    ensures WellFormedLevel(ol, k, phs2)
  {
  }

  lemma RunningOwned(levels: map<nat, OngoingLevel>, phs: map<PhId, Placeholder>, nextId: PhId)
    requires Consistent(levels, phs, nextId)
    ensures forall k :: k in levels ==> levels[k].running <= phs.Keys
  {
    forall k | k in levels ensures levels[k].running <= phs.Keys {
      assert WellFormedLevel(levels[k], k, phs);
    }
  }

  /** The arena ids `first .. first + n - 1`. */
  function IdRange(first: PhId, n: nat): (r: set<PhId>)
    ensures forall id :: id in r <==> first <= id < first + n
  {
    if n == 0 then {} else IdRange(first, n - 1) + {first + n - 1}
  }

  /** The placeholders created for the clustered jobs of a newly submitted level, numbered from `firstId`. */
  function NewPlaceholders(jobs: seq<ClusteredJob>, firstId: PhId, level: nat): (r: map<PhId, Placeholder>)
    ensures r.Keys == IdRange(firstId, |jobs|)
    ensures forall i :: 0 <= i < |jobs| ==> r[firstId + i] == Placeholder(jobs[i], 0, level, level)
  {
    if jobs == [] then map[]
    else
      var n := |jobs| - 1;
      NewPlaceholders(jobs[..n], firstId, level)[firstId + n := Placeholder(jobs[n], 0, level, level)]
  }

  /** The pilot submissions of a new level: the i-th job's pilot gets its nodes, one core and its walltime. */
  function PilotSubmissions(jobs: seq<ClusteredJob>, firstId: PhId, walltime: ClusteredJob -> nat): (effs: seq<Effect>)
    ensures |effs| == |jobs|
    ensures forall i :: 0 <= i < |jobs| ==>
      effs[i] == SubmitPilot(firstId + i, jobs[i].numNodes, 1, WalltimeMinutes(walltime(jobs[i])))
  {
    if jobs == [] then []
    else
      var n := |jobs| - 1;
      PilotSubmissions(jobs[..n], firstId, walltime)
        + [SubmitPilot(firstId + n, jobs[n].numNodes, 1, WalltimeMinutes(walltime(jobs[n])))]
  }

  /** Opening a new level with fresh placeholders keeps the bookkeeping consistent. */
  lemma {:induction false} AdmitKeepsConsistent(levels: map<nat, OngoingLevel>, phs: map<PhId, Placeholder>,
                                                 nextId: PhId, l: nat, jobs: seq<ClusteredJob>)
    requires Consistent(levels, phs, nextId)
    requires l !in levels && l < ULONG_MAX
    ensures Consistent(levels[l := OngoingLevel(l, IdRange(nextId, |jobs|), {}, {})],
                       phs + NewPlaceholders(jobs, nextId, l), nextId + |jobs|)
  {
    var created := NewPlaceholders(jobs, nextId, l);
    var phs2 := phs + created;
    var levels2 := levels[l := OngoingLevel(l, IdRange(nextId, |jobs|), {}, {})];
    forall k | k in levels2 ensures WellFormedLevel(levels2[k], k, phs2) {
      if k != l {
        assert WellFormedLevel(levels[k], k, phs);
        WellFormedLevelFrame(levels[k], k, phs, phs2);
      } else {
        forall id | id in levels2[k].pending
          ensures id in phs2 && Placed(phs2[id], k) && phs2[id].numCompletedTasks == 0
        {
          var i := id - nextId;
          assert 0 <= i < |jobs| && created[nextId + i] == Placeholder(jobs[i], 0, l, l);
        }
      }
    }
  }

  /** Opening the level the gate admits keeps the bookkeeping consistent and at most two levels ongoing. */
  lemma AdmitKeepsBookkeeping(levels: map<nat, OngoingLevel>, phs: map<PhId, Placeholder>, nextId: PhId,
                              overlap: bool, numLevels: nat, jobs: seq<ClusteredJob>)
    requires Bookkeeping(levels, phs, nextId, overlap) && numLevels <= ULONG_MAX
    requires SubmissionGate(levels, overlap, numLevels).Admit?
    ensures var l := SubmissionGate(levels, overlap, numLevels).level;
      Bookkeeping(levels[l := OngoingLevel(l, IdRange(nextId, |jobs|), {}, {})],
                  phs + NewPlaceholders(jobs, nextId, l), nextId + |jobs|, overlap)
  {
    var l := SubmissionGate(levels, overlap, numLevels).level;
    AdmittedLevelFollowsStartedLevel(levels, overlap, numLevels);
    AdmitKeepsConsistent(levels, phs, nextId, l, jobs);
  }

  lemma {:induction false} PromoteKeepsBookkeeping(levels: map<nat, OngoingLevel>, phs: map<PhId, Placeholder>,
                                                    nextId: PhId, overlap: bool, k: nat, id: PhId)
    requires Bookkeeping(levels, phs, nextId, overlap)
    requires k in levels && id in levels[k].pending
    ensures Bookkeeping(levels[k := Promote(levels[k], id)], phs, nextId, overlap)
  {
    var levels2 := levels[k := Promote(levels[k], id)];
    assert levels2.Keys == levels.Keys;
    assert WellFormedLevel(levels[k], k, phs);
    assert WellFormedLevel(levels2[k], k, phs);
  }

  /** A placeholder under a fresh id leaves every level well formed. */
  lemma FreshUnaffected(levels: map<nat, OngoingLevel>, phs: map<PhId, Placeholder>, nextId: PhId, j: nat, ph: Placeholder)
    requires Consistent(levels, phs, nextId) && j in levels
    ensures WellFormedLevel(levels[j], j, phs[nextId := ph])
  {
    assert WellFormedLevel(levels[j], j, phs);
    WellFormedLevelFrame(levels[j], j, phs, phs[nextId := ph]);
  }

  lemma {:induction false} ReplaceKeepsBookkeeping(levels: map<nat, OngoingLevel>, phs: map<PhId, Placeholder>,
                                                    nextId: PhId, overlap: bool, k: nat, id: PhId, job: ClusteredJob)
    requires Bookkeeping(levels, phs, nextId, overlap)
    requires k in levels && id in levels[k].running
    ensures id !in levels[k].pending && nextId !in Members(levels[k])
    ensures Bookkeeping(levels[k := Replace(levels[k], id, nextId)],
                        phs[nextId := Placeholder(job, 0, k, k)], nextId + 1, overlap)
  {
    assert WellFormedLevel(levels[k], k, phs);
    assert nextId !in phs;
    var phs2 := phs[nextId := Placeholder(job, 0, k, k)];
    var levels2 := levels[k := Replace(levels[k], id, nextId)];
    forall j | j in levels2 ensures WellFormedLevel(levels2[j], j, phs2) {
      FreshUnaffected(levels, phs, nextId, j, Placeholder(job, 0, k, k));
    }
    assert levels2.Keys == levels.Keys;
  }

  /** Updating a placeholder of level `k` leaves every other level well formed. */
  lemma OtherLevelUnaffected(levels: map<nat, OngoingLevel>, phs: map<PhId, Placeholder>, nextId: PhId,
                             k: nat, j: nat, id: PhId, ph: Placeholder)
    requires Consistent(levels, phs, nextId)
    requires k in levels && j in levels && j != k && id in Members(levels[k])
    ensures WellFormedLevel(levels[j], j, phs[id := ph])
  {
    assert WellFormedLevel(levels[j], j, phs);
    forall x | x in Members(levels[j]) ensures x in phs[id := ph] && phs[id := ph][x] == phs[x] {
      if x == id {
        SeparateLevels(levels, phs, nextId, j, k, id);
      }
    }
    WellFormedLevelFrame(levels[j], j, phs, phs[id := ph]);
  }

  lemma {:induction false} CompletionKeepsConsistent(levels: map<nat, OngoingLevel>, phs: map<PhId, Placeholder>,
                                                      nextId: PhId, k: nat, id: PhId, task: TaskId)
    requires Consistent(levels, phs, nextId)
    requires k in levels && id in levels[k].running && task in phs[id].job.tasks
    ensures var ph := Counted(phs[id]);
      Consistent(levels[k := AfterCompletion(levels[k], id, ph)], phs[id := ph], nextId)
  {
    var ph := Counted(phs[id]);
    var phs2 := phs[id := ph];
    var moved := levels[k := AfterCompletion(levels[k], id, ph)];
    assert WellFormedLevel(levels[k], k, phs);
    forall j | j in moved ensures WellFormedLevel(moved[j], j, phs2) {
      if j != k {
        OtherLevelUnaffected(levels, phs, nextId, k, j, id, ph);
      }
    }
  }

  /** Dropping a level keeps the rest consistent and never adds a level. */
  lemma SettleKeepsBookkeeping(levels: map<nat, OngoingLevel>, phs: map<PhId, Placeholder>, nextId: PhId,
                               overlap: bool, k: nat)
    requires Bookkeeping(levels, phs, nextId, overlap) && k in levels
    ensures Bookkeeping(Settle(levels, k), phs, nextId, overlap)
  {
    assert Settle(levels, k).Keys <= levels.Keys;
  }

  lemma CompletionKeepsBookkeeping(levels: map<nat, OngoingLevel>, phs: map<PhId, Placeholder>,
                                   nextId: PhId, overlap: bool, k: nat, id: PhId, task: TaskId)
    requires Bookkeeping(levels, phs, nextId, overlap)
    requires k in levels && id in levels[k].running && task in phs[id].job.tasks
    ensures var ph := Counted(phs[id]);
      var moved := levels[k := AfterCompletion(levels[k], id, ph)];
      Bookkeeping(moved, phs[id := ph], nextId, overlap) && Bookkeeping(Settle(moved, k), phs[id := ph], nextId, overlap)
  {
    var ph := Counted(phs[id]);
    var moved := levels[k := AfterCompletion(levels[k], id, ph)];
    CompletionKeepsConsistent(levels, phs, nextId, k, id, task);
    assert moved.Keys == levels.Keys;
    SettleKeepsBookkeeping(moved, phs[id := ph], nextId, overlap, k);
  }

  // ---------------------------------------------------------------------
  // Searches
  // ---------------------------------------------------------------------

  /** What a handler looks for: the pending or running placeholder of a pilot, or the running one holding a task. */
  datatype Query = PendingPilot(pilot: Handle) | RunningPilot(pilot: Handle) | RunningTask(task: TaskId)

  function Bucket(ol: OngoingLevel, q: Query): set<PhId>
  {
    if q.PendingPilot? then ol.pending else ol.running
  }

  predicate Fits(id: PhId, ph: Placeholder, q: Query)
  {
    match q
    case PendingPilot(h) => id == h
    case RunningPilot(h) => id == h
    case RunningTask(t) => t in ph.job.tasks
  }

  ghost predicate Locates(levels: map<nat, OngoingLevel>, phs: map<PhId, Placeholder>, loc: Location, q: Query)
  {
    loc.level in levels && loc.id in Bucket(levels[loc.level], q) && loc.id in phs && Fits(loc.id, phs[loc.id], q)
  }

  /** While no task is held by two active placeholders, a running task belongs to one placeholder, in one level. */
  lemma {:induction false} TaskLocatesOnce(levels: map<nat, OngoingLevel>, phs: map<PhId, Placeholder>,
                                            nextId: PhId, t: TaskId, l1: Location, l2: Location)
    requires Consistent(levels, phs, nextId) && MembershipUnique(levels, phs)
    requires Locates(levels, phs, l1, RunningTask(t)) && Locates(levels, phs, l2, RunningTask(t))
    ensures l1 == l2
  {
    assert l1.id in levels[l1.level].pending + levels[l1.level].running;
    assert l2.id in levels[l2.level].pending + levels[l2.level].running;
    assert l1.id in ActiveIds(levels) && l2.id in ActiveIds(levels);
    assert l1.id == l2.id;
    SeparateLevels(levels, phs, nextId, l1.level, l2.level, l1.id);
  }

  /** A pilot belongs to one placeholder, in one level. */
  lemma {:induction false} PilotLocatesOnce(levels: map<nat, OngoingLevel>, phs: map<PhId, Placeholder>,
                                             nextId: PhId, q: Query, l1: Location, l2: Location)
    requires Consistent(levels, phs, nextId) && !q.RunningTask?
    requires Locates(levels, phs, l1, q) && Locates(levels, phs, l2, q)
    ensures l1 == l2
  {
    assert l1.id == l2.id;
    SeparateLevels(levels, phs, nextId, l1.level, l2.level, l1.id);
  }

  // ---------------------------------------------------------------------
  // Active placeholders and the tasks they hold
  // ---------------------------------------------------------------------

  /** The placeholders that are pending or running in some level. */
  ghost function ActiveIds(levels: map<nat, OngoingLevel>): set<PhId>
  {
    set k, id | k in levels && id in levels[k].pending + levels[k].running :: id
  }

  /** No task is held by two active placeholders. */
  ghost predicate MembershipUnique(levels: map<nat, OngoingLevel>, phs: map<PhId, Placeholder>)
  {
    forall a, b, t {:trigger t in phs[a].job.tasks, t in phs[b].job.tasks} ::
      (a in ActiveIds(levels) && b in ActiveIds(levels) && a in phs && b in phs && a != b && t in phs[a].job.tasks)
      ==> t !in phs[b].job.tasks
  }

  /**
   * A replacement holds a subset of the expired placeholder's tasks and the
   * expired one is no longer active, so no task becomes held twice.
   */
  lemma {:induction false} ReplaceKeepsMembershipUnique(levels: map<nat, OngoingLevel>, phs: map<PhId, Placeholder>,
                                                         nextId: PhId, k: nat, id: PhId, state: TaskId -> TaskState)
    requires Consistent(levels, phs, nextId) && MembershipUnique(levels, phs)
    requires k in levels && id in levels[k].running
    ensures MembershipUnique(levels[k := Replace(levels[k], id, nextId)],
                             phs[nextId := Placeholder(RestartJob(phs[id].job, state), 0, k, k)])
  {
    assert nextId !in phs;
    var job := RestartJob(phs[id].job, state);
    var phs2 := phs[nextId := Placeholder(job, 0, k, k)];
    var levels2 := levels[k := Replace(levels[k], id, nextId)];
    assert ActiveIds(levels2) <= (ActiveIds(levels) - {id}) + {nextId} by {
      forall x | x in ActiveIds(levels2) ensures x in (ActiveIds(levels) - {id}) + {nextId} {
        var j :| j in levels2 && x in levels2[j].pending + levels2[j].running;
        if j != k {
          assert x in levels[j].pending + levels[j].running;
          assert x != id by {
            if x == id {
              SeparateLevels(levels, phs, nextId, j, k, id);
            }
          }
        }
      }
    }
    assert id in ActiveIds(levels);
    forall a, b, t | a in ActiveIds(levels2) && b in ActiveIds(levels2) && a in phs2 && b in phs2 && a != b
      && t in phs2[a].job.tasks
      ensures t !in phs2[b].job.tasks
    {
      var a' := if a == nextId then id else a;
      var b' := if b == nextId then id else b;
      assert t in phs[a'].job.tasks;
      assert a' != b';
      assert a' in ActiveIds(levels) && b' in ActiveIds(levels);
    }
  }

  /** With every job unchanged, fewer active placeholders never make a task held twice. */
  lemma {:induction false} ActiveShrinksKeepsMembershipUnique(levels: map<nat, OngoingLevel>, phs: map<PhId, Placeholder>,
                                                               levels2: map<nat, OngoingLevel>, phs2: map<PhId, Placeholder>)
    requires MembershipUnique(levels, phs)
    requires ActiveIds(levels2) <= ActiveIds(levels)
    requires phs2.Keys == phs.Keys && forall id :: id in phs ==> phs2[id].job == phs[id].job
    ensures MembershipUnique(levels2, phs2)
  {
  }

  /** A level whose pending and running placeholders are among the old ones adds no active placeholder. */
  lemma {:induction false} ActiveIdsShrink(levels: map<nat, OngoingLevel>, k: nat, ol: OngoingLevel)
    requires k in levels && ol.pending + ol.running <= levels[k].pending + levels[k].running
    ensures ActiveIds(levels[k := ol]) <= ActiveIds(levels)
  {
    forall x | x in ActiveIds(levels[k := ol]) ensures x in ActiveIds(levels) {
      var j :| j in levels[k := ol] && x in levels[k := ol][j].pending + levels[k := ol][j].running;
      assert x in levels[j].pending + levels[j].running;
    }
  }

  /** Starting a pilot moves its placeholder from pending to running, so no task becomes held twice. */
  lemma {:induction false} PromoteKeepsMembershipUnique(levels: map<nat, OngoingLevel>, phs: map<PhId, Placeholder>,
                                                         k: nat, id: PhId)
    requires MembershipUnique(levels, phs)
    requires k in levels && id in levels[k].pending
    ensures MembershipUnique(levels[k := Promote(levels[k], id)], phs)
  {
    ActiveIdsShrink(levels, k, Promote(levels[k], id));
    ActiveShrinksKeepsMembershipUnique(levels, phs, levels[k := Promote(levels[k], id)], phs);
  }

  /**
   * Counting a completion changes no job, may retire the placeholder and
   * may drop its level, so no task becomes held twice.
   */
  lemma {:induction false} CompletionKeepsMembershipUnique(levels: map<nat, OngoingLevel>, phs: map<PhId, Placeholder>,
                                                            k: nat, id: PhId,
                                                            levels2: map<nat, OngoingLevel>, phs2: map<PhId, Placeholder>)
    requires k in levels && id in levels[k].running && id in phs
    requires phs2 == phs[id := Counted(phs[id])]
    requires levels2 == Settle(levels[k := AfterCompletion(levels[k], id, Counted(phs[id]))], k)
    ensures MembershipUnique(levels, phs) ==> MembershipUnique(levels2, phs2)
  {
    if !MembershipUnique(levels, phs) {
      return;
    }
    var ph := Counted(phs[id]);
    var moved := levels[k := AfterCompletion(levels[k], id, ph)];
    ActiveIdsShrink(levels, k, AfterCompletion(levels[k], id, ph));
    assert ActiveIds(Settle(moved, k)) <= ActiveIds(moved) by {
      forall x | x in ActiveIds(Settle(moved, k)) ensures x in ActiveIds(moved) {
        var j :| j in Settle(moved, k) && x in Settle(moved, k)[j].pending + Settle(moved, k)[j].running;
        assert x in moved[j].pending + moved[j].running;
      }
    }
    ActiveShrinksKeepsMembershipUnique(levels, phs, Settle(moved, k), phs[id := ph]);
  }

  // ---------------------------------------------------------------------
  // Standard jobs released after a completion
  // ---------------------------------------------------------------------

  ghost function RunningIds(levels: map<nat, OngoingLevel>): set<PhId>
  {
    set k, id | k in levels && id in levels[k].running :: id
  }

  /** Every selected READY task of the placeholders `ids`, submitted to the pilot of the placeholder holding it. */
  ghost function ReleasesOf(ids: set<PhId>, phs: map<PhId, Placeholder>, sel: Selection, state: TaskId -> TaskState): set<Effect>
  {
    set id, t | id in ids && id in phs && t in phs[id].job.tasks && Selects(sel, t) && state(t) == Ready
      :: SubmitTask(t, id)
  }

  lemma ReleasesOfAdd(ids: set<PhId>, id: PhId, phs: map<PhId, Placeholder>, sel: Selection, state: TaskId -> TaskState)
    requires id in phs
    ensures ReleasesOf(ids + {id}, phs, sel, state)
      == ReleasesOf(ids, phs, sel, state) + ToSet(SubmitReady(phs[id].job.tasks, sel, state, id))
  {
    var effs := SubmitReady(phs[id].job.tasks, sel, state, id);
    forall e | e in ToSet(effs) ensures e in ReleasesOf(ids + {id}, phs, sel, state) {
      assert e in effs;
    }
  }

  lemma ReleasesOfUnion(a: set<PhId>, b: set<PhId>, phs: map<PhId, Placeholder>, sel: Selection, state: TaskId -> TaskState)
    ensures ReleasesOf(a + b, phs, sel, state) == ReleasesOf(a, phs, sel, state) + ReleasesOf(b, phs, sel, state)
  {
  }

  /** The submissions made while visiting one placeholder, with their multiplicity. */
  ghost function HolderSubmissions(phs: map<PhId, Placeholder>, sel: Selection, state: TaskId -> TaskState): PhId -> multiset<Effect>
  {
    (id: PhId) => if id in phs then multiset(SubmitReady(phs[id].job.tasks, sel, state, id)) else multiset{}
  }

  /** The submissions made while visiting the running placeholders of one level. */
  ghost function LevelSubmissions(levels: map<nat, OngoingLevel>, phs: map<PhId, Placeholder>, sel: Selection,
                                  state: TaskId -> TaskState): nat -> multiset<Effect>
  {
    (k: nat) => if k in levels then BagSum(levels[k].running, HolderSubmissions(phs, sel, state)) else multiset{}
  }

  /** The releases of `ReleasesOf(RunningIds(levels), ...)`, counted once per occurrence of the task in a holder's list. */
  ghost function ReleaseCounts(levels: map<nat, OngoingLevel>, phs: map<PhId, Placeholder>, sel: Selection,
                               state: TaskId -> TaskState): multiset<Effect>
  {
    BagSum(levels.Keys, LevelSubmissions(levels, phs, sel, state))
  }

  /** A running placeholder receives each selected READY task as many times as its list holds it. */
  lemma {:induction false} ReleaseCountsHeld(levels: map<nat, OngoingLevel>, phs: map<PhId, Placeholder>, nextId: PhId,
                                             sel: Selection, state: TaskId -> TaskState, k: nat, id: PhId, t: TaskId)
    requires Consistent(levels, phs, nextId)
    requires k in levels && id in levels[k].running
    ensures id in phs
    ensures ReleaseCounts(levels, phs, sel, state)[SubmitTask(t, id)]
      == if Selects(sel, t) && state(t) == Ready then multiset(phs[id].job.tasks)[t] else 0
  {
    RunningOwned(levels, phs, nextId);
    var x := SubmitTask(t, id);
    var f := HolderSubmissions(phs, sel, state);
    var g := LevelSubmissions(levels, phs, sel, state);
    forall j | j in levels && j != k ensures g(j)[x] == 0 {
      forall q | q in levels[j].running ensures f(q)[x] == 0 {
        if q == id {
          SeparateLevels(levels, phs, nextId, j, k, id);
        }
        SubmitReadyCount(phs[q].job.tasks, sel, state, q, t, id);
      }
      BagSumNone(levels[j].running, f, x);
    }
    BagSumSingle(levels.Keys, g, k, x);
    forall q | q in levels[k].running && q != id ensures f(q)[x] == 0 {
      SubmitReadyCount(phs[q].job.tasks, sel, state, q, t, id);
    }
    BagSumSingle(levels[k].running, f, id, x);
    SubmitReadyCount(phs[id].job.tasks, sel, state, id, t, id);
  }

  /** A placeholder that is not running receives nothing. */
  lemma {:induction false} ReleaseCountsOther(levels: map<nat, OngoingLevel>, phs: map<PhId, Placeholder>,
                                              sel: Selection, state: TaskId -> TaskState, id: PhId, t: TaskId)
    requires id !in RunningIds(levels)
    ensures ReleaseCounts(levels, phs, sel, state)[SubmitTask(t, id)] == 0
  {
    var x := SubmitTask(t, id);
    var f := HolderSubmissions(phs, sel, state);
    var g := LevelSubmissions(levels, phs, sel, state);
    forall j | j in levels ensures g(j)[x] == 0 {
      forall q | q in levels[j].running ensures f(q)[x] == 0 {
        if q in phs {
          SubmitReadyCount(phs[q].job.tasks, sel, state, q, t, id);
        }
      }
      BagSumNone(levels[j].running, f, x);
    }
    BagSumNone(levels.Keys, g, x);
  }

  /** Appending the releases of placeholder `id` to those of the placeholders visited so far. */
  lemma HolderReleased(phs: map<PhId, Placeholder>, sel: Selection, state: TaskId -> TaskState,
                       seen: set<PhId>, id: PhId, effs: seq<Effect>, submitted: seq<Effect>)
    requires id in phs && id !in seen
    requires ToSet(effs) == ReleasesOf(seen, phs, sel, state)
    requires multiset(effs) == BagSum(seen, HolderSubmissions(phs, sel, state))
    requires submitted == SubmitReady(phs[id].job.tasks, sel, state, id)
    ensures ToSet(effs + submitted) == ReleasesOf(seen + {id}, phs, sel, state)
    ensures multiset(effs + submitted) == BagSum(seen + {id}, HolderSubmissions(phs, sel, state))
  {
    assert ToSet(effs + submitted) == ReleasesOf(seen + {id}, phs, sel, state) by {
      assert ToSet(effs + submitted) == ToSet(effs) + ToSet(submitted);
      ReleasesOfAdd(seen, id, phs, sel, state);
    }
    assert multiset(effs + submitted) == BagSum(seen + {id}, HolderSubmissions(phs, sel, state)) by {
      BagSumRemove(seen + {id}, HolderSubmissions(phs, sel, state), id);
      assert seen + {id} - {id} == seen;
    }
  }

  /** The loop over one level's running placeholders that submits the selected READY tasks of each to its pilot. */
  method ReleasesInLevel(ids: set<PhId>, phs: map<PhId, Placeholder>, sel: Selection, state: TaskId -> TaskState)
    returns (effs: seq<Effect>)
    requires ids <= phs.Keys
    ensures ToSet(effs) == ReleasesOf(ids, phs, sel, state)
    ensures multiset(effs) == BagSum(ids, HolderSubmissions(phs, sel, state))
  {
    effs := [];
    var todo := ids;
    ghost var seen: set<PhId> := {};
    while todo != {}
      invariant seen + todo == ids && seen !! todo
      invariant ToSet(effs) == ReleasesOf(seen, phs, sel, state)
      invariant multiset(effs) == BagSum(seen, HolderSubmissions(phs, sel, state))
    {
      var id :| id in todo;
      var ph := phs[id];
      var submitted := ReadySubmissions(ph.job.tasks, sel, state, id);
      HolderReleased(phs, sel, state, seen, id, effs, submitted);
      effs := effs + submitted;
      seen := seen + {id};
      todo := todo - {id};
    }
  }

  /** The running placeholders of the levels `keys`. */
  ghost function RunningIdsIn(levels: map<nat, OngoingLevel>, keys: set<nat>): set<PhId>
  {
    set k, id | k in keys && k in levels && id in levels[k].running :: id
  }

  /** Appending the releases of level `k` to those of the levels visited so far. */
  lemma LevelReleased(levels: map<nat, OngoingLevel>, phs: map<PhId, Placeholder>, sel: Selection, state: TaskId -> TaskState,
                      visited: set<nat>, k: nat, effs: seq<Effect>, submitted: seq<Effect>)
    requires k in levels && k !in visited
    requires ToSet(effs) == ReleasesOf(RunningIdsIn(levels, visited), phs, sel, state)
    requires multiset(effs) == BagSum(visited, LevelSubmissions(levels, phs, sel, state))
    requires ToSet(submitted) == ReleasesOf(levels[k].running, phs, sel, state)
    requires multiset(submitted) == BagSum(levels[k].running, HolderSubmissions(phs, sel, state))
    ensures ToSet(effs + submitted) == ReleasesOf(RunningIdsIn(levels, visited + {k}), phs, sel, state)
    ensures multiset(effs + submitted) == BagSum(visited + {k}, LevelSubmissions(levels, phs, sel, state))
  {
    assert ToSet(effs + submitted) == ReleasesOf(RunningIdsIn(levels, visited + {k}), phs, sel, state) by {
      assert ToSet(effs + submitted) == ToSet(effs) + ToSet(submitted);
      assert RunningIdsIn(levels, visited + {k}) == RunningIdsIn(levels, visited) + levels[k].running;
      ReleasesOfUnion(RunningIdsIn(levels, visited), levels[k].running, phs, sel, state);
    }
    assert multiset(effs + submitted) == BagSum(visited + {k}, LevelSubmissions(levels, phs, sel, state)) by {
      BagSumRemove(visited + {k}, LevelSubmissions(levels, phs, sel, state), k);
      assert visited + {k} - {k} == visited;
    }
  }

  /** The loops over every level and its running placeholders that release the selected READY tasks. */
  method ReleasesInLevels(levels: map<nat, OngoingLevel>, phs: map<PhId, Placeholder>, sel: Selection, state: TaskId -> TaskState)
    returns (effs: seq<Effect>)
    requires forall k :: k in levels ==> levels[k].running <= phs.Keys
    ensures ToSet(effs) == ReleasesOf(RunningIds(levels), phs, sel, state)
    ensures multiset(effs) == ReleaseCounts(levels, phs, sel, state)
  {
    effs := [];
    var todo := levels.Keys;
    ghost var visited: set<nat> := {};
    while todo != {}
      invariant visited + todo == levels.Keys && visited !! todo
      invariant ToSet(effs) == ReleasesOf(RunningIdsIn(levels, visited), phs, sel, state)
      invariant multiset(effs) == BagSum(visited, LevelSubmissions(levels, phs, sel, state))
    {
      var k :| k in todo;
      var submitted := ReleasesInLevel(levels[k].running, phs, sel, state);
      LevelReleased(levels, phs, sel, state, visited, k, effs, submitted);
      effs := effs + submitted;
      visited := visited + {k};
      todo := todo - {k};
    }
    assert visited == levels.Keys;
    assert RunningIdsIn(levels, visited) == RunningIds(levels);
  }

  /** One more clustered job: one more placeholder, one more id and one more pilot submission. */
  lemma CreatedOneMore(jobs: seq<ClusteredJob>, firstId: PhId, level: nat, walltime: ClusteredJob -> nat, i: nat)
    requires i < |jobs|
    ensures NewPlaceholders(jobs[..i + 1], firstId, level)
      == NewPlaceholders(jobs[..i], firstId, level)[firstId + i := Placeholder(jobs[i], 0, level, level)]
    ensures IdRange(firstId, i + 1) == IdRange(firstId, i) + {firstId + i}
    ensures PilotSubmissions(jobs[..i + 1], firstId, walltime)
      == PilotSubmissions(jobs[..i], firstId, walltime) + [SubmitPilot(firstId + i, jobs[i].numNodes, 1, WalltimeMinutes(walltime(jobs[i])))]
  {
    assert jobs[..i + 1][..i] == jobs[..i];
  }

  /**
   * The loop of submitPilotJobsForNextLevel over the level's clustered jobs:
   * each becomes a pending placeholder with the next arena id, and the
   * submission of its pilot is logged.
   */
  method CreateLevelPlaceholders(jobs: seq<ClusteredJob>, firstId: PhId, level: nat,
                                 walltime: ClusteredJob -> nat)
    returns (created: map<PhId, Placeholder>, pending: set<PhId>, effs: seq<Effect>)
    ensures created == NewPlaceholders(jobs, firstId, level)
    ensures pending == IdRange(firstId, |jobs|)
    ensures effs == PilotSubmissions(jobs, firstId, walltime)
  {
    created, pending, effs := map[], {}, [];
    var i := 0;
    while i < |jobs|
      invariant 0 <= i <= |jobs|
      invariant created == NewPlaceholders(jobs[..i], firstId, level)
      invariant pending == IdRange(firstId, i)
      invariant effs == PilotSubmissions(jobs[..i], firstId, walltime)
    {
      var cj := jobs[i];
      var ph := Placeholder(cj, 0, level, level);
      var submission := SubmitPilot(firstId + i, cj.numNodes, 1, WalltimeMinutes(walltime(cj)));
      CreatedOneMore(jobs, firstId, level, walltime, i);
      created := created[firstId + i := ph];
      pending := pending + {firstId + i};
      effs := effs + [submission];
      i := i + 1;
    }
    assert jobs[..i] == jobs;
  }

  /**
   * The counting step of a completion: the placeholder counts one more task;
   * when it has counted all of them its pilot is terminated and it moves
   * from running to completed.
   */
  method CountAndRetire(levels: map<nat, OngoingLevel>, phs: map<PhId, Placeholder>, log: seq<Effect>, k: nat, id: PhId)
    returns (levels2: map<nat, OngoingLevel>, phs2: map<PhId, Placeholder>, log2: seq<Effect>)
    requires k in levels && id in levels[k].running && id in phs
    ensures var ph := Counted(phs[id]);
      && phs2 == phs[id := ph]
      && levels2 == levels[k := AfterCompletion(levels[k], id, ph)]
      && log2 == log + (if AllDone(ph) then [Terminate(id)] else [])
  {
    var ph := Counted(phs[id]);
    phs2 := phs[id := ph];
    levels2 := levels;
    log2 := log;
    if ph.numCompletedTasks == |ph.job.tasks| {
      log2 := log2 + [Terminate(id)];
      levels2 := levels2[k := Retire(levels2[k], id)];
    }
  }

  /**
   * The body of processEventStandardJobCompletion once the task's running
   * placeholder `id` of level `k` is found: count the completion, retire the
   * placeholder and terminate its pilot when it is done, release the READY
   * children of the task held by running placeholders, and drop level `k`
   * when nothing of it is pending or running.
   */
  method CountCompletion(levels: map<nat, OngoingLevel>, phs: map<PhId, Placeholder>, log: seq<Effect>, nextId: PhId,
                         overlap: bool, k: nat, id: PhId, task: TaskId, children: set<TaskId>, state: TaskId -> TaskState)
    returns (levels2: map<nat, OngoingLevel>, phs2: map<PhId, Placeholder>, log2: seq<Effect>)
    requires Bookkeeping(levels, phs, nextId, overlap)
    requires k in levels && id in levels[k].running && task in phs[id].job.tasks
    ensures Bookkeeping(levels2, phs2, nextId, overlap)
    ensures var ph := Counted(phs[id]);
      var moved := levels[k := AfterCompletion(levels[k], id, ph)];
      var cut := |log| + (if AllDone(ph) then 1 else 0);
      && phs2 == phs[id := ph]
      && levels2 == Settle(moved, k)
      && cut <= |log2| && log2[..|log|] == log
      && (AllDone(ph) ==> log2[|log|] == Terminate(id))
      && ToSet(log2[cut..]) == ReleasesOf(RunningIds(moved), phs2, Among(children), state)
      && multiset(log2[cut..]) == ReleaseCounts(moved, phs2, Among(children), state)
  {
    CompletionKeepsBookkeeping(levels, phs, nextId, overlap, k, id, task);
    var moved;
    moved, phs2, log2 := CountAndRetire(levels, phs, log, k, id);
    ghost var cut := |log2|;
    RunningOwned(moved, phs2, nextId);
    var released := ReleasesInLevels(moved, phs2, Among(children), state);
    levels2 := moved;
    if levels2[k].pending == {} && levels2[k].running == {} {
      levels2 := levels2 - {k};
    }
    assert levels2 == Settle(moved, k);
    AppendKeepsPrefix(log2, released, |log|);
    log2 := log2 + released;
  }

  // ---------------------------------------------------------------------
  // The controller
  // ---------------------------------------------------------------------

  class LevelByLevelWms {
    const overlap: bool
    const clusteringSpec: string
    var ongoingLevels: map<nat, OngoingLevel>
    var placeholders: map<PhId, Placeholder>
    var jobLog: seq<Effect>
    var nextPlaceholder: PhId

    ghost predicate Valid()
      reads this
    {
      Bookkeeping(ongoingLevels, placeholders, nextPlaceholder, overlap)
    }

    constructor (overlap: bool, clusteringSpec: string)
      ensures Valid()
      ensures this.overlap == overlap && this.clusteringSpec == clusteringSpec
      ensures ongoingLevels == map[] && placeholders == map[] && jobLog == []
      ensures nextPlaceholder == 0
    {
      this.overlap := overlap;
      this.clusteringSpec := clusteringSpec;
      ongoingLevels := map[];
      placeholders := map[];
      jobLog := [];
      nextPlaceholder := 0;
    }

    /** Stores the bookkeeping a handler computed; it must be consistent. */
    method Commit(levels: map<nat, OngoingLevel>, phs: map<PhId, Placeholder>, log: seq<Effect>, next: PhId)
      requires Bookkeeping(levels, phs, next, overlap)
      modifies this
      ensures Valid()
      ensures ongoingLevels == levels && placeholders == phs && jobLog == log && nextPlaceholder == next
    {
      ongoingLevels, placeholders, jobLog, nextPlaceholder := levels, phs, log, next;
    }

    /**
     * submitPilotJobsForNextLevel: when the gate admits a level, every
     * clustered job of that level becomes a pending placeholder with a fresh
     * pilot, the pilots are submitted in job order, and the level becomes
     * ongoing. A malformed clustering spec stops it before anything changes.
     */
    method SubmitPilotJobsForNextLevel(wf: WorkflowView, createHCJobs: (nat, nat, nat) -> seq<ClusteredJob>,
                                       walltime: ClusteredJob -> nat)
      returns (outcome: Outcome)
      requires Valid()
      modifies this
      ensures Valid()
      ensures SubmissionGate(old(ongoingLevels), overlap, wf.numLevels) == Hold ==> outcome == Done && unchanged(this)
      ensures SubmissionGate(old(ongoingLevels), overlap, wf.numLevels).Admit? ==>
        var l := SubmissionGate(old(ongoingLevels), overlap, wf.numLevels).level;
        match PlaceholderJobsForLevel(clusteringSpec, l, createHCJobs)
        case Failure(e) => outcome == Failed(e) && unchanged(this)
        case Success(jobs) =>
          && outcome == Done
          && ongoingLevels == old(ongoingLevels)[l := OngoingLevel(l, IdRange(old(nextPlaceholder), |jobs|), {}, {})]
          && placeholders == old(placeholders) + NewPlaceholders(jobs, old(nextPlaceholder), l)
          && jobLog == old(jobLog) + PilotSubmissions(jobs, old(nextPlaceholder), walltime)
          && nextPlaceholder == old(nextPlaceholder) + |jobs|
    {
      var gate := Gate(ongoingLevels, overlap, wf.numLevels);
      if gate.Hold? {
        return Done;
      }
      var l := gate.level;
      var created := PlaceholderJobsForLevel(clusteringSpec, l, createHCJobs);
      if created.Failure? {
        return Failed(created.error);
      }
      var jobs := created.value;
      var newPlaceholders, pending, submitted := CreateLevelPlaceholders(jobs, nextPlaceholder, l, walltime);
      AdmitKeepsBookkeeping(ongoingLevels, placeholders, nextPlaceholder, overlap, wf.numLevels, jobs);
      Commit(ongoingLevels[l := OngoingLevel(l, pending, {}, {})], placeholders + newPlaceholders, jobLog + submitted,
             nextPlaceholder + |jobs|);
      outcome := Done;
    }

    /**
     * The nested search loops of the three handlers. The inner loop stops at
     * the first fit of a level, and a later level overwrites it: when several
     * placeholders fit, the first fit in the last level visited that has one
     * is kept. Where one placeholder at most can fit (`PilotLocatesOnce`,
     * `TaskLocatesOnce`) the result is the same whichever order is taken.
     */
    method Locate(q: Query) returns (loc: Option<Location>)
      requires Valid()
      ensures loc.Some? ==> Locates(ongoingLevels, placeholders, loc.value, q)
      ensures loc.None? ==> forall l :: !Locates(ongoingLevels, placeholders, l, q)
    {
      loc := None;
      var levelsLeft := ongoingLevels.Keys;
      while levelsLeft != {}
        invariant levelsLeft <= ongoingLevels.Keys
        invariant loc.Some? ==> Locates(ongoingLevels, placeholders, loc.value, q)
        invariant loc.None? ==> forall l: Location :: l.level !in levelsLeft ==> !Locates(ongoingLevels, placeholders, l, q)
      {
        var k :| k in levelsLeft;
        var idsLeft := Bucket(ongoingLevels[k], q);
        assert WellFormedLevel(ongoingLevels[k], k, placeholders);
        while idsLeft != {}
          invariant idsLeft <= Bucket(ongoingLevels[k], q)
          invariant loc.Some? ==> Locates(ongoingLevels, placeholders, loc.value, q)
          invariant loc.None? ==> forall l: Location :: (l.level !in levelsLeft || (l.level == k && l.id !in idsLeft))
                                               ==> !Locates(ongoingLevels, placeholders, l, q)
        {
          var id :| id in idsLeft;
          var ph := placeholders[id];
          var fits: bool;
          match q {
            case PendingPilot(h) => fits := id == h;
            case RunningPilot(h) => fits := id == h;
            case RunningTask(t) => fits := Contains(ph.job.tasks, t);
          }
          if fits {
            loc := Some(Location(k, id));
            break;
          }
          idsLeft := idsLeft - {id};
        }
        levelsLeft := levelsLeft - {k};
      }
    }

    /**
     * processEventPilotJobStart: the started pilot's placeholder must be
     * pending; it moves to running in its level and each of its READY tasks
     * is submitted to its pilot.
     */
    method ProcessEventPilotJobStart(pilot: Handle, wf: WorkflowView) returns (outcome: Outcome, located: Option<Location>)
      requires Valid()
      modifies this
      ensures Valid()
      ensures located.None? ==>
        outcome == Failed(NoPendingPlaceholder) && unchanged(this)
        && forall l :: !Locates(old(ongoingLevels), old(placeholders), l, PendingPilot(pilot))
      ensures located.Some? ==> Locates(old(ongoingLevels), old(placeholders), located.value, PendingPilot(pilot))
      ensures located.Some? ==>
        var k, ph := located.value.level, old(placeholders)[located.value.id];
        && outcome == Done
        && ongoingLevels == old(ongoingLevels)[k := Promote(old(ongoingLevels)[k], located.value.id)]
        && jobLog == old(jobLog) + SubmitReady(ph.job.tasks, Every, wf.state, pilot)
        && placeholders == old(placeholders) && nextPlaceholder == old(nextPlaceholder)
      ensures MembershipUnique(old(ongoingLevels), old(placeholders)) ==> MembershipUnique(ongoingLevels, placeholders)
    {
      located := Locate(PendingPilot(pilot));
      if located.None? {
        return Failed(NoPendingPlaceholder), located;
      }
      var k, id := located.value.level, located.value.id;
      PromoteKeepsBookkeeping(ongoingLevels, placeholders, nextPlaceholder, overlap, k, id);
      if MembershipUnique(ongoingLevels, placeholders) {
        PromoteKeepsMembershipUnique(ongoingLevels, placeholders, k, id);
      }
      var submitted := ReadySubmissions(placeholders[id].job.tasks, Every, wf.state, id);
      Commit(ongoingLevels[k := Promote(ongoingLevels[k], id)], placeholders, jobLog + submitted, nextPlaceholder);
      outcome := Done;
    }

    /**
     * processEventPilotJobExpiration: the expired pilot's placeholder must be
     * running. If it counted all its tasks nothing happens; otherwise it
     * leaves running and a replacement with exactly its unfinished tasks, on
     * at most as many nodes, is submitted and becomes pending in its level.
     */
    method ProcessEventPilotJobExpiration(pilot: Handle, wf: WorkflowView, walltime: ClusteredJob -> nat)
      returns (outcome: Outcome, located: Option<Location>)
      requires Valid()
      modifies this
      ensures Valid()
      ensures located.None? ==>
        outcome == Failed(NoRunningPlaceholder) && unchanged(this)
        && forall l :: !Locates(old(ongoingLevels), old(placeholders), l, RunningPilot(pilot))
      ensures located.Some? ==> Locates(old(ongoingLevels), old(placeholders), located.value, RunningPilot(pilot))
      ensures located.Some? && AllDone(old(placeholders)[located.value.id]) ==> outcome == Done && unchanged(this)
      ensures located.Some? && !AllDone(old(placeholders)[located.value.id]) ==>
        var k, id := located.value.level, located.value.id;
        var job := RestartJob(old(placeholders)[id].job, wf.state);
        && outcome == Done
        && ongoingLevels == old(ongoingLevels)[k := Replace(old(ongoingLevels)[k], id, old(nextPlaceholder))]
        && placeholders == old(placeholders)[old(nextPlaceholder) := Placeholder(job, 0, k, k)]
        && jobLog == old(jobLog) + [SubmitPilot(old(nextPlaceholder), job.numNodes, 1, WalltimeMinutes(walltime(job)))]
        && nextPlaceholder == old(nextPlaceholder) + 1
      ensures MembershipUnique(old(ongoingLevels), old(placeholders)) ==> MembershipUnique(ongoingLevels, placeholders)
    {
      located := Locate(RunningPilot(pilot));
      if located.None? {
        return Failed(NoRunningPlaceholder), located;
      }
      var k, id := located.value.level, located.value.id;
      var ph := placeholders[id];
      if ph.numCompletedTasks == |ph.job.tasks| {
        return Done, located;
      }
      var rest := IncompleteTasks(ph.job.tasks, wf.state);
      var job := ClusteredJob(rest, Min(ph.job.numNodes, |rest|));
      ReplaceKeepsBookkeeping(ongoingLevels, placeholders, nextPlaceholder, overlap, k, id, job);
      if MembershipUnique(ongoingLevels, placeholders) {
        ReplaceKeepsMembershipUnique(ongoingLevels, placeholders, nextPlaceholder, k, id, wf.state);
      }
      Commit(ongoingLevels[k := Replace(ongoingLevels[k], id, nextPlaceholder)],
             placeholders[nextPlaceholder := Placeholder(job, 0, k, k)],
             jobLog + [SubmitPilot(nextPlaceholder, job.numNodes, 1, WalltimeMinutes(walltime(job)))],
             nextPlaceholder + 1);
      outcome := Done;
    }

    /**
     * processEventStandardJobCompletion: the task's running placeholder
     * counts one more completion; when it has counted all its tasks its pilot
     * is terminated and it moves to completed. Then the READY children of the
     * task are submitted wherever a running placeholder holds them, and the
     * level is dropped if nothing of it is pending or running.
     */
    method ProcessEventStandardJobCompletion(task: TaskId, wf: WorkflowView) returns (outcome: Outcome, located: Option<Location>)
      requires Valid()
      modifies this
      ensures Valid()
      ensures located.None? ==>
        outcome == Failed(NoPlaceholderForTask) && unchanged(this)
        && forall l :: !Locates(old(ongoingLevels), old(placeholders), l, RunningTask(task))
      ensures located.Some? ==> Locates(old(ongoingLevels), old(placeholders), located.value, RunningTask(task))
      ensures located.Some? ==>
        var k, id := located.value.level, located.value.id;
        var ph := Counted(old(placeholders)[id]);
        var moved := old(ongoingLevels)[k := AfterCompletion(old(ongoingLevels)[k], id, ph)];
        var cut := |old(jobLog)| + (if AllDone(ph) then 1 else 0);
        && outcome == Done
        && placeholders == old(placeholders)[id := ph]
        && ongoingLevels == Settle(moved, k)
        && nextPlaceholder == old(nextPlaceholder)
        && cut <= |jobLog| && jobLog[..|old(jobLog)|] == old(jobLog)
        && (AllDone(ph) ==> jobLog[|old(jobLog)|] == Terminate(id))
        && ToSet(jobLog[cut..]) == ReleasesOf(RunningIds(moved), placeholders, Among(wf.children(task)), wf.state)
        && multiset(jobLog[cut..]) == ReleaseCounts(moved, placeholders, Among(wf.children(task)), wf.state)
      ensures MembershipUnique(old(ongoingLevels), old(placeholders)) ==> MembershipUnique(ongoingLevels, placeholders)
    {
      located := Locate(RunningTask(task));
      if located.None? {
        return Failed(NoPlaceholderForTask), located;
      }
      var k, id := located.value.level, located.value.id;
      var levels, phs, log :=
        CountCompletion(ongoingLevels, placeholders, jobLog, nextPlaceholder, overlap, k, id, task, wf.children(task), wf.state);
      Commit(levels, phs, log, nextPlaceholder);
      CompletionKeepsMembershipUnique(old(ongoingLevels), old(placeholders), k, id, levels, phs);
      outcome := Done;
    }

    /** processEventStandardJobFailure: a failed standard job changes nothing and is not resubmitted. */
    method ProcessEventStandardJobFailure(task: TaskId) returns (outcome: Outcome)
      requires Valid()
      ensures outcome == Done
    {
      outcome := Done;
    }
  }
}

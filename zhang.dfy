/**
 * The Zhang et al. clustering controller (`ZhangClusteringWMS`). At most one
 * placeholder job is pending at a time. Each new placeholder covers the level
 * after the highest level a running placeholder covers, asks for as many
 * one-core hosts as that level has tasks and for as long as its longest task
 * runs. A pilot that expires with unfinished work cancels the pending pilot
 * and every running pilot none of whose tasks has started.
 *
 * Placeholders are values; the pilot each one carries is fresh when it is
 * created, so a placeholder value stands for the object. Job-manager requests
 * are appended to `jobLog`.
 */
module Zhang {
  import opened Common

  datatype ZPlaceholder = ZPlaceholder(pilot: Handle, tasks: seq<TaskId>, startLevel: nat, endLevel: nat)

  datatype ZhangError =
    | LevelTooWide(level: nat)   // runtime_error: a level has more tasks than the batch service has hosts
    | NotThePendingPilot         // a started pilot that is not the pending one, or nothing is pending
    | NoRunningPlaceholder       // an expired pilot that no running placeholder owns
    | NoPlaceholderForTask       // a completed task that no running placeholder holds
    | NullPendingPlaceholder     // the pending placeholder read while there is none

  datatype Outcome = Done | Failed(error: ZhangError)

  // ---------------------------------------------------------------------
  // What one submission asks for, over a range [lo, hi) of levels
  // ---------------------------------------------------------------------

  /** The first level of `[lo, hi)` with more tasks than the batch service has hosts. */
  function FirstOversized(wf: WorkflowView, numHosts: nat, lo: nat, hi: nat): Option<nat>
    requires lo <= hi
    decreases hi - lo
  {
    if lo == hi then None
    else if |wf.tasksInLevel(lo)| > numHosts then Some(lo)
    else FirstOversized(wf, numHosts, lo + 1, hi)
  }

  /** The level found is in the range, too wide, and the first such; none is found exactly when all fit. */
  lemma {:induction false} FirstOversizedIsFirst(wf: WorkflowView, numHosts: nat, lo: nat, hi: nat)
    requires lo <= hi
    decreases hi - lo
    ensures var r := FirstOversized(wf, numHosts, lo, hi);
      && (r.Some? ==> lo <= r.value < hi && |wf.tasksInLevel(r.value)| > numHosts)
      && (r.Some? ==> forall l :: lo <= l < r.value ==> |wf.tasksInLevel(l)| <= numHosts)
      && (r.None? <==> forall l :: lo <= l < hi ==> |wf.tasksInLevel(l)| <= numHosts)
  {
    if lo < hi && |wf.tasksInLevel(lo)| <= numHosts {
      FirstOversizedIsFirst(wf, numHosts, lo + 1, hi);
    }
  }

  /** The number of tasks of the widest level of `[lo, hi)`; 0 for an empty range. */
  function Widest(wf: WorkflowView, lo: nat, hi: nat): nat
    requires lo <= hi
    decreases hi - lo
  {
    if lo == hi then 0 else Max(Widest(wf, lo, hi - 1), |wf.tasksInLevel(hi - 1)|)
  }

  /** No level of the range is wider, and a non-empty range has a level exactly that wide. */
  lemma {:induction false} WidestIsMaximum(wf: WorkflowView, lo: nat, hi: nat)
    requires lo <= hi
    decreases hi - lo
    ensures forall l :: lo <= l < hi ==> |wf.tasksInLevel(l)| <= Widest(wf, lo, hi)
    ensures lo < hi ==> exists l :: lo <= l < hi && |wf.tasksInLevel(l)| == Widest(wf, lo, hi)
  {
    if lo < hi {
      WidestIsMaximum(wf, lo, hi - 1);
      if lo == hi - 1 || Widest(wf, lo, hi) == |wf.tasksInLevel(hi - 1)| {
        assert |wf.tasksInLevel(hi - 1)| == Widest(wf, lo, hi);
      }
    }
  }

  function RMax(a: real, b: real): real
  {
    if a <= b then b else a
  }

  /** How long the longest of `tasks` runs on one core of speed `coreSpeed`; 0 when there is none. */
  function LongestTask(tasks: seq<TaskId>, flops: TaskId -> nat, coreSpeed: real): (m: real)
    requires coreSpeed > 0.0
    ensures m >= 0.0
  {
    if tasks == [] then 0.0
    else RMax(LongestTask(tasks[..|tasks| - 1], flops, coreSpeed), flops(tasks[|tasks| - 1]) as real / coreSpeed)
  }

  /** No task runs longer, and unless the result is 0 some task runs exactly that long. */
  lemma {:induction false} LongestTaskIsMaximum(tasks: seq<TaskId>, flops: TaskId -> nat, coreSpeed: real)
    requires coreSpeed > 0.0
    ensures forall t :: t in tasks ==> flops(t) as real / coreSpeed <= LongestTask(tasks, flops, coreSpeed)
    ensures LongestTask(tasks, flops, coreSpeed) == 0.0
      || exists t :: t in tasks && LongestTask(tasks, flops, coreSpeed) == flops(t) as real / coreSpeed
  {
    if tasks != [] {
      var front := tasks[..|tasks| - 1];
      assert tasks == front + [tasks[|tasks| - 1]];
      LongestTaskIsMaximum(front, flops, coreSpeed);
    }
  }

  /** The run time requested for the levels `[lo, hi)`: one longest task per level, one level after the other. */
  function RequestedTime(wf: WorkflowView, coreSpeed: real, lo: nat, hi: nat): (time: real)
    requires coreSpeed > 0.0 && lo <= hi
    decreases hi - lo
    ensures time >= 0.0
  {
    if lo == hi then 0.0
    else RequestedTime(wf, coreSpeed, lo, hi - 1) + LongestTask(wf.tasksInLevel(hi - 1), wf.flops, coreSpeed)
  }

  /** The tasks of the levels `[lo, hi)` that are not COMPLETED, level after level. */
  function RangeTasks(wf: WorkflowView, lo: nat, hi: nat): seq<TaskId>
    requires lo <= hi
    decreases hi - lo
  {
    if lo == hi then []
    else RangeTasks(wf, lo, hi - 1) + Incomplete(wf.tasksInLevel(hi - 1), wf.state)
  }

  /** Every level's longest task fits in the time requested for the range. */
  lemma {:induction false} RequestedTimeCoversLevels(wf: WorkflowView, coreSpeed: real, lo: nat, hi: nat)
    requires coreSpeed > 0.0 && lo <= hi
    decreases hi - lo
    ensures forall l :: lo <= l < hi ==> LongestTask(wf.tasksInLevel(l), wf.flops, coreSpeed) <= RequestedTime(wf, coreSpeed, lo, hi)
  {
    if lo < hi {
      RequestedTimeCoversLevels(wf, coreSpeed, lo, hi - 1);
    }
  }

  /** A task is aggregated exactly when it belongs to a level of the range and is not COMPLETED. */
  lemma {:induction false} RangeTasksMembers(wf: WorkflowView, lo: nat, hi: nat, t: TaskId)
    requires lo <= hi
    decreases hi - lo
    ensures t in RangeTasks(wf, lo, hi) <==> exists l :: lo <= l < hi && t in wf.tasksInLevel(l) && wf.state(t) != Completed
  {
    if lo < hi {
      RangeTasksMembers(wf, lo, hi - 1, t);
      var last := Incomplete(wf.tasksInLevel(hi - 1), wf.state);
      assert t in RangeTasks(wf, lo, hi) <==> t in RangeTasks(wf, lo, hi - 1) || t in last;
    }
  }

  /**
   * The `-t` argument: `1 + ((unsigned long) time) / 60` minutes, the cast
   * truncating the non-negative time. The reservation is longer than the
   * time and by at most a minute.
   */
  function TimeMinutes(time: real): (minutes: nat)
    requires time >= 0.0
    ensures time < (minutes * 60) as real <= time + 60.0
  {
    var seconds := time.Floor;
    WalltimeMinutes(seconds)
  }

  // ---------------------------------------------------------------------
  // Where the next placeholder starts
  // ---------------------------------------------------------------------

  ghost function EndLevels(running: set<ZPlaceholder>): set<nat>
  {
    set ph | ph in running :: ph.endLevel
  }

  /** One past the highest level a running placeholder covers, the maximum taken from 0. */
  ghost function NextStartLevel(running: set<ZPlaceholder>): (start: nat)
    ensures start >= 1
    ensures forall ph :: ph in running ==> ph.endLevel < start
    ensures start == 1 || exists ph :: ph in running && ph.endLevel == start - 1
  {
    var ends := EndLevels(running);
    assert forall ph :: ph in running ==> ph.endLevel in ends;
    if ends == {} then 1 else MaxOf(ends) + 1
  }

  /** The loop `start_level = MAX(start_level, ph->end_level)` over the running placeholders, then `+ 1`. */
  method StartLevel(running: set<ZPlaceholder>) returns (start: nat)
    ensures start == NextStartLevel(running)
  {
    var level := 0;
    var todo := running;
    ghost var seen: set<ZPlaceholder> := {};
    while todo != {}
      invariant seen + todo == running && seen !! todo
      invariant level == if EndLevels(seen) == {} then 0 else MaxOf(EndLevels(seen))
    {
      var ph :| ph in todo;
      assert EndLevels(seen + {ph}) == EndLevels(seen) + {ph.endLevel};
      MaxOfAdd(EndLevels(seen), ph.endLevel);
      level := Max(level, ph.endLevel);
      seen := seen + {ph};
      todo := todo - {ph};
    }
    start := level + 1;
  }

  // ---------------------------------------------------------------------
  // submitPilotJob
  // ---------------------------------------------------------------------

  /** Over the one-level range `[l, l + 1)` the range functions reduce to that level's own figures. */
  lemma SingleLevel(wf: WorkflowView, numHosts: nat, coreSpeed: real, l: nat)
    requires coreSpeed > 0.0
    ensures FirstOversized(wf, numHosts, l, l + 1) == if |wf.tasksInLevel(l)| > numHosts then Some(l) else None
    ensures Widest(wf, l, l + 1) == |wf.tasksInLevel(l)|
    ensures RequestedTime(wf, coreSpeed, l, l + 1) == LongestTask(wf.tasksInLevel(l), wf.flops, coreSpeed)
    ensures forall t :: t in RangeTasks(wf, l, l + 1) <==> t in wf.tasksInLevel(l) && wf.state(t) != Completed
  {
    assert RangeTasks(wf, l, l + 1) == Incomplete(wf.tasksInLevel(l), wf.state);
  }

  datatype Plan =
    | Idle                                                          // a placeholder is pending, or no level is left
    | TooWide(level: nat)                                           // the level has more tasks than hosts
    | Launch(start: nat, parallelism: nat, time: real, tasks: seq<TaskId>)

  /**
   * What `submitPilotJob` decides: nothing while a placeholder is pending or
   * once the next level is past the last one; otherwise the next level, one
   * host per task, the longest task's time and the level's unfinished tasks.
   */
  ghost function PlanSubmission(pending: Option<ZPlaceholder>, running: set<ZPlaceholder>, wf: WorkflowView,
                                numHosts: nat, coreSpeed: real): (plan: Plan)
    requires coreSpeed > 0.0
    ensures plan.Idle? <==> pending.Some? || NextStartLevel(running) >= wf.numLevels
    ensures plan.TooWide? ==> plan.level == NextStartLevel(running) && |wf.tasksInLevel(plan.level)| > numHosts
    ensures plan.Launch? ==> pending.None? && plan.start == NextStartLevel(running) < wf.numLevels
    ensures plan.Launch? ==> plan.parallelism == |wf.tasksInLevel(plan.start)| <= numHosts
    ensures plan.Launch? ==> plan.time == LongestTask(wf.tasksInLevel(plan.start), wf.flops, coreSpeed)
    ensures plan.Launch? ==>
      forall t :: t in plan.tasks <==> t in wf.tasksInLevel(plan.start) && wf.state(t) != Completed
  {
    if pending.Some? then Idle
    else
      var start := NextStartLevel(running);
      if start >= wf.numLevels then Idle
      else
        SingleLevel(wf, numHosts, coreSpeed, start);
        match FirstOversized(wf, numHosts, start, start + 1)
        case Some(l) => TooWide(l)
        case None =>
          Launch(start, Widest(wf, start, start + 1), RequestedTime(wf, coreSpeed, start, start + 1),
                 RangeTasks(wf, start, start + 1))
  }

  /** The pending placeholder after a submission planned as `plan`, its pilot getting the handle `next`. */
  function PendingAfter(plan: Plan, pending: Option<ZPlaceholder>, next: Handle): Option<ZPlaceholder>
  {
    if plan.Launch? then Some(ZPlaceholder(next, plan.tasks, plan.start, plan.start)) else pending
  }

  /** The pilot submission a plan makes: `-N parallelism -c 1 -t minutes`. */
  function LaunchLog(plan: Plan, next: Handle): seq<Effect>
    requires plan.Launch? ==> plan.time >= 0.0
  {
    if plan.Launch? then [SubmitPilot(next, plan.parallelism, 1, TimeMinutes(plan.time))] else []
  }

  function OutcomeOf(plan: Plan): Outcome
  {
    if plan.TooWide? then Failed(LevelTooWide(plan.level)) else Done
  }

  /** The parallelism loop: the widest level of `[start, end]`, unless a level has more tasks than hosts. */
  method LevelWidth(wf: WorkflowView, numHosts: nat, start: nat, end: nat) returns (r: Result<nat, ZhangError>)
    requires start <= end
    ensures match FirstOversized(wf, numHosts, start, end + 1)
      case Some(l) => r == Failure(LevelTooWide(l))
      case None => r == Success(Widest(wf, start, end + 1))
  {
    var parallelism := 0;
    var l := start;
    while l <= end
      invariant start <= l <= end + 1
      invariant parallelism == Widest(wf, start, l)
      invariant FirstOversized(wf, numHosts, start, end + 1) == FirstOversized(wf, numHosts, l, end + 1)
    {
      var n := |wf.tasksInLevel(l)|;
      if n > numHosts {
        return Failure(LevelTooWide(l));
      }
      parallelism := Max(parallelism, n);
      l := l + 1;
    }
    return Success(parallelism);
  }

  /** The requested-time loops: per level the longest `flops / core_speed`, summed over `[start, end]`. */
  method RequestTime(wf: WorkflowView, coreSpeed: real, start: nat, end: nat) returns (time: real)
    requires coreSpeed > 0.0 && start <= end
    ensures time == RequestedTime(wf, coreSpeed, start, end + 1)
  {
    time := 0.0;
    var l := start;
    while l <= end
      invariant start <= l <= end + 1
      invariant time == RequestedTime(wf, coreSpeed, start, l)
    {
      var longest := 0.0;
      var tasks := wf.tasksInLevel(l);
      var i := 0;
      while i < |tasks|
        invariant 0 <= i <= |tasks|
        invariant longest == LongestTask(tasks[..i], wf.flops, coreSpeed)
      {
        assert tasks[..i + 1][..i] == tasks[..i];
        longest := RMax(longest, wf.flops(tasks[i]) as real / coreSpeed);
        i := i + 1;
      }
      assert tasks[..i] == tasks;
      time := time + longest;
      l := l + 1;
    }
  }

  /** The aggregation loop: the tasks of `[start, end]` that are not COMPLETED. */
  method AggregateTasks(wf: WorkflowView, start: nat, end: nat) returns (tasks: seq<TaskId>)
    requires start <= end
    ensures tasks == RangeTasks(wf, start, end + 1)
  {
    tasks := [];
    var l := start;
    while l <= end
      invariant start <= l <= end + 1
      invariant tasks == RangeTasks(wf, start, l)
    {
      var rest := IncompleteTasks(wf.tasksInLevel(l), wf.state);
      assert RangeTasks(wf, start, l + 1) == RangeTasks(wf, start, l) + rest;
      tasks := tasks + rest;
      l := l + 1;
    }
  }

  /**
   * submitPilotJob with the pending placeholder and its pilot created before
   * that pilot is submitted. The result is the new pending placeholder, the
   * requests made and the outcome.
   */
  method Submit(pending: Option<ZPlaceholder>, running: set<ZPlaceholder>, next: Handle, wf: WorkflowView,
                numHosts: nat, coreSpeed: real)
    returns (pending2: Option<ZPlaceholder>, launched: seq<Effect>, outcome: Outcome)
    requires coreSpeed > 0.0
    ensures var plan := PlanSubmission(pending, running, wf, numHosts, coreSpeed);
      && pending2 == PendingAfter(plan, pending, next)
      && launched == LaunchLog(plan, next)
      && outcome == OutcomeOf(plan)
  {
    if pending.Some? {
      return pending, [], Done;
    }
    var start := StartLevel(running);
    var end := start;
    if start >= wf.numLevels {
      return pending, [], Done;
    }
    var width := LevelWidth(wf, numHosts, start, end);
    if width.Failure? {
      return pending, [], Failed(width.error);
    }
    var time := RequestTime(wf, coreSpeed, start, end);
    var tasks := AggregateTasks(wf, start, end);
    pending2 := Some(ZPlaceholder(next, tasks, start, end));
    launched := [SubmitPilot(next, width.value, 1, TimeMinutes(time))];
    outcome := Done;
  }

  /** The pilot a launch submits is the one of the placeholder that becomes pending, sized for the next level. */
  lemma LaunchSubmitsPendingPilot(pending: Option<ZPlaceholder>, running: set<ZPlaceholder>, wf: WorkflowView,
                                  numHosts: nat, coreSpeed: real, next: Handle)
    requires coreSpeed > 0.0
    ensures var plan := PlanSubmission(pending, running, wf, numHosts, coreSpeed);
      plan.Launch? ==>
        var p := PendingAfter(plan, pending, next).value;
        var level := wf.tasksInLevel(p.startLevel);
        && p.pilot == next
        && p.startLevel == p.endLevel == NextStartLevel(running)
        && LaunchLog(plan, next)
           == [SubmitPilot(p.pilot, |level|, 1, TimeMinutes(LongestTask(level, wf.flops, coreSpeed)))]
  {
  }

  // ---------------------------------------------------------------------
  // The line 121 defect
  // ---------------------------------------------------------------------

  datatype AsWritten = NothingSubmitted | Threw(error: ZhangError) | SubmittedPilotOf(pilot: Handle)

  /**
   * submitPilotJob as written: once the plan is to launch, the pilot of the
   * pending placeholder is submitted before any placeholder is created.
   */
  ghost function SubmitAsWritten(pending: Option<ZPlaceholder>, running: set<ZPlaceholder>, wf: WorkflowView,
                                 numHosts: nat, coreSpeed: real): AsWritten
    requires coreSpeed > 0.0
  {
    match PlanSubmission(pending, running, wf, numHosts, coreSpeed)
    case Idle => NothingSubmitted
    case TooWide(l) => Threw(LevelTooWide(l))
    case Launch(_, _, _, _) =>
      if pending.None? then Threw(NullPendingPlaceholder) else SubmittedPilotOf(pending.value.pilot)
  }

  /** As written, no pilot is ever submitted: every launch reads the pending placeholder while there is none. */
  lemma AsWrittenNeverSubmits(pending: Option<ZPlaceholder>, running: set<ZPlaceholder>, wf: WorkflowView,
                              numHosts: nat, coreSpeed: real)
    requires coreSpeed > 0.0
    ensures !SubmitAsWritten(pending, running, wf, numHosts, coreSpeed).SubmittedPilotOf?
    ensures PlanSubmission(pending, running, wf, numHosts, coreSpeed).Launch? ==>
      SubmitAsWritten(pending, running, wf, numHosts, coreSpeed) == Threw(NullPendingPlaceholder)
  {
  }

  /** The first call of a two-level workflow with one task on level 1: as written it fails, corrected it launches. */
  lemma FirstSubmissionDereferencesNull()
    ensures var wf := WorkflowView(2, l => if l == 1 then [7] else [], t => Ready, t => {}, t => 0);
      && PlanSubmission(None, {}, wf, 1, 1.0) == Launch(1, 1, 0.0, [7])
      && SubmitAsWritten(None, {}, wf, 1, 1.0) == Threw(NullPendingPlaceholder)
  {
    var wf := WorkflowView(2, l => if l == 1 then [7] else [], t => Ready, t => {}, t => 0);
    assert EndLevels({}) == {};
    assert NextStartLevel({}) == 1;
    assert Incomplete([7], wf.state) == [7] by {
      assert [7][..0] == [];
    }
    assert LongestTask([7], wf.flops, 1.0) == 0.0 by {
      assert [7][..0] == [];
    }
  }

  // ---------------------------------------------------------------------
  // The expiration handler's loops
  // ---------------------------------------------------------------------

  /** The search for the running placeholder of an expired pilot; it stops at the first one. */
  method FindPilot(running: set<ZPlaceholder>, pilot: Handle) returns (found: Option<ZPlaceholder>)
    ensures found.Some? ==> found.value in running && found.value.pilot == pilot
    ensures found.None? ==> forall ph :: ph in running ==> ph.pilot != pilot
  {
    var todo := running;
    while todo != {}
      invariant todo <= running
      invariant forall ph :: ph in running - todo ==> ph.pilot != pilot
    {
      var ph :| ph in todo;
      if ph.pilot == pilot {
        return Some(ph);
      }
      todo := todo - {ph};
    }
    return None;
  }

  /** The `unprocessed` loop: some task is not COMPLETED. */
  method HasUnprocessed(tasks: seq<TaskId>, state: TaskId -> TaskState) returns (unprocessed: bool)
    ensures unprocessed <==> !AllCompleted(tasks, state)
  {
    unprocessed := false;
    var i := 0;
    while i < |tasks|
      invariant 0 <= i <= |tasks|
      invariant unprocessed <==> exists j :: 0 <= j < i && state(tasks[j]) != Completed
    {
      if state(tasks[i]) != Completed {
        unprocessed := true;
      }
      i := i + 1;
    }
  }

  /** None of `tasks` has left NOT_READY. */
  predicate NoneStarted(tasks: seq<TaskId>, state: TaskId -> TaskState)
  {
    forall i :: 0 <= i < |tasks| ==> state(tasks[i]) == NotReady
  }

  /** The `started` loop: some task has left NOT_READY. */
  method HasStarted(tasks: seq<TaskId>, state: TaskId -> TaskState) returns (started: bool)
    ensures started <==> !NoneStarted(tasks, state)
  {
    started := false;
    var i := 0;
    while i < |tasks|
      invariant 0 <= i <= |tasks|
      invariant started <==> exists j :: 0 <= j < i && state(tasks[j]) != NotReady
    {
      if state(tasks[i]) != NotReady {
        started := true;
      }
      i := i + 1;
    }
  }

  ghost function UnstartedOf(running: set<ZPlaceholder>, state: TaskId -> TaskState): set<ZPlaceholder>
  {
    set ph | ph in running && NoneStarted(ph.tasks, state)
  }


  ghost function Cancellations(phs: set<ZPlaceholder>): set<Effect>
  {
    set ph | ph in phs :: Terminate(ph.pilot)
  }

  /** One turn of the cancelling loop keeps its bookkeeping. */
  lemma CancelStep(seen: set<ZPlaceholder>, toRemove: set<ZPlaceholder>, cancels: seq<Effect>, ph: ZPlaceholder,
                   state: TaskId -> TaskState)
    requires ph !in seen && toRemove == UnstartedOf(seen, state)
    requires ToSet(cancels) == Cancellations(toRemove) && |cancels| == |toRemove|
    ensures NoneStarted(ph.tasks, state) ==>
      var removed, cancelled := toRemove + {ph}, cancels + [Terminate(ph.pilot)];
      && removed == UnstartedOf(seen + {ph}, state)
      && ToSet(cancelled) == Cancellations(removed)
      && |cancelled| == |removed|
    ensures !NoneStarted(ph.tasks, state) ==> toRemove == UnstartedOf(seen + {ph}, state)
  {
    if NoneStarted(ph.tasks, state) {
      assert ph !in toRemove;
      assert ToSet(cancels + [Terminate(ph.pilot)]) == ToSet(cancels) + {Terminate(ph.pilot)};
    }
  }

  /**
   * The cancelling loop: every running placeholder with no started task has
   * its pilot terminated, one request each, and is collected for removal.
   */
  method CancelUnstarted(running: set<ZPlaceholder>, state: TaskId -> TaskState)
    returns (toRemove: set<ZPlaceholder>, cancels: seq<Effect>)
    ensures toRemove == UnstartedOf(running, state)
    ensures ToSet(cancels) == Cancellations(toRemove)
    ensures |cancels| == |toRemove|
  {
    toRemove, cancels := {}, [];
    var todo := running;
    ghost var seen: set<ZPlaceholder> := {};
    while todo != {}
      invariant seen + todo == running && seen !! todo
      invariant toRemove == UnstartedOf(seen, state)
      invariant ToSet(cancels) == Cancellations(toRemove)
      invariant |cancels| == |toRemove|
    {
      var ph :| ph in todo;
      var started := HasStarted(ph.tasks, state);
      CancelStep(seen, toRemove, cancels, ph, state);
      if !started {
        cancels := cancels + [Terminate(ph.pilot)];
        toRemove := toRemove + {ph};
      }
      seen := seen + {ph};
      todo := todo - {ph};
    }
  }

  /** The erasing loop. */
  method EraseAll(running: set<ZPlaceholder>, toRemove: set<ZPlaceholder>) returns (rest: set<ZPlaceholder>)
    ensures rest == running - toRemove
  {
    rest := running;
    var todo := toRemove;
    while todo != {}
      invariant rest == running - (toRemove - todo)
      invariant todo <= toRemove
    {
      var ph :| ph in todo;
      rest := rest - {ph};
      todo := todo - {ph};
    }
  }

  /** How many requests the cancelling part of an expiration makes. */
  ghost function CancelCount(pending: Option<ZPlaceholder>, running: set<ZPlaceholder>, state: TaskId -> TaskState): nat
  {
    (if pending.Some? then 1 else 0) + |UnstartedOf(running, state)|
  }

  /**
   * The cancelling part of an expiration, from `log` and `running` to
   * `log2` and `running2`: the pending pilot, if any, is terminated first;
   * then each running placeholder with no started task is terminated, once,
   * and dropped; nothing else is.
   */
  ghost predicate Cancelled(pending: Option<ZPlaceholder>, running: set<ZPlaceholder>, log: seq<Effect>,
                            running2: set<ZPlaceholder>, log2: seq<Effect>, state: TaskId -> TaskState)
  {
    var cancelled := UnstartedOf(running, state);
    var c1 := |log| + (if pending.Some? then 1 else 0);
    var c2 := |log| + CancelCount(pending, running, state);
    && running2 == running - cancelled
    && c2 <= |log2|
    && log2[..|log|] == log
    && (pending.Some? ==> log2[|log|] == Terminate(pending.value.pilot))
    && ToSet(log2[c1..c2]) == Cancellations(cancelled)
  }

  /** Requests made after the cancelling part do not disturb it. */
  lemma CancelledExtends(pending: Option<ZPlaceholder>, running: set<ZPlaceholder>, log: seq<Effect>,
                         running2: set<ZPlaceholder>, log2: seq<Effect>, more: seq<Effect>, state: TaskId -> TaskState)
    requires Cancelled(pending, running, log, running2, log2, state)
    requires |log2| == |log| + CancelCount(pending, running, state)
    ensures Cancelled(pending, running, log, running2, log2 + more, state)
    ensures (log2 + more)[|log| + CancelCount(pending, running, state)..] == more
  {
    var c2 := |log| + CancelCount(pending, running, state);
    assert (log2 + more)[..c2] == log2;
  }

  /** Lines 193-219: terminate the pending pilot, then cancel and erase the running placeholders that have not started. */
  method CancelIdle(pending: Option<ZPlaceholder>, running: set<ZPlaceholder>, log: seq<Effect>, state: TaskId -> TaskState)
    returns (running2: set<ZPlaceholder>, log2: seq<Effect>)
    ensures Cancelled(pending, running, log, running2, log2, state)
    ensures |log2| == |log| + CancelCount(pending, running, state)
  {
    var cancelPending := if pending.Some? then [Terminate(pending.value.pilot)] else [];
    var toRemove, cancels := CancelUnstarted(running, state);
    running2 := EraseAll(running, toRemove);
    log2 := log + cancelPending + cancels;
    assert log2[..|log|] == log;
    assert log2[|log| + |cancelPending|..|log| + |cancelPending| + |cancels|] == cancels;
  }

  // ---------------------------------------------------------------------
  // The completion handler's loops
  // ---------------------------------------------------------------------

  /** The search for a running placeholder holding `task`; the last one visited wins. */
  method FindHolder(running: set<ZPlaceholder>, task: TaskId) returns (found: Option<ZPlaceholder>)
    ensures found.Some? ==> found.value in running && task in found.value.tasks
    ensures found.None? ==> forall ph :: ph in running ==> task !in ph.tasks
  {
    found := None;
    var todo := running;
    while todo != {}
      invariant todo <= running
      invariant found.Some? ==> found.value in running && task in found.value.tasks
      invariant found.None? ==> forall ph :: ph in running - todo ==> task !in ph.tasks
    {
      var ph :| ph in todo;
      var holds := Contains(ph.tasks, task);
      if holds {
        found := Some(ph);
      }
      todo := todo - {ph};
    }
  }

  /** The standard-job submissions of the READY tasks among `children`, each to the pilot of a running placeholder holding it. */
  ghost function Releases(running: set<ZPlaceholder>, children: set<TaskId>, state: TaskId -> TaskState): set<Effect>
  {
    set ph, t | ph in running && t in ph.tasks && t in children && state(t) == Ready :: SubmitTask(t, ph.pilot)
  }

  lemma ReleasesAdd(seen: set<ZPlaceholder>, ph: ZPlaceholder, children: set<TaskId>, state: TaskId -> TaskState)
    ensures Releases(seen + {ph}, children, state)
      == Releases(seen, children, state) + ToSet(SubmitReady(ph.tasks, Among(children), state, ph.pilot))
  {
    var effs := SubmitReady(ph.tasks, Among(children), state, ph.pilot);
    forall e | e in ToSet(effs) ensures e in Releases(seen + {ph}, children, state) {
      assert e in effs;
    }
  }

  /** The submissions made while visiting one running placeholder, with their multiplicity. */
  ghost function ChildSubmissions(children: set<TaskId>, state: TaskId -> TaskState): ZPlaceholder -> multiset<Effect>
  {
    (ph: ZPlaceholder) => multiset(SubmitReady(ph.tasks, Among(children), state, ph.pilot))
  }

  /** The releases of `Releases`, counted once per occurrence of the task in a holder's list. */
  ghost function ReleaseCounts(running: set<ZPlaceholder>, children: set<TaskId>, state: TaskId -> TaskState): multiset<Effect>
  {
    BagSum(running, ChildSubmissions(children, state))
  }

  /**
   * With distinct pilots, a running placeholder's pilot receives each READY
   * child as many times as the placeholder's list holds it.
   */
  lemma {:induction false} ReleaseCountsHeld(running: set<ZPlaceholder>, children: set<TaskId>, state: TaskId -> TaskState,
                                             ph: ZPlaceholder, t: TaskId)
    requires ph in running
    requires forall a, b :: a in running && b in running && a.pilot == b.pilot ==> a == b
    ensures ReleaseCounts(running, children, state)[SubmitTask(t, ph.pilot)]
      == if t in children && state(t) == Ready then multiset(ph.tasks)[t] else 0
  {
    var f := ChildSubmissions(children, state);
    forall q | q in running && q != ph ensures f(q)[SubmitTask(t, ph.pilot)] == 0 {
      SubmitReadyCount(q.tasks, Among(children), state, q.pilot, t, ph.pilot);
    }
    BagSumSingle(running, f, ph, SubmitTask(t, ph.pilot));
    SubmitReadyCount(ph.tasks, Among(children), state, ph.pilot, t, ph.pilot);
  }

  /** A pilot of no running placeholder receives nothing. */
  lemma {:induction false} ReleaseCountsOther(running: set<ZPlaceholder>, children: set<TaskId>, state: TaskId -> TaskState,
                                              t: TaskId, p: Handle)
    requires forall ph :: ph in running ==> ph.pilot != p
    ensures ReleaseCounts(running, children, state)[SubmitTask(t, p)] == 0
  {
    var f := ChildSubmissions(children, state);
    forall q | q in running ensures f(q)[SubmitTask(t, p)] == 0 {
      SubmitReadyCount(q.tasks, Among(children), state, q.pilot, t, p);
    }
    BagSumNone(running, f, SubmitTask(t, p));
  }

  /** The loops over every running placeholder that submit the READY children of the completed task. */
  method ReleaseChildren(running: set<ZPlaceholder>, children: set<TaskId>, state: TaskId -> TaskState)
    returns (effs: seq<Effect>)
    ensures ToSet(effs) == Releases(running, children, state)
    ensures multiset(effs) == ReleaseCounts(running, children, state)
  {
    effs := [];
    var todo := running;
    ghost var seen: set<ZPlaceholder> := {};
    while todo != {}
      invariant seen + todo == running && seen !! todo
      invariant ToSet(effs) == Releases(seen, children, state)
      invariant multiset(effs) == ReleaseCounts(seen, children, state)
    {
      var ph :| ph in todo;
      var submitted := ReadySubmissions(ph.tasks, Among(children), state, ph.pilot);
      assert ToSet(effs + submitted) == ToSet(effs) + ToSet(submitted);
      effs := effs + submitted;
      ReleasesAdd(seen, ph, children, state);
      BagSumRemove(seen + {ph}, ChildSubmissions(children, state), ph);
      assert seen + {ph} - {ph} == seen;
      seen := seen + {ph};
      todo := todo - {ph};
    }
  }

  // ---------------------------------------------------------------------
  // Invariant
  // ---------------------------------------------------------------------

  /**
   * Every placeholder covers one level, below `ULONG_MAX` so that the next
   * start level does not wrap; pilots in use are below `next` and no two
   * placeholders share one; two running placeholders never cover the same
   * level, and the pending one covers a level above every running one.
   */
  ghost predicate Tracked(pending: Option<ZPlaceholder>, running: set<ZPlaceholder>, next: Handle)
  {
    && (forall ph :: ph in running ==>
          ph.pilot < next && ph.startLevel == ph.endLevel && ph.endLevel < ULONG_MAX)
    && (forall a, b :: a in running && b in running && a.pilot == b.pilot ==> a == b)
    && (forall a, b :: a in running && b in running && a.startLevel == b.startLevel ==> a == b)
    && (pending.Some? ==>
          && pending.value.pilot < next
          && pending.value.startLevel == pending.value.endLevel < ULONG_MAX
          && forall ph :: ph in running ==> ph.pilot != pending.value.pilot && ph.endLevel < pending.value.startLevel)
  }

  /** A launch keeps the invariant: the new placeholder's level and pilot are above all others. */
  lemma LaunchKeepsTracked(pending: Option<ZPlaceholder>, running: set<ZPlaceholder>, next: Handle, wf: WorkflowView,
                           numHosts: nat, coreSpeed: real)
    requires coreSpeed > 0.0 && Tracked(pending, running, next)
    ensures var plan := PlanSubmission(pending, running, wf, numHosts, coreSpeed);
      Tracked(PendingAfter(plan, pending, next), running, next + |LaunchLog(plan, next)|)
  {
  }

  /** Moving the pending placeholder to running keeps the invariant. */
  lemma StartKeepsTracked(ph: ZPlaceholder, running: set<ZPlaceholder>, next: Handle)
    requires Tracked(Some(ph), running, next)
    ensures Tracked(None, running + {ph}, next)
  {
  }

  /** Dropping running placeholders keeps the invariant. */
  lemma ShrinkKeepsTracked(pending: Option<ZPlaceholder>, running: set<ZPlaceholder>, kept: set<ZPlaceholder>, next: Handle)
    requires Tracked(pending, running, next) && kept <= running
    ensures Tracked(pending, kept, next)
  {
  }

  // ---------------------------------------------------------------------
  // The controller
  // ---------------------------------------------------------------------

  class ZhangClusteringWms {
    const numHosts: nat
    const coreSpeed: real
    var pending: Option<ZPlaceholder>
    var running: set<ZPlaceholder>
    var jobLog: seq<Effect>
    var nextPilot: Handle

    ghost predicate Valid()
      reads this
    {
      coreSpeed > 0.0 && Tracked(pending, running, nextPilot)
    }

    /** The batch service's host count and core speed, which `main` reads before the event loop. */
    constructor (numHosts: nat, coreSpeed: real)
      requires coreSpeed > 0.0
      ensures Valid()
      ensures this.numHosts == numHosts && this.coreSpeed == coreSpeed
      ensures pending == None && running == {} && jobLog == [] && nextPilot == 0
    {
      this.numHosts := numHosts;
      this.coreSpeed := coreSpeed;
      pending := None;
      running := {};
      jobLog := [];
      nextPilot := 0;
    }

    /** Stores the state a handler computed; it must keep the invariant. */
    method Commit(p: Option<ZPlaceholder>, r: set<ZPlaceholder>, log: seq<Effect>, next: Handle)
      requires coreSpeed > 0.0 && Tracked(p, r, next)
      modifies this
      ensures Valid()
      ensures pending == p && running == r && jobLog == log && nextPilot == next
    {
      pending, running, jobLog, nextPilot := p, r, log, next;
    }

    /**
     * submitPilotJob, corrected at line 121: when the plan is to launch, the
     * new placeholder becomes pending and its own, fresh pilot is submitted.
     */
    method SubmitPilotJob(wf: WorkflowView) returns (outcome: Outcome)
      requires Valid()
      modifies this
      ensures Valid()
      ensures var plan := PlanSubmission(old(pending), old(running), wf, numHosts, coreSpeed);
        && pending == PendingAfter(plan, old(pending), old(nextPilot))
        && running == old(running)
        && jobLog == old(jobLog) + LaunchLog(plan, old(nextPilot))
        && nextPilot == old(nextPilot) + |LaunchLog(plan, old(nextPilot))|
        && outcome == OutcomeOf(plan)
    {
      var p, launched;
      p, launched, outcome := Submit(pending, running, nextPilot, wf, numHosts, coreSpeed);
      LaunchKeepsTracked(pending, running, nextPilot, wf, numHosts, coreSpeed);
      Commit(p, running, jobLog + launched, nextPilot + |launched|);
    }

    /**
     * processEventPilotJobStart: the started pilot must be the pending one;
     * its placeholder moves to running, each of its READY tasks is submitted
     * to it, and the next level is planned.
     */
    method ProcessEventPilotJobStart(pilot: Handle, wf: WorkflowView) returns (outcome: Outcome)
      requires Valid()
      modifies this
      ensures Valid()
      ensures old(pending).None? || old(pending).value.pilot != pilot ==>
        outcome == Failed(NotThePendingPilot) && unchanged(this)
      ensures old(pending).Some? && old(pending).value.pilot == pilot ==>
        var ph := old(pending).value;
        var moved := old(running) + {ph};
        var plan := PlanSubmission(None, moved, wf, numHosts, coreSpeed);
        && running == moved
        && jobLog == old(jobLog) + SubmitReady(ph.tasks, Every, wf.state, pilot) + LaunchLog(plan, old(nextPilot))
        && pending == PendingAfter(plan, None, old(nextPilot))
        && nextPilot == old(nextPilot) + |LaunchLog(plan, old(nextPilot))|
        && outcome == OutcomeOf(plan)
    {
      if pending.None? || pending.value.pilot != pilot {
        return Failed(NotThePendingPilot);
      }
      var ph := pending.value;
      var moved := running + {ph};
      StartKeepsTracked(ph, running, nextPilot);
      var submitted := ReadySubmissions(ph.tasks, Every, wf.state, ph.pilot);
      var p, launched;
      p, launched, outcome := Submit(None, moved, nextPilot, wf, numHosts, coreSpeed);
      LaunchKeepsTracked(None, moved, nextPilot, wf, numHosts, coreSpeed);
      Commit(p, moved, jobLog + submitted + launched, nextPilot + |launched|);
    }

    /**
     * processEventPilotJobExpiration: the expired pilot must be a running
     * one. If all its tasks are COMPLETED nothing happens. Otherwise the
     * pending pilot, if any, is terminated (its placeholder stays pending),
     * every running placeholder none of whose tasks has started is
     * terminated and dropped, and the next level is planned.
     */
    method ProcessEventPilotJobExpiration(pilot: Handle, wf: WorkflowView)
      returns (outcome: Outcome, located: Option<ZPlaceholder>)
      requires Valid()
      modifies this
      ensures Valid()
      ensures located.None? ==>
        outcome == Failed(NoRunningPlaceholder) && unchanged(this)
        && forall ph :: ph in old(running) ==> ph.pilot != pilot
      ensures located.Some? ==> located.value in old(running) && located.value.pilot == pilot
      ensures located.Some? && AllCompleted(located.value.tasks, wf.state) ==> outcome == Done && unchanged(this)
      ensures located.Some? && !AllCompleted(located.value.tasks, wf.state) ==>
        var plan := PlanSubmission(old(pending), old(running) - UnstartedOf(old(running), wf.state), wf, numHosts, coreSpeed);
        && Cancelled(old(pending), old(running), old(jobLog), running, jobLog, wf.state)
        && jobLog[|old(jobLog)| + CancelCount(old(pending), old(running), wf.state)..] == LaunchLog(plan, old(nextPilot))
        && pending == PendingAfter(plan, old(pending), old(nextPilot))
        && nextPilot == old(nextPilot) + |LaunchLog(plan, old(nextPilot))|
        && outcome == OutcomeOf(plan)
    {
      located := FindPilot(running, pilot);
      if located.None? {
        return Failed(NoRunningPlaceholder), located;
      }
      var unprocessed := HasUnprocessed(located.value.tasks, wf.state);
      if !unprocessed {
        return Done, located;
      }
      var kept, log := CancelIdle(pending, running, jobLog, wf.state);
      ShrinkKeepsTracked(pending, running, kept, nextPilot);
      var p, launched;
      p, launched, outcome := Submit(pending, kept, nextPilot, wf, numHosts, coreSpeed);
      LaunchKeepsTracked(pending, kept, nextPilot, wf, numHosts, coreSpeed);
      CancelledExtends(pending, running, jobLog, kept, log, launched, wf.state);
      Commit(p, kept, log + launched, nextPilot + |launched|);
    }

    /**
     * processEventStandardJobCompletion: the completed task must belong to a
     * running placeholder; each of its READY children is submitted to the
     * pilot of every running placeholder holding it. Nothing else changes.
     */
    method ProcessEventStandardJobCompletion(task: TaskId, wf: WorkflowView)
      returns (outcome: Outcome, located: Option<ZPlaceholder>)
      requires Valid()
      modifies this
      ensures Valid()
      ensures located.None? ==>
        outcome == Failed(NoPlaceholderForTask) && unchanged(this)
        && forall ph :: ph in old(running) ==> task !in ph.tasks
      ensures located.Some? ==>
        && located.value in old(running) && task in located.value.tasks
        && outcome == Done
        && pending == old(pending) && running == old(running) && nextPilot == old(nextPilot)
        && |old(jobLog)| <= |jobLog| && jobLog[..|old(jobLog)|] == old(jobLog)
        && ToSet(jobLog[|old(jobLog)|..]) == Releases(old(running), wf.children(task), wf.state)
        && multiset(jobLog[|old(jobLog)|..]) == ReleaseCounts(old(running), wf.children(task), wf.state)
    {
      located := FindHolder(running, task);
      if located.None? {
        return Failed(NoPlaceholderForTask), located;
      }
      var submitted := ReleaseChildren(running, wf.children(task), wf.state);
      var log := jobLog + submitted;
      assert log[..|jobLog|] == jobLog && log[|jobLog|..] == submitted;
      Commit(pending, running, log, nextPilot);
      outcome := Done;
    }

    /** processEventStandardJobFailure: the failure is ignored. */
    method ProcessEventStandardJobFailure(task: TaskId) returns (outcome: Outcome)
      requires Valid()
      ensures outcome == Done
    {
      outcome := Done;
    }
  }
}

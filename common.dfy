/**
 * Vocabulary shared by both placeholder-job controllers and the spec parsers:
 * tasks and their states as the workflow provider reports them, pilot-job
 * handles, and the log of requests made to the job manager.
 */
module Common {

  datatype Option<T> = None | Some(value: T)

  datatype Result<T, E> = Success(value: T) | Failure(error: E)

  /** The largest `unsigned long` on the 64-bit platforms the simulator runs on. */
  const ULONG_MAX: nat := 0xFFFF_FFFF_FFFF_FFFF

  type u64 = x: int | 0 <= x <= ULONG_MAX

  type TaskId = nat

  datatype TaskState = NotReady | Ready | Completed

  /** An opaque pilot-job handle as returned by the job manager. */
  type Handle = nat

  /** One request made to the job manager; controllers append these to a log. */
  datatype Effect =
    | SubmitPilot(pilot: Handle, nodes: nat, coresPerNode: nat, minutes: nat)
    | SubmitTask(task: TaskId, pilot: Handle)
    | Terminate(pilot: Handle)

  /**
   * What a controller may ask the workflow provider at the moment an event is
   * handled: the number of top levels, the tasks of one top level, each task's
   * state, its children and its cost.
   */
  datatype WorkflowView = WorkflowView(
    numLevels: u64,
    tasksInLevel: nat -> seq<TaskId>,
    state: TaskId -> TaskState,
    children: TaskId -> set<TaskId>,
    flops: TaskId -> nat)

  function Min(a: nat, b: nat): (m: nat)
    ensures m <= a && m <= b && (m == a || m == b)
  {
    if a <= b then a else b
  }

  function Max(a: nat, b: nat): (m: nat)
    ensures a <= m && b <= m && (m == a || m == b)
  {
    if a <= b then b else a
  }

  /** The largest element of a non-empty set of naturals. */
  ghost function MaxOf(s: set<nat>): (m: nat)
    requires s != {}
    ensures m in s && forall x :: x in s ==> x <= m
  {
    var x :| x in s;
    if s == {x} then x
    else
      var m := MaxOf(s - {x});
      assert forall y :: y in s ==> y == x || y in s - {x};
      Max(x, m)
  }

  lemma MaxOfAdd(s: set<nat>, x: nat)
    ensures MaxOf(s + {x}) == if s == {} then x else Max(MaxOf(s), x)
  {
    if s != {} {
      var m := MaxOf(s + {x});
      assert m in s || m == x;
    }
  }

  /**
   * The `-t` argument of a pilot submission: `1 + seconds / 60` minutes.
   * The reservation is never shorter than the duration and exceeds it by at
   * most one minute.
   */
  function WalltimeMinutes(seconds: nat): (minutes: nat)
    ensures minutes >= 1
    ensures seconds < minutes * 60 <= seconds + 60
  {
    1 + seconds / 60
  }

  function ToSet<T>(s: seq<T>): set<T>
  {
    set x | x in s
  }

  /** Appending to a log keeps what it held before. */
  lemma AppendKeepsPrefix<T>(a: seq<T>, b: seq<T>, n: nat)
    requires n <= |a|
    ensures (a + b)[..n] == a[..n] && (a + b)[|a|..] == b
  {
  }

  /** Which tasks of a placeholder a submission loop looks at: all of them, or only the children of a completed task. */
  datatype Selection = Every | Among(children: set<TaskId>)

  predicate Selects(sel: Selection, t: TaskId)
  {
    sel.Every? || t in sel.children
  }

  /**
   * The standard-job submissions made when a loop walks `tasks` in order and
   * submits to `pilot` every selected task that is READY.
   */
  function SubmitReady(tasks: seq<TaskId>, sel: Selection, state: TaskId -> TaskState, pilot: Handle): (effs: seq<Effect>)
    ensures |effs| <= |tasks|
    ensures forall e :: e in effs ==>
      e.SubmitTask? && e.pilot == pilot && e.task in tasks && Selects(sel, e.task) && state(e.task) == Ready
    ensures forall t :: t in tasks && Selects(sel, t) && state(t) == Ready ==> SubmitTask(t, pilot) in effs
  {
    if tasks == [] then []
    else
      var t := tasks[|tasks| - 1];
      var front := tasks[..|tasks| - 1];
      assert tasks == front + [t];
      SubmitReady(front, sel, state, pilot)
        + (if Selects(sel, t) && state(t) == Ready then [SubmitTask(t, pilot)] else [])
  }

  /** The submission loop itself: one standard job per selected READY task, in task order. */
  method ReadySubmissions(tasks: seq<TaskId>, sel: Selection, state: TaskId -> TaskState, pilot: Handle)
    returns (effs: seq<Effect>)
    ensures effs == SubmitReady(tasks, sel, state, pilot)
  {
    effs := [];
    var i := 0;
    while i < |tasks|
      invariant 0 <= i <= |tasks|
      invariant effs == SubmitReady(tasks[..i], sel, state, pilot)
    {
      var t := tasks[i];
      assert tasks[..i + 1][..i] == tasks[..i];
      assert SubmitReady(tasks[..i + 1], sel, state, pilot)
        == effs + (if Selects(sel, t) && state(t) == Ready then [SubmitTask(t, pilot)] else []);
      if Selects(sel, t) && state(t) == Ready {
        effs := effs + [SubmitTask(t, pilot)];
      }
      i := i + 1;
    }
    assert tasks[..i] == tasks;
  }

  /**
   * The submission requests of a loop over a set, counted with their
   * multiplicity: `f(y)` are the requests made for the member `y`, and the
   * order in which the loop visits the members does not matter.
   */
  ghost function BagSum<T>(s: set<T>, f: T -> multiset<Effect>): multiset<Effect>
    decreases |s|
  {
    if s == {} then multiset{}
    else
      var y :| y in s;
      BagSum(s - {y}, f) + f(y)
  }

  /** Whichever member is visited last, the total is the same. */
  lemma {:induction false} BagSumRemove<T>(s: set<T>, f: T -> multiset<Effect>, y: T)
    requires y in s
    ensures BagSum(s, f) == BagSum(s - {y}, f) + f(y)
    decreases |s|
  {
    var z :| z in s && BagSum(s, f) == BagSum(s - {z}, f) + f(z);
    if z != y {
      BagSumRemove(s - {z}, f, y);
      BagSumRemove(s - {y}, f, z);
      assert s - {z} - {y} == s - {y} - {z};
    }
  }

  /** When only the member `y0` can contribute a request `x`, the total holds `x` as often as `f(y0)` does. */
  lemma {:induction false} BagSumSingle<T>(s: set<T>, f: T -> multiset<Effect>, y0: T, x: Effect)
    requires forall y :: y in s && y != y0 ==> f(y)[x] == 0
    ensures BagSum(s, f)[x] == if y0 in s then f(y0)[x] else 0
    decreases |s|
  {
    if s != {} {
      var y := if y0 in s then y0 else var z :| z in s; z;
      BagSumRemove(s, f, y);
      BagSumSingle(s - {y}, f, y0, x);
    }
  }

  /** A request no member contributes is not in the total. */
  lemma {:induction false} BagSumNone<T>(s: set<T>, f: T -> multiset<Effect>, x: Effect)
    requires forall y :: y in s ==> f(y)[x] == 0
    ensures BagSum(s, f)[x] == 0
    decreases |s|
  {
    if s != {} {
      var y :| y in s;
      BagSumRemove(s, f, y);
      BagSumNone(s - {y}, f, x);
    }
  }

  /**
   * The submission loop submits a task to its pilot once per occurrence of
   * the task in the list when it is selected and READY, and never otherwise.
   */
  lemma {:induction false} SubmitReadyCount(tasks: seq<TaskId>, sel: Selection, state: TaskId -> TaskState,
                                            pilot: Handle, t: TaskId, p: Handle)
    ensures multiset(SubmitReady(tasks, sel, state, pilot))[SubmitTask(t, p)]
      == if p == pilot && Selects(sel, t) && state(t) == Ready then multiset(tasks)[t] else 0
  {
    if tasks != [] {
      var last := tasks[|tasks| - 1];
      var front := tasks[..|tasks| - 1];
      assert tasks == front + [last];
      SubmitReadyCount(front, sel, state, pilot, t, p);
    }
  }

  /** The linear search `for (auto task : tasks) if (task == t) ...`. */
  method Contains(tasks: seq<TaskId>, t: TaskId) returns (found: bool)
    ensures found <==> t in tasks
  {
    found := false;
    var i := 0;
    while i < |tasks|
      invariant 0 <= i <= |tasks|
      invariant t !in tasks[..i]
    {
      if tasks[i] == t {
        found := true;
        return;
      }
      assert tasks[..i + 1] == tasks[..i] + [tasks[i]];
      i := i + 1;
    }
    assert tasks[..i] == tasks;
  }

  /** The tasks of `tasks` that are not COMPLETED, in their original order. */
  function Incomplete(tasks: seq<TaskId>, state: TaskId -> TaskState): (rest: seq<TaskId>)
    ensures |rest| <= |tasks|
    ensures forall t :: t in rest <==> t in tasks && state(t) != Completed
  {
    if tasks == [] then []
    else
      var t := tasks[|tasks| - 1];
      var front := tasks[..|tasks| - 1];
      assert tasks == front + [t];
      Incomplete(front, state) + (if state(t) != Completed then [t] else [])
  }

  /** The loop that copies the tasks that are not COMPLETED into a new list. */
  method IncompleteTasks(tasks: seq<TaskId>, state: TaskId -> TaskState) returns (rest: seq<TaskId>)
    ensures rest == Incomplete(tasks, state)
  {
    rest := [];
    var i := 0;
    while i < |tasks|
      invariant 0 <= i <= |tasks|
      invariant rest == Incomplete(tasks[..i], state)
    {
      assert tasks[..i + 1][..i] == tasks[..i];
      if state(tasks[i]) != Completed {
        rest := rest + [tasks[i]];
      }
      i := i + 1;
    }
    assert tasks[..i] == tasks;
  }

  /** True when every task of `tasks` is COMPLETED. */
  predicate AllCompleted(tasks: seq<TaskId>, state: TaskId -> TaskState)
  {
    forall i :: 0 <= i < |tasks| ==> state(tasks[i]) == Completed
  }

  /** A restart has nothing to rerun exactly when every member is COMPLETED. */
  lemma {:induction false} IncompleteEmptyIffAllCompleted(tasks: seq<TaskId>, state: TaskId -> TaskState)
    ensures Incomplete(tasks, state) == [] <==> AllCompleted(tasks, state)
  {
    if Incomplete(tasks, state) == [] {
      forall i | 0 <= i < |tasks| ensures state(tasks[i]) == Completed {
        assert tasks[i] in tasks;
      }
    } else {
      var t := Incomplete(tasks, state)[0];
      assert t in Incomplete(tasks, state);
      var i :| 0 <= i < |tasks| && tasks[i] == t;
    }
  }
}

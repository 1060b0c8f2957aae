/** The scheduler's goroutines as interleaved atomic steps, one per critical section
    of farm/farm.go, with any number of workers and callers. */
module FarmProtocol {
  import opened FarmQueue
  import opened Results
  import opened Sorting

  /** Where a worker goroutine is: about to take the mutex in dequeue, at dequeue's
      select, running the task it was given, or returned. */
  datatype Worker = Scanning | Parked | Busy(task: nat) | Exited

  datatype Farm = Farm(tasks: seq<Task>, ready: bool, stopped: bool, workers: seq<Worker>)

  datatype Action =
    | Spawn                          // Start launches one worker
    | Submit(priority: int)
    | Cancel(id: nat)
    | Stop                           // closes the stop channel
    | Look(w: nat)                   // dequeue's locked scan
    | Wake(w: nat)                   // select receives the token
    | Leave(w: nat)                  // select sees the closed stop channel
    | Finish(w: nat, ok: bool)       // markDone

  const INITIAL := Farm([], false, false, [])

  predicate Enabled(f: Farm, a: Action) {
    match a
    case Spawn => true
    case Submit(_) => true
    case Cancel(id) => IsPending(f.tasks, id)
    case Stop => !f.stopped
    case Look(w) => w < |f.workers| && f.workers[w] == Scanning
    case Wake(w) => w < |f.workers| && f.workers[w] == Parked && f.ready
    case Leave(w) => w < |f.workers| && f.workers[w] == Parked && f.stopped
    case Finish(w, _) => w < |f.workers| && f.workers[w].Busy? && f.workers[w].task < |f.tasks|
  }

  function Step(f: Farm, a: Action): Farm
    requires Enabled(f, a)
  {
    match a
    case Spawn => f.(workers := f.workers + [Scanning])
    case Submit(p) => f.(tasks := f.tasks + [Task(p, Pending)], ready := true)
    case Cancel(id) => f.(tasks := SetState(f.tasks, id, Cancelled))
    case Stop => f.(stopped := true)
    case Look(w) =>
      (match Scan(f.tasks, |f.tasks|)
       case None => f.(workers := f.workers[w := Parked])
       case Some(b) => f.(tasks := SetState(f.tasks, b, Running), workers := f.workers[w := Busy(b)]))
    case Wake(w) => f.(ready := false, workers := f.workers[w := Scanning])
    case Leave(w) => f.(workers := f.workers[w := Exited])
    case Finish(w, ok) =>
      f.(tasks := SetState(f.tasks, f.workers[w].task, if ok then Succeeded else Failed),
         workers := f.workers[w := Scanning])
  }

  predicate CanRun(f: Farm, acts: seq<Action>)
    decreases |acts|
  {
    acts == [] || (Enabled(f, acts[0]) && CanRun(Step(f, acts[0]), acts[1..]))
  }

  function Run(f: Farm, acts: seq<Action>): Farm
    requires CanRun(f, acts)
    decreases |acts|
  {
    if acts == [] then f else Run(Step(f, acts[0]), acts[1..])
  }

  // ----- what every reachable state satisfies

  ghost predicate Holds(f: Farm, w: nat, t: nat) {
    w < |f.workers| && f.workers[w] == Busy(t)
  }

  /** A task runs exactly while one live worker holds it. */
  ghost predicate Ownership(f: Farm) {
    && (forall w: nat, t: nat :: Holds(f, w, t) ==> t < |f.tasks| && f.tasks[t].state == Running)
    && (forall t: nat :: t < |f.tasks| && f.tasks[t].state == Running ==> exists w: nat :: Holds(f, w, t))
    && (forall w: nat, v: nat, t: nat :: Holds(f, w, t) && Holds(f, v, t) ==> w == v)
  }

  /** No lost wake-up: while a task is pending, the token is set or some worker has
      yet to come back to the select. */
  ghost predicate NoLostWakeUp(f: Farm) {
    && (!f.stopped ==> Exited !in f.workers)
    && ((exists t: nat :: IsPending(f.tasks, t)) && f.workers != [] && !f.stopped ==>
          f.ready || exists w: nat :: w < |f.workers| && f.workers[w] != Parked)
  }

  lemma {:induction false} RunningStaysHeld(f: Farm, a: Action, t: nat)
    requires Ownership(f) && Enabled(f, a) && t < |Step(f, a).tasks| && Step(f, a).tasks[t].state == Running
    ensures exists w: nat :: Holds(Step(f, a), w, t)
  {
    var g := Step(f, a);
    if t < |f.tasks| && f.tasks[t].state == Running {
      var w: nat :| Holds(f, w, t);
      assert Holds(g, w, t);
    } else {
      assert a.Look? && Holds(g, a.w, t);
    }
  }

  lemma {:induction false} HeldStaysRunning(f: Farm, a: Action, w: nat, t: nat)
    requires Ownership(f) && Enabled(f, a) && Holds(Step(f, a), w, t)
    ensures t < |Step(f, a).tasks| && Step(f, a).tasks[t].state == Running
    ensures Holds(f, w, t) || (a.Look? && a.w == w)
  {
    if Holds(f, w, t) && a.Finish? && f.workers[a.w].task == t {
      assert Holds(f, a.w, t);
    }
  }

  lemma {:induction false} OwnershipStep(f: Farm, a: Action)
    requires Ownership(f) && Enabled(f, a)
    ensures Ownership(Step(f, a))
  {
    var g := Step(f, a);
    forall t: nat | t < |g.tasks| && g.tasks[t].state == Running ensures exists w: nat :: Holds(g, w, t) {
      RunningStaysHeld(f, a, t);
    }
    forall w: nat, t: nat | Holds(g, w, t) ensures t < |g.tasks| && g.tasks[t].state == Running {
      HeldStaysRunning(f, a, w, t);
    }
    forall w: nat, v: nat, t: nat | Holds(g, w, t) && Holds(g, v, t) ensures w == v {
      HeldStaysRunning(f, a, w, t);
      HeldStaysRunning(f, a, v, t);
    }
  }

  lemma WakeUpStep(f: Farm, a: Action)
    requires NoLostWakeUp(f) && Enabled(f, a)
    ensures NoLostWakeUp(Step(f, a))
  {
    var g := Step(f, a);
    if !g.stopped && g.workers != [] && !g.ready {
      if t: nat :| IsPending(g.tasks, t) {
        assert a.Spawn? || a.Cancel? || a.Look? || a.Wake? || a.Finish?;
        match a
        case Spawn => assert g.workers[|f.workers|] != Parked;
        case Cancel(_) => assert IsPending(f.tasks, t);
        case Look(w) =>
          assert g.workers[w] != Parked;
        case Wake(w) => assert g.workers[w] != Parked;
        case Finish(w, _) => assert g.workers[w] != Parked;
      }
    }
  }

  /** Both invariants hold in every state of every run. */
  lemma {:induction false} EveryReachableState(f: Farm, acts: seq<Action>)
    requires CanRun(f, acts) && Ownership(f) && NoLostWakeUp(f)
    ensures Ownership(Run(f, acts)) && NoLostWakeUp(Run(f, acts))
    decreases |acts|
  {
    if acts != [] {
      OwnershipStep(f, acts[0]);
      WakeUpStep(f, acts[0]);
      EveryReachableState(Step(f, acts[0]), acts[1..]);
    }
  }

  /** So in every state that runs from the empty farm reach. */
  lemma EveryRun(acts: seq<Action>)
    requires CanRun(INITIAL, acts)
    ensures Ownership(Run(INITIAL, acts)) && NoLostWakeUp(Run(INITIAL, acts))
  {
    EveryReachableState(INITIAL, acts);
  }

  // ----- progress: the work left shrinks with every step that adds none

  function TaskWeight(tasks: seq<Task>): nat {
    if tasks == [] then 0
    else TaskWeight(tasks[..|tasks| - 1]) + (if tasks[|tasks| - 1].state == Pending then 2 else 0)
  }

  function Weight(w: Worker): nat {
    match w case Busy(_) => 3 case Scanning => 2 case Parked => 1 case Exited => 0
  }

  function WorkerWeight(ws: seq<Worker>): nat {
    if ws == [] then 0
    else WorkerWeight(ws[..|ws| - 1]) + Weight(ws[|ws| - 1])
  }

  function WorkLeft(f: Farm): nat {
    TaskWeight(f.tasks) + WorkerWeight(f.workers) + (if f.ready then 2 else 0) + (if f.stopped then 0 else 1)
  }

  lemma {:induction false} TaskWeightUpdate(tasks: seq<Task>, i: nat, st: TaskState)
    requires i < |tasks| && st != Pending
    ensures TaskWeight(SetState(tasks, i, st)) ==
            TaskWeight(tasks) - (if tasks[i].state == Pending then 2 else 0)
  {
    var n := |tasks| - 1;
    var u := SetState(tasks, i, st);
    if i < n {
      TaskWeightUpdate(tasks[..n], i, st);
      assert u[..n] == SetState(tasks[..n], i, st);
    } else {
      assert u[..n] == tasks[..n];
    }
  }

  lemma {:induction false} WorkerWeightUpdate(ws: seq<Worker>, i: nat, w: Worker)
    requires i < |ws|
    ensures WorkerWeight(ws[i := w]) == WorkerWeight(ws) - Weight(ws[i]) + Weight(w)
  {
    var n := |ws| - 1;
    if i < n {
      WorkerWeightUpdate(ws[..n], i, w);
      assert ws[i := w][..n] == ws[..n][i := w];
    } else {
      assert ws[i := w][..n] == ws[..n];
    }
  }

  predicate AddsWork(a: Action) { a.Submit? || a.Spawn? }

  lemma {:induction false} WorkShrinks(f: Farm, a: Action)
    requires Enabled(f, a) && Ownership(f) && !AddsWork(a)
    ensures WorkLeft(Step(f, a)) < WorkLeft(f)
  {
    hide TaskWeight, WorkerWeight;
    match a
    case Cancel(id) => TaskWeightUpdate(f.tasks, id, Cancelled);
    case Stop =>
    case Look(w) =>
      match Scan(f.tasks, |f.tasks|) {
        case None => WorkerWeightUpdate(f.workers, w, Parked);
        case Some(b) =>
          WorkerWeightUpdate(f.workers, w, Busy(b));
          TaskWeightUpdate(f.tasks, b, Running);
      }
    case Wake(w) => WorkerWeightUpdate(f.workers, w, Scanning);
    case Leave(w) => WorkerWeightUpdate(f.workers, w, Exited);
    case Finish(w, ok) =>
      assert Holds(f, w, f.workers[w].task);
      WorkerWeightUpdate(f.workers, w, Scanning);
      TaskWeightUpdate(f.tasks, f.workers[w].task, if ok then Succeeded else Failed);
  }

  lemma {:induction false} TaskWeightAtMost(tasks: seq<Task>)
    ensures TaskWeight(tasks) <= 2 * |tasks|
  {
    if tasks != [] { TaskWeightAtMost(tasks[..|tasks| - 1]); }
  }

  lemma {:induction false} WorkerWeightAtMost(ws: seq<Worker>)
    ensures WorkerWeight(ws) <= 3 * |ws|
  {
    if ws != [] { WorkerWeightAtMost(ws[..|ws| - 1]); }
  }

  /** Every run without new work is at most WorkLeft steps long. */
  lemma {:induction false} RunsAreBounded(f: Farm, acts: seq<Action>)
    requires CanRun(f, acts) && Ownership(f)
    requires forall i :: 0 <= i < |acts| ==> !AddsWork(acts[i])
    ensures |acts| + WorkLeft(Run(f, acts)) <= WorkLeft(f)
    ensures |acts| <= 2 * |f.tasks| + 3 * |f.workers| + 3
    decreases |acts|
  {
    TaskWeightAtMost(f.tasks);
    WorkerWeightAtMost(f.workers);
    if acts != [] {
      WorkShrinks(f, acts[0]);
      OwnershipStep(f, acts[0]);
      RunsAreBounded(Step(f, acts[0]), acts[1..]);
    }
  }

  /** No worker can move. */
  ghost predicate Quiet(f: Farm) {
    forall a: Action :: (a.Look? || a.Wake? || a.Leave? || a.Finish?) ==> !Enabled(f, a)
  }

  /** A quiet farm with a worker has nothing pending and nothing running; with the
      stop channel closed every worker has returned, which is when Stop returns. */
  lemma QuietMeansDone(f: Farm)
    requires Quiet(f) && Ownership(f) && NoLostWakeUp(f)
    ensures forall t: nat :: t < |f.tasks| ==> f.tasks[t].state != Running
    ensures f.workers != [] && !f.stopped ==> forall t: nat :: !IsPending(f.tasks, t)
    ensures f.stopped ==> forall w: nat :: w < |f.workers| ==> f.workers[w] == Exited
  {
    forall w: nat | w < |f.workers|
      ensures f.workers[w] == Parked || f.workers[w] == Exited
      ensures f.stopped ==> f.workers[w] == Exited
      ensures f.ready ==> f.workers[w] == Exited
    {
      assert f.workers[w].Busy? ==> Holds(f, w, f.workers[w].task);
      assert !Enabled(f, Look(w)) && !Enabled(f, Finish(w, true)) && !Enabled(f, Leave(w)) && !Enabled(f, Wake(w));
    }
    forall t: nat | t < |f.tasks| ensures f.tasks[t].state != Running {
      assert f.tasks[t].state == Running ==> exists w: nat :: Holds(f, w, t);
    }
    if f.workers != [] && !f.stopped {
      assert f.workers[0] in f.workers;
    }
  }

  /** Once Stop has returned (every worker exited) no task is running. */
  lemma NoneRunningAfterStop(f: Farm)
    requires Ownership(f) && forall w: nat :: w < |f.workers| ==> f.workers[w] == Exited
    ensures forall t: nat :: t < |f.tasks| ==> f.tasks[t].state != Running
  {
    forall t: nat | t < |f.tasks| ensures f.tasks[t].state != Running {
      assert f.tasks[t].state == Running ==> exists w: nat :: Holds(f, w, t);
    }
  }

  // ----- the life of one task

  function Rank(st: TaskState): nat {
    match st case Pending => 0 case Running => 1 case _ => 2
  }

  /** The moves the lifecycle allows in any number of steps. */
  predicate Leads(a: TaskState, b: TaskState) {
    a == b || a == Pending || (a == Running && (b == Succeeded || b == Failed))
  }

  lemma StepMoves(f: Farm, a: Action, t: nat)
    requires Enabled(f, a) && Ownership(f) && t < |f.tasks|
    ensures var old', new' := f.tasks[t].state, Step(f, a).tasks[t].state;
            old' == new' || (old' == Pending && new' == Running) || (old' == Pending && new' == Cancelled) ||
            (old' == Running && (new' == Succeeded || new' == Failed))
    ensures Step(f, a).tasks[t].priority == f.tasks[t].priority
    ensures |f.tasks| <= |Step(f, a).tasks|
    ensures a == Cancel(t) ==> Step(f, a).tasks[t].state == Cancelled
    ensures a.Finish? && Holds(f, a.w, t) ==> Step(f, a).tasks[t].state == if a.ok then Succeeded else Failed
    ensures Step(f, a).tasks[t] == f.tasks[t] || a == Cancel(t) || (a.Finish? && Holds(f, a.w, t)) || (a.Look? && Holds(Step(f, a), a.w, t))
  {
    if a.Finish? { assert Holds(f, a.w, f.workers[a.w].task); }
  }

  lemma {:induction false} RunMoves(f: Farm, acts: seq<Action>, t: nat)
    requires CanRun(f, acts) && Ownership(f) && t < |f.tasks|
    ensures t < |Run(f, acts).tasks| && Leads(f.tasks[t].state, Run(f, acts).tasks[t].state)
    ensures var was, now := f.tasks[t].state, Run(f, acts).tasks[t].state;
            was == now || was == Pending || (was == Running && now in {Succeeded, Failed})
    decreases |acts|
  {
    if acts != [] {
      StepMoves(f, acts[0], t);
      OwnershipStep(f, acts[0]);
      RunMoves(Step(f, acts[0]), acts[1..], t);
    }
  }

  /** The task a step hands to a worker, if it hands one out. */
  function Handed(f: Farm, a: Action): Option<nat> {
    if a.Look? then Scan(f.tasks, |f.tasks|) else None
  }

  function HandedBy(f: Farm, a: Action): seq<nat> {
    match Handed(f, a) case None => [] case Some(t) => [t]
  }

  function AllHanded(f: Farm, acts: seq<Action>): seq<nat>
    requires CanRun(f, acts)
    decreases |acts|
  {
    if acts == [] then []
    else HandedBy(f, acts[0]) + AllHanded(Step(f, acts[0]), acts[1..])
  }

  /** Over a whole run no task is handed out twice, and none that is not pending at
      the start (cancelled, say) is handed out at all. */
  lemma {:induction false} HandedOnce(f: Farm, acts: seq<Action>)
    requires CanRun(f, acts) && Ownership(f)
    ensures forall i, j :: 0 <= i < j < |AllHanded(f, acts)| ==> AllHanded(f, acts)[i] != AllHanded(f, acts)[j]
    ensures forall t: nat :: t in AllHanded(f, acts) ==> IsPending(f.tasks, t) || t >= |f.tasks|
    decreases |acts|
  {
    if acts != [] {
      var g := Step(f, acts[0]);
      OwnershipStep(f, acts[0]);
      HandedOnce(g, acts[1..]);
      forall t: nat | t in AllHanded(g, acts[1..]) ensures IsPending(f.tasks, t) || t >= |f.tasks| {
        if t < |f.tasks| { StepMoves(f, acts[0], t); }
      }
      match Handed(f, acts[0])
      case None =>
      case Some(t) =>
        assert !IsPending(g.tasks, t) && t < |g.tasks|;
        assert t !in AllHanded(g, acts[1..]);
    }
  }

  /** Every hand-out is of a pending task of maximal priority, the earliest submitted
      among its equals. */
  lemma HandedIsBest(f: Farm, a: Action, t: nat)
    requires Enabled(f, a) && Handed(f, a) == Some(t)
    ensures IsBest(f.tasks, |f.tasks|, t)
    ensures Step(f, a).tasks == SetState(f.tasks, t, Running) && Step(f, a).workers[a.w] == Busy(t)
  {
  }

  /** A step hands out the head of the stable order, or leaves the order alone. */
  lemma {:induction false} DrainStep(f: Farm, a: Action)
    requires Enabled(f, a) && Ownership(f) && !a.Submit? && !a.Cancel?
    ensures HandedBy(f, a) + StableOrder(Step(f, a).tasks) == StableOrder(f.tasks)
  {
    hide StableOrder, Scan, IsPending;
    match a
    case Look(w) =>
      match Scan(f.tasks, |f.tasks|) {
        case None =>
        case Some(b) => TakingFollowsStableOrder(f.tasks, b);
      }
    case Finish(w, ok) =>
      assert Holds(f, w, f.workers[w].task);
      OtherChangesKeepOrder(f.tasks, f.workers[w].task, if ok then Succeeded else Failed);
    case _ =>
  }

  /** With no Submit or Cancel, however many workers there are and however their
      steps interleave, tasks are handed out in the stable order of the pending ones:
      what was handed out, then the stable order of what is left. */
  lemma {:induction false} DrainIsStableSort(f: Farm, acts: seq<Action>)
    requires CanRun(f, acts) && Ownership(f)
    requires forall i :: 0 <= i < |acts| ==> !acts[i].Submit? && !acts[i].Cancel?
    ensures AllHanded(f, acts) + StableOrder(Run(f, acts).tasks) == StableOrder(f.tasks)
    decreases |acts|
  {
    hide Ownership, Enabled, Step, StableOrder, HandedBy;
    if acts != [] {
      OwnershipStep(f, acts[0]);
      DrainIsStableSort(Step(f, acts[0]), acts[1..]);
      DrainStep(f, acts[0]);
    }
  }

  /** Run to quiet, that is the whole stable sort. */
  lemma DrainedCompletely(f: Farm, acts: seq<Action>)
    requires CanRun(f, acts) && Ownership(f) && NoLostWakeUp(f)
    requires forall i :: 0 <= i < |acts| ==> !acts[i].Submit? && !acts[i].Cancel?
    requires Quiet(Run(f, acts)) && Run(f, acts).workers != [] && !Run(f, acts).stopped
    ensures AllHanded(f, acts) == StableOrder(f.tasks)
  {
    var g := Run(f, acts);
    EveryReachableState(f, acts);
    QuietMeansDone(g);
    DrainIsStableSort(f, acts);
    PendingFromMeaning(g.tasks, 0);
  }

  /** A worker is parked beside a pending task, and nothing will wake it. */
  ghost predicate Idle(f: Farm) {
    !f.ready && !f.stopped && (exists t: nat :: IsPending(f.tasks, t)) && Parked in f.workers
  }

  function Spawns(acts: seq<Action>): nat {
    if acts == [] then 0 else (if acts[0].Spawn? then 1 else 0) + Spawns(acts[1..])
  }

  lemma {:induction false} WorkersSpawned(f: Farm, acts: seq<Action>)
    requires CanRun(f, acts)
    ensures |Run(f, acts).workers| == |f.workers| + Spawns(acts)
    decreases |acts|
  {
    if acts != [] { WorkersSpawned(Step(f, acts[0]), acts[1..]); }
  }

  lemma NoneIdles(acts: seq<Action>)
    requires CanRun(INITIAL, acts) && Spawns(acts) <= 1
    ensures !Idle(Run(INITIAL, acts))
  {
    EveryRun(acts);
    WorkersSpawned(INITIAL, acts);
  }

  /** Two submissions to two parked workers, and what one token does about them. */
  lemma {:induction false} TwoForOneToken()
    ensures var f, acts := Farm([], false, false, [Parked, Parked]), [Submit(0), Submit(0), Wake(0), Look(0)];
            CanRun(f, acts) && Run(f, acts) == Farm([Task(0, Running), Task(0, Pending)], false, false, [Busy(0), Parked])
  {
    var t := Task(0, Pending);
    var f4 := Farm([], false, false, [Parked, Parked]);
    var f6 := Farm([t, t], true, false, [Parked, Parked]);
    var f7 := Farm([t, t], false, false, [Scanning, Parked]);
    var f8 := Farm([t.(state := Running), t], false, false, [Busy(0), Parked]);
    assert Step(Step(f4, Submit(0)), Submit(0)) == f6;
    assert Step(f6, Wake(0)) == f7;
    assert Scan([t, t], 1) == Some(0);
    assert Step(f7, Look(0)) == f8;
    var a7 := [Look(0)];
    var a6 := [Wake(0)] + a7;
    var a5 := [Submit(0)] + a6;
    assert [Submit(0), Submit(0), Wake(0), Look(0)] == [Submit(0)] + a5;
    assert CanRun(f7, a7) && Run(f7, a7) == f8;
    assert CanRun(f6, a6) && Run(f6, a6) == f8;
    assert CanRun(Step(f4, Submit(0)), a5) && Run(Step(f4, Submit(0)), a5) == f8;
  }

  /** Limit of the one-slot token: it rules out a lost wake-up, not an idle worker.
      Two submissions to two parked workers set one token, so one task waits beside a
      parked worker until the other worker is done with the first task. */
  lemma {:induction false} IdleWorkerBesidePendingTask()
    ensures var acts := [Spawn, Spawn, Look(0), Look(1), Submit(0), Submit(0), Wake(0), Look(0)];
            && CanRun(INITIAL, acts)
            && var f := Run(INITIAL, acts);
               IsPending(f.tasks, 1) && f.workers == [Busy(0), Parked] && !f.ready && !f.stopped
  {
    var f2 := Farm([], false, false, [Scanning, Scanning]);
    var f4 := Farm([], false, false, [Parked, Parked]);
    assert Step(Step(INITIAL, Spawn), Spawn) == f2;
    assert Step(Step(f2, Look(0)), Look(1)) == f4;
    var a4 := [Submit(0), Submit(0), Wake(0), Look(0)];
    var a3 := [Look(1)] + a4;
    var a2 := [Look(0)] + a3;
    var a1 := [Spawn] + a2;
    assert [Spawn, Spawn, Look(0), Look(1), Submit(0), Submit(0), Wake(0), Look(0)] == [Spawn] + a1;
    TwoForOneToken();
    var f := Run(f4, a4);
    assert CanRun(Step(f2, Look(0)), a3) && Run(Step(f2, Look(0)), a3) == f;
    assert CanRun(f2, a2) && Run(f2, a2) == f;
    assert CanRun(Step(INITIAL, Spawn), a1) && Run(Step(INITIAL, Spawn), a1) == f;
  }

  /** A worker idles beside a pending task in some run of a farm with at most n workers,
      if and only if n is two or more. */
  lemma {:induction false} IdleExactly(n: nat)
    ensures (forall acts :: CanRun(INITIAL, acts) && Spawns(acts) <= n ==> !Idle(Run(INITIAL, acts))) <==> n <= 1
  {
    if n <= 1 {
      forall acts | CanRun(INITIAL, acts) && Spawns(acts) <= n ensures !Idle(Run(INITIAL, acts)) {
        NoneIdles(acts);
      }
    } else {
      var acts := [Spawn, Spawn, Look(0), Look(1), Submit(0), Submit(0), Wake(0), Look(0)];
      IdleWorkerBesidePendingTask();
      var f := Run(INITIAL, acts);
      assert !f.stopped && f.workers[1] == Parked;
      WorkersSpawned(INITIAL, acts);
    }
  }
}

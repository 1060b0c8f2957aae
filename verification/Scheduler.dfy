/** farm/farm.go: the Scheduler object. Each method is one critical section; its
    effect on the queue is the protocol's step. */
module SchedulerObject {
  import opened FarmQueue
  import opened Results
  import P = FarmProtocol

  datatype CancelResult = Done | NotFound | NotPending(state: TaskState)

  function HandedOut(t: Option<nat>): seq<nat> {
    if t.Some? then [t.value] else []
  }

  lemma AfterTake(before: seq<Task>, t: Option<nat>, after: seq<Task>)
    requires t == Scan(before, |before|)
    requires after == if t.Some? then SetState(before, t.value, Running) else before
    ensures StableOrder(before) == HandedOut(t) + StableOrder(after)
    ensures t.Some? ==> P.TaskWeight(after) < P.TaskWeight(before)
    ensures t.None? ==> after == before && forall j: nat :: !IsPending(after, j)
  {
    if t.Some? {
      TakingFollowsStableOrder(before, t.value);
      P.TaskWeightUpdate(before, t.value, Running);
    }
  }

  /** One turn of the worker's loop: task t is done, and the next scan takes u. */
  lemma AfterTurn(q: seq<Task>, t: nat, ok: bool, u: Option<nat>, after: seq<Task>)
    requires t < |q| && q[t].state == Running
    requires var mid := SetState(q, t, if ok then Succeeded else Failed);
             u == Scan(mid, |mid|) && after == if u.Some? then SetState(mid, u.value, Running) else mid
    ensures StableOrder(q) == HandedOut(u) + StableOrder(after)
    ensures u.Some? ==> P.TaskWeight(after) < P.TaskWeight(q)
    ensures u.None? ==> P.TaskWeight(after) == P.TaskWeight(q) && forall j: nat :: !IsPending(after, j)
  {
    var st := if ok then Succeeded else Failed;
    OtherChangesKeepOrder(q, t, st);
    P.TaskWeightUpdate(q, t, st);
    AfterTake(SetState(q, t, st), u, after);
  }

  /** The locked scan is the protocol's step. */
  lemma LookSteps(q: seq<Task>, ready: bool, stopped: bool, t: Option<nat>)
    requires t == Scan(q, |q|)
    ensures forall ws, w: nat :: w < |ws| && ws[w] == P.Scanning ==>
              P.Step(P.Farm(q, ready, stopped, ws), P.Look(w)) ==
              P.Farm(if t.Some? then SetState(q, t.value, Running) else q, ready, stopped,
                     ws[w := if t.Some? then P.Busy(t.value) else P.Parked])
  {
    hide Scan;
  }

  lemma NothingPending(q: seq<Task>)
    requires forall j: nat :: !IsPending(q, j)
    ensures StableOrder(q) == []
  {
    PendingFromMeaning(q, 0);
  }

  class Scheduler {
    var tasks: map<nat, Task>
    var order: seq<nat>
    var nextID: nat
    var ready: bool      // the one-slot channel holds a token
    var stopped: bool    // the stop channel is closed

    ghost predicate Valid()
      reads this
    {
      && |order| == nextID
      && (forall i: nat :: i < nextID ==> order[i] == i && i in tasks)
      && (forall id :: id in tasks ==> id < nextID)
    }

    /** The queue in submission order. */
    ghost function Queue(): seq<Task>
      requires Valid()
      reads this
    {
      seq(|order|, i requires 0 <= i < |order| reads this requires Valid() => tasks[order[i]])
    }

    constructor ()
      ensures Valid() && Queue() == P.INITIAL.tasks == [] && ready == P.INITIAL.ready == false && stopped == P.INITIAL.stopped == false
    {
      tasks, order, nextID, ready, stopped := map[], [], 0, false, false;
    }

    method Signal()
      modifies this`ready
      ensures ready
    {
      if !ready {
        ready := true;
      }
    }

    method Submit(priority: int) returns (id: nat)
      requires Valid()
      modifies this
      ensures Valid() && id == |old(Queue())| && ready && stopped == old(stopped)
      ensures Queue() == old(Queue()) + [Task(priority, Pending)]
      ensures forall ws :: P.Step(P.Farm(old(Queue()), old(ready), stopped, ws), P.Submit(priority)) ==
                           P.Farm(Queue(), ready, stopped, ws)
    {
      id := nextID;
      nextID := nextID + 1;
      tasks := tasks[id := Task(priority, Pending)];
      order := order + [id];
      Signal();
    }

    method Cancel(id: nat) returns (r: CancelResult)
      requires Valid()
      modifies this`tasks
      ensures Valid()
      ensures r == NotFound <==> id >= |Queue()|
      ensures r.Done? <==> IsPending(old(Queue()), id)
      ensures r.NotPending? ==> id < |Queue()| && r.state == Queue()[id].state
      ensures Queue() == if r.Done? then SetState(old(Queue()), id, Cancelled) else old(Queue())
      ensures r.Done? ==> id < |Queue()| && Queue()[id] == Task(old(Queue())[id].priority, Cancelled)
      ensures r.Done? ==> forall ws :: P.Step(P.Farm(old(Queue()), ready, stopped, ws), P.Cancel(id)) == P.Farm(Queue(), ready, stopped, ws)
    {
      if id !in tasks {
        return NotFound;
      }
      if tasks[id].state != Pending {
        return NotPending(tasks[id].state);
      }
      tasks := tasks[id := tasks[id].(state := Cancelled)];
      r := Done;
    }

    /** The scan of the submission order, keeping the best pending task so far. */
    method Best() returns (t: Option<nat>)
      requires Valid()
      ensures t == Scan(Queue(), |Queue()|)
    {
      t := None;
      var i := 0;
      while i < |order|
        invariant 0 <= i <= |order|
        invariant t == Scan(Queue(), i)
      {
        var id := order[i];
        if tasks[id].state == Pending && (t.None? || tasks[id].priority > tasks[t.value].priority) {
          t := Some(id);
        }
        i := i + 1;
      }
    }

    /** dequeue's locked section: the best pending task, marked running. */
    method Take() returns (t: Option<nat>)
      requires Valid()
      modifies this`tasks
      ensures Valid() && t == Scan(old(Queue()), |old(Queue())|)
      ensures Queue() == if t.Some? then SetState(old(Queue()), t.value, Running) else old(Queue())
      ensures t.Some? ==> t.value < |Queue()| && Queue()[t.value] == Task(old(Queue())[t.value].priority, Running)
      ensures forall ws, w: nat :: w < |ws| && ws[w] == P.Scanning ==>
                P.Step(P.Farm(old(Queue()), ready, stopped, ws), P.Look(w)) ==
                P.Farm(Queue(), ready, stopped, ws[w := if t.Some? then P.Busy(t.value) else P.Parked])
    {
      hide P.Step, P.Enabled;
      ghost var q := Queue();
      t := Best();
      LookSteps(q, ready, stopped, t);
      assert t.Some? ==> t.value < |q|;
      hide Scan;
      if t.Some? {
        tasks := tasks[t.value := tasks[t.value].(state := Running)];
      }
      assert Queue() == if t.Some? then SetState(q, t.value, Running) else q;
    }

    method MarkDone(t: nat, ok: bool)
      requires Valid() && t < |Queue()|
      modifies this`tasks
      ensures Valid() && Queue() == SetState(old(Queue()), t, if ok then Succeeded else Failed)
      ensures |Queue()| == |old(Queue())| && forall j: nat :: j < |Queue()| && j != t ==> Queue()[j] == old(Queue())[j]
      ensures Queue()[t] == Task(old(Queue())[t].priority, if ok then Succeeded else Failed)
      ensures forall ws, w: nat :: w < |ws| && ws[w] == P.Busy(t) ==>
                P.Step(P.Farm(old(Queue()), ready, stopped, ws), P.Finish(w, ok)) == P.Farm(Queue(), ready, stopped, ws[w := P.Scanning])
    {
      tasks := tasks[t := tasks[t].(state := if ok then Succeeded else Failed)];
    }

    /** One turn of the worker's loop: it finishes task t, whose run succeeds or
        fails arbitrarily, and scans for the next. */
    method Turn(t: nat) returns (u: Option<nat>)
      requires Valid() && t < |Queue()| && Queue()[t].state == Running
      modifies this`tasks
      ensures Valid() && StableOrder(old(Queue())) == HandedOut(u) + StableOrder(Queue())
      ensures u.Some? ==> u.value < |Queue()| && Queue()[u.value].state == Running
      ensures u.Some? ==> P.TaskWeight(Queue()) < P.TaskWeight(old(Queue()))
      ensures u.None? ==> P.TaskWeight(Queue()) == P.TaskWeight(old(Queue()))
      ensures u.None? ==> forall j: nat :: !IsPending(Queue(), j)
    {
      ghost var q := Queue();
      var ok: bool := *;
      MarkDone(t, ok);
      u := Take();
      AfterTurn(q, t, ok, u, Queue());
    }

    /** One worker alone, from its first scan to the select at which it parks, with
        nobody submitting or cancelling: it runs the stable sort of the pending
        tasks, in order. */
    method WorkUntilParked() returns (taken: seq<nat>)
      requires Valid()
      modifies this`tasks
      ensures Valid() && taken == StableOrder(old(Queue()))
      ensures forall j: nat :: !IsPending(Queue(), j)
    {
      hide Valid, StableOrder, IsPending, Scan, P.TaskWeight;
      taken := [];
      var t: Option<nat> := Take();
      AfterTake(old(Queue()), t, Queue());
      ghost var all, left := StableOrder(old(Queue())), StableOrder(Queue());
      while t.Some?
        invariant Valid() && left == StableOrder(Queue())
        invariant t.Some? ==> t.value < |Queue()| && Queue()[t.value].state == Running
        invariant t.None? ==> forall j: nat :: !IsPending(Queue(), j)
        invariant all == taken + (HandedOut(t) + left)
        decreases P.TaskWeight(Queue()), if t.Some? then 1 else 0
      {
        taken := taken + [t.value];
        t := Turn(t.value);
        left := StableOrder(Queue());
      }
      NothingPending(Queue());
    }
  }
}

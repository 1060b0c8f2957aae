/** farm/farm.go: the device-farm scheduler. Resident workers take the best pending
    task under the mutex; a one-slot channel wakes a worker that found nothing. */
module FarmQueue {
  import opened Results
  import opened Sorting

  datatype TaskState = Pending | Running | Succeeded | Failed | Cancelled

  /** Tasks are numbered in submission order ("task-%d" of a counter), so the queue
      is a sequence: task i is the i-th one submitted. */
  datatype Task = Task(priority: int, state: TaskState)

  predicate IsPending(tasks: seq<Task>, i: nat) {
    i < |tasks| && tasks[i].state == Pending
  }

  /** Among the first n tasks, b is pending, nothing pending outranks it, and every
      earlier pending task ranks lower. */
  ghost predicate IsBest(tasks: seq<Task>, n: nat, b: nat) {
    && b < n <= |tasks| && IsPending(tasks, b)
    && (forall j: nat :: j < n && IsPending(tasks, j) ==> tasks[j].priority <= tasks[b].priority)
    && (forall j: nat :: j < b && IsPending(tasks, j) ==> tasks[j].priority < tasks[b].priority)
  }

  /** The scan of the first n entries of the submission order. */
  function Scan(tasks: seq<Task>, n: nat): (best: Option<nat>)
    requires n <= |tasks|
    ensures best.None? <==> forall j: nat :: j < n ==> !IsPending(tasks, j)
    ensures best.Some? ==> IsBest(tasks, n, best.value)
  {
    if n == 0 then None
    else
      var before := Scan(tasks, n - 1);
      if IsPending(tasks, n - 1) && (before.None? || tasks[n - 1].priority > tasks[before.value].priority)
      then Some(n - 1) else before
  }

  function SetState(tasks: seq<Task>, i: nat, st: TaskState): seq<Task>
    requires i < |tasks|
  {
    tasks[i := tasks[i].(state := st)]
  }

  // ----- the reference: a stable sort of the pending tasks by decreasing priority

  function Priorities(tasks: seq<Task>): seq<int> {
    seq(|tasks|, i requires 0 <= i < |tasks| => tasks[i].priority)
  }

  function PriorityOf(prios: seq<int>, i: nat): int {
    if i < |prios| then prios[i] else 0
  }

  function Outranks(prios: seq<int>): (nat, nat) -> bool {
    (a: nat, b: nat) => PriorityOf(prios, a) > PriorityOf(prios, b)
  }

  /** The pending tasks from i on, in submission order. */
  function PendingFrom(tasks: seq<Task>, i: nat): (ids: seq<nat>)
    requires i <= |tasks|
    decreases |tasks| - i
  {
    if i == |tasks| then []
    else (if tasks[i].state == Pending then [i] else []) + PendingFrom(tasks, i + 1)
  }

  lemma PendingStep(tasks: seq<Task>, i: nat)
    requires i < |tasks|
    ensures PendingFrom(tasks, i) == (if IsPending(tasks, i) then [i] else []) + PendingFrom(tasks, i + 1)
  {
  }

  lemma {:induction false} PendingFromSound(tasks: seq<Task>, i: nat)
    requires i <= |tasks|
    ensures var ids := PendingFrom(tasks, i);
            && (forall k :: 0 <= k < |ids| ==> i <= ids[k] && IsPending(tasks, ids[k]))
            && (forall k, l :: 0 <= k < l < |ids| ==> ids[k] < ids[l])
    decreases |tasks| - i
  {
    if i < |tasks| {
      PendingFromSound(tasks, i + 1);
      PendingStep(tasks, i);
      hide PendingFrom, IsPending;
    }
  }

  lemma {:induction false} PendingFromComplete(tasks: seq<Task>, i: nat)
    requires i <= |tasks|
    ensures forall j: nat :: i <= j && IsPending(tasks, j) ==> j in PendingFrom(tasks, i)
    decreases |tasks| - i
  {
    if i < |tasks| {
      PendingFromComplete(tasks, i + 1);
      PendingStep(tasks, i);
    }
  }

  /** Exactly the pending tasks from i on, ascending. */
  lemma PendingFromMeaning(tasks: seq<Task>, i: nat)
    requires i <= |tasks|
    ensures forall k :: 0 <= k < |PendingFrom(tasks, i)| ==>
              i <= PendingFrom(tasks, i)[k] && IsPending(tasks, PendingFrom(tasks, i)[k])
    ensures forall k, l :: 0 <= k < l < |PendingFrom(tasks, i)| ==>
              PendingFrom(tasks, i)[k] < PendingFrom(tasks, i)[l]
    ensures forall j: nat :: i <= j && IsPending(tasks, j) ==> j in PendingFrom(tasks, i)
    ensures (forall j: nat :: i <= j ==> !IsPending(tasks, j)) ==> PendingFrom(tasks, i) == []
  {
    hide PendingFrom, IsPending;
    PendingFromSound(tasks, i);
    PendingFromComplete(tasks, i);
    if PendingFrom(tasks, i) != [] { assert IsPending(tasks, PendingFrom(tasks, i)[0]); }
  }

  function StableOrder(tasks: seq<Task>): seq<nat> {
    Sort(Outranks(Priorities(tasks)), PendingFrom(tasks, 0))
  }

  lemma OutranksIsOrder(prios: seq<int>)
    ensures StrictWeakOrder(Outranks(prios))
  {
  }

  /** StableOrder is what its name says: every pending task once, priorities never
      rising, and tasks of one priority in submission order. */
  lemma StableOrderMeaning(tasks: seq<Task>, prio: int)
    ensures multiset(StableOrder(tasks)) == multiset(PendingFrom(tasks, 0))
    ensures Sorted(Outranks(Priorities(tasks)), StableOrder(tasks))
    ensures var p := (i: nat) => PriorityOf(Priorities(tasks), i) == prio;
            Filter(p, StableOrder(tasks)) == Filter(p, PendingFrom(tasks, 0))
  {
    var prios := Priorities(tasks);
    OutranksIsOrder(prios);
    SortPermutes(Outranks(prios), PendingFrom(tasks, 0));
    SortSorts(Outranks(prios), PendingFrom(tasks, 0));
    SortStable(Outranks(prios), (i: nat) => PriorityOf(prios, i) == prio, PendingFrom(tasks, 0));
  }

  lemma DropBehind(head: seq<nat>, rest: seq<nat>, m: nat)
    requires m < |rest|
    ensures var all, k := head + rest, m + |head|;
            all[k] == rest[m] && all[..k] + all[k + 1..] == head + (rest[..m] + rest[m + 1..])
  {
  }

  lemma {:induction false} PendingSuffix(t0: seq<Task>, t1: seq<Task>, i: nat)
    requires |t0| == |t1| && i <= |t0|
    requires forall j :: i <= j < |t0| ==> (t0[j].state == Pending <==> t1[j].state == Pending)
    ensures PendingFrom(t0, i) == PendingFrom(t1, i)
    decreases |t0| - i
  {
    if i < |t0| {
      PendingSuffix(t0, t1, i + 1);
    }
  }

  lemma {:induction false} PendingWithoutHead(tasks: seq<Task>, b: nat, st: TaskState)
    requires IsPending(tasks, b) && st != Pending
    ensures var all := PendingFrom(tasks, b);
            |all| > 0 && all[0] == b && all[..0] + all[1..] == PendingFrom(SetState(tasks, b, st), b)
  {
    PendingSuffix(tasks, SetState(tasks, b, st), b + 1);
    PendingStep(tasks, b);
    PendingStep(SetState(tasks, b, st), b);
  }

  /** Taking a pending task away removes exactly its entry from the pending list. */
  lemma {:induction false} PendingWithout(tasks: seq<Task>, i: nat, b: nat, st: TaskState) returns (k: nat)
    requires i <= b && IsPending(tasks, b) && st != Pending
    ensures k < |PendingFrom(tasks, i)| && PendingFrom(tasks, i)[k] == b
    ensures PendingFrom(SetState(tasks, b, st), i) == PendingFrom(tasks, i)[..k] + PendingFrom(tasks, i)[k + 1..]
    decreases b - i
  {
    if i == b {
      k := 0;
      PendingWithoutHead(tasks, b, st);
    } else {
      var m := PendingWithout(tasks, i + 1, b, st);
      var rest := PendingFrom(tasks, i + 1);
      var head := if IsPending(tasks, i) then [i] else [];
      PendingStep(tasks, i);
      PendingStep(SetState(tasks, b, st), i);
      assert IsPending(SetState(tasks, b, st), i) <==> IsPending(tasks, i);
      hide PendingFrom, SetState, IsPending;
      k := m + |head|;
      DropBehind(head, rest, m);
    }
  }

  /** One selection step: the scan's choice heads the stable order, and the rest of
      the order is the stable order of what is left. */
  lemma TakingFollowsStableOrder(tasks: seq<Task>, b: nat)
    requires IsBest(tasks, |tasks|, b)
    ensures StableOrder(tasks) == [b] + StableOrder(SetState(tasks, b, Running))
  {
    var ids := PendingFrom(tasks, 0);
    var less := Outranks(Priorities(tasks));
    var k := PendingWithout(tasks, 0, b, Running);
    PendingFromMeaning(tasks, 0);
    forall j | 0 <= j < |ids| ensures !less(ids[j], ids[k]) { assert IsPending(tasks, ids[j]); }
    forall j | 0 <= j < k ensures less(ids[k], ids[j]) { assert IsPending(tasks, ids[j]); }
    SortSelects(less, ids, k);
    assert Priorities(SetState(tasks, b, Running)) == Priorities(tasks);
  }

  /** A change that touches no pending task leaves the order alone. */
  lemma OtherChangesKeepOrder(tasks: seq<Task>, i: nat, st: TaskState)
    requires i < |tasks| && tasks[i].state != Pending && st != Pending
    ensures StableOrder(SetState(tasks, i, st)) == StableOrder(tasks)
  {
    PendingSuffix(tasks, SetState(tasks, i, st), 0);
    assert Priorities(SetState(tasks, i, st)) == Priorities(tasks);
  }
}

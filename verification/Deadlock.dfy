/** Any number of operations taking and returning exclusive leases, one critical section
    at a time, over the lease table of the lock manager (core/operation/engine.go with
    core/resource/lock_manager.go): who can wait for whom, and why some operation can
    always go on. */
module Deadlock {
  import opened Locks
  import opened Resources
  import Sorting
  import Strings

  /** An operation is taking its resources, holds them all and works, or has returned. */
  datatype Phase = Taking | Working | Returned

  datatype Op = Op(want: seq<ResourceID>, taken: seq<LeaseID>, phase: Phase) {
    /** The resource whose Acquire it is in. */
    function Next(): ResourceID
      requires phase == Taking && |taken| < |want|
    {
      want[|taken|]
    }
  }

  datatype State = State(table: Table, nextId: LeaseID, now: Time, byID: map<ID, Resource>, ops: map<string, Op>)

  datatype Action =
    | Begin(op: string, device: ID, types: seq<string>, ids: seq<ID>, byID: map<ID, Resource>)
    | Take(op: string, ttl: int)     // tryAcquireLocked finds no conflict
    | GiveUp(op: string)             // the context is done: AcquireAll rolls back
    | Finish(op: string)             // any exit of Execute past AcquireAll: ReleaseAll
    | Prune                          // pruneLocked, at the head of some Acquire
    | Renew(id: LeaseID, ttl: int)
    | Tick(elapsed: nat)

  const EMPTY := State(map[], 0, 0, map[], map[])

  ghost function IDs(s: seq<LeaseID>): set<LeaseID> {
    set id | id in s
  }

  ghost predicate CanTake(s: State, o: string) {
    && o in s.ops && s.ops[o].phase == Taking && |s.ops[o].taken| < |s.ops[o].want|
    && !Blocked(s.table, s.ops[o].Next(), Exclusive)
  }

  ghost predicate Enabled(s: State, a: Action) {
    match a
    case Begin(o, device, types, ids, byID) =>
      && o !in s.ops && (forall r :: r in s.byID ==> r in byID && byID[r] == s.byID[r])
      && Named(byID, device, Sorting.Sort(Strings.Less, types), ids) && OneEach(byID)
    case Take(o, _) => CanTake(s, o)
    case GiveUp(o) => o in s.ops && s.ops[o].phase == Taking
    case Finish(o) => o in s.ops && s.ops[o].phase == Working
    case Renew(id, _) => id in s.table && !s.table[id].Expired(s.now)
    case _ => true
  }

  ghost function Drop(s: State, o: string): State
    requires o in s.ops
  {
    s.(table := s.table - IDs(s.ops[o].taken), ops := s.ops[o := s.ops[o].(phase := Returned)])
  }

  ghost function Step(s: State, a: Action): State
    requires Enabled(s, a)
  {
    match a
    case Begin(o, _, _, ids, byID) =>
      s.(byID := byID, ops := s.ops[o := Op(ids, [], if ids == [] then Working else Taking)])
    case Take(o, ttl) =>
      var op := s.ops[o];
      s.(table := s.table[s.nextId := LeaseRec(op.Next(), o, Exclusive, s.now + ttl)],
         nextId := s.nextId + 1,
         ops := s.ops[o := Op(op.want, op.taken + [s.nextId], if |op.taken| + 1 == |op.want| then Working else Taking)])
    case GiveUp(o) => Drop(s, o)
    case Finish(o) => Drop(s, o)
    case Prune => s.(table := Unexpired(s.table, s.now))
    case Renew(id, ttl) => s.(table := s.table[id := s.table[id].(expiresAt := s.now + ttl)])
    case Tick(elapsed) => s.(now := s.now + elapsed)
  }

  ghost predicate Run(s: State, acts: seq<Action>, t: State)
    decreases |acts|
  {
    if acts == [] then s == t else Enabled(s, acts[0]) && Run(Step(s, acts[0]), acts[1..], t)
  }

  // ---- What every step keeps ----

  ghost predicate Grants(l: LeaseRec, r: ResourceID, o: string) {
    l.resource == r && l.holder == o && l.mode == Exclusive
  }

  ghost predicate OpSound(o: string, op: Op, s: State) {
    && |op.taken| <= |op.want| && (op.phase == Taking ==> |op.taken| < |op.want|) && (op.phase == Working ==> |op.taken| == |op.want|)
    && (forall i :: 0 <= i < |op.want| ==> op.want[i] in s.byID)
    && (forall i, j :: 0 <= i < j < |op.want| ==> s.byID[op.want[i]].device == s.byID[op.want[j]].device)
    && (forall i :: 0 <= i < |op.taken| ==> op.taken[i] < s.nextId)
    && (forall i :: 0 <= i < |op.taken| && op.taken[i] in s.table ==> Grants(s.table[op.taken[i]], op.want[i], o))
  }

  /** A lease in the table belongs to an operation that has not returned. */
  ghost predicate Owned(s: State, id: LeaseID)
    requires id in s.table
  {
    var o := s.table[id].holder;
    id < s.nextId && o in s.ops && s.ops[o].phase != Returned && id in s.ops[o].taken
  }

  ghost predicate Inv(s: State) {
    && (forall o :: o in s.ops ==> OpSound(o, s.ops[o], s))
    && (forall id :: id in s.table ==> Owned(s, id))
    && MutualExclusion(s.table) && OneEach(s.byID)
  }

  /** A smaller or renewed table keeps the invariant. */
  lemma {:induction false} ShrinkKeeps(s: State, t: State)
    requires Inv(s) && t.ops == s.ops && t.nextId == s.nextId && t.byID == s.byID
    requires forall id :: id in t.table ==> id in s.table && t.table[id] == s.table[id].(expiresAt := t.table[id].expiresAt)
    ensures Inv(t)
  {
    hide OneEach;
    forall o | o in t.ops ensures OpSound(o, t.ops[o], t) { assert OpSound(o, s.ops[o], s); }
    hide OpSound;
    forall id | id in t.table ensures Owned(t, id) { assert Owned(s, id); }
  }

  lemma DropKeeps(s: State, o: string)
    requires Inv(s) && o in s.ops
    ensures Inv(Drop(s, o)) && forall id :: id in Drop(s, o).table ==> Drop(s, o).table[id].holder != o
  {
    var t := Drop(s, o);
    forall p | p in t.ops ensures OpSound(p, t.ops[p], t) { assert OpSound(p, s.ops[p], s); }
    forall id | id in t.table ensures Owned(t, id) && t.table[id].holder != o { assert Owned(s, id); }
  }

  lemma TakeSound(s: State, o: string, ttl: int, p: string)
    requires CanTake(s, o) && p in s.ops && OpSound(o, s.ops[o], s) && OpSound(p, s.ops[p], s)
    ensures OpSound(p, Step(s, Take(o, ttl)).ops[p], Step(s, Take(o, ttl)))
  {
    hide Blocked;
    var t := Step(s, Take(o, ttl));
    forall i | 0 <= i < |t.ops[p].taken| && t.ops[p].taken[i] in t.table
      ensures Grants(t.table[t.ops[p].taken[i]], t.ops[p].want[i], p)
    {
      if i < |s.ops[p].taken| { assert t.ops[p].taken[i] == s.ops[p].taken[i]; }
    }
  }

  lemma TakeOwned(s: State, o: string, ttl: int)
    requires CanTake(s, o) && forall id :: id in s.table ==> Owned(s, id)
    ensures forall id :: id in Step(s, Take(o, ttl)).table ==> Owned(Step(s, Take(o, ttl)), id)
  {
    hide Blocked;
    var t := Step(s, Take(o, ttl));
    assert t.ops[o].taken[|s.ops[o].taken|] == s.nextId;
    forall id | id in t.table ensures Owned(t, id) {
      if id != s.nextId { assert Owned(s, id); }
    }
  }

  lemma TakeExcludes(t: Table, id: LeaseID, rec: LeaseRec)
    requires MutualExclusion(t) && id !in t && !Blocked(t, rec.resource, rec.mode)
    ensures MutualExclusion(t[id := rec])
  {
    forall a | a in t && t[a].resource == rec.resource ensures !Conflict(t[a].mode, rec.mode) {}
  }

  lemma {:induction false} TakeKeeps(s: State, o: string, ttl: int)
    requires Inv(s) && CanTake(s, o)
    ensures Inv(Step(s, Take(o, ttl)))
  {
    var t := Step(s, Take(o, ttl));
    assert s.nextId in s.table ==> Owned(s, s.nextId);
    TakeExcludes(s.table, s.nextId, LeaseRec(s.ops[o].Next(), o, Exclusive, s.now + ttl));
    hide MutualExclusion, Blocked, OpSound, OneEach, Owned;
    forall p | p in t.ops ensures OpSound(p, t.ops[p], t) {
      TakeSound(s, o, ttl, p);
    }
    TakeOwned(s, o, ttl);
  }

  lemma BeginKeeps(s: State, a: Action)
    requires Inv(s) && a.Begin? && Enabled(s, a)
    ensures Inv(Step(s, a))
  {
    hide OneEach, MutualExclusion, Sorting.Sort;
    var t := Step(s, a);
    forall p | p in t.ops ensures OpSound(p, t.ops[p], t) {
      if p in s.ops { assert OpSound(p, s.ops[p], s); }
    }
    forall id | id in t.table ensures Owned(t, id) { assert Owned(s, id); }
  }

  lemma {:induction false} StepKeeps(s: State, a: Action)
    requires Inv(s) && Enabled(s, a)
    ensures Inv(Step(s, a))
  {
    hide Inv, Drop;
    match a
    case Begin(_, _, _, _, _) => BeginKeeps(s, a);
    case Take(o, ttl) => TakeKeeps(s, o, ttl);
    case GiveUp(o) => DropKeeps(s, o);
    case Finish(o) => DropKeeps(s, o);
    case _ => ShrinkKeeps(s, Step(s, a));
  }

  lemma {:induction false} RunKeeps(s: State, acts: seq<Action>, t: State)
    requires Inv(s) && Run(s, acts, t)
    ensures Inv(t)
    decreases |acts|
  {
    if acts != [] {
      StepKeeps(s, acts[0]);
      RunKeeps(Step(s, acts[0]), acts[1..], t);
    }
  }

  lemma Exclusively(s: State, id: LeaseID)
    requires id in s.table && Owned(s, id) && Inv(s)
    ensures s.table[id].mode == Exclusive
  {
    hide OneEach, MutualExclusion;
    var o := s.table[id].holder;
    assert OpSound(o, s.ops[o], s);
    var i :| 0 <= i < |s.ops[o].taken| && s.ops[o].taken[i] == id;
  }

  lemma {:induction false} OneEachHeld(s: State)
    requires Inv(s)
    ensures forall i, j :: i in s.table && j in s.table && i != j ==> s.table[i].resource != s.table[j].resource
  {
    hide OneEach, OpSound;
    forall i | i in s.table ensures s.table[i].mode == Exclusive {
      assert Owned(s, i);
      Exclusively(s, i);
    }
  }

  /** In every reachable state resources are held exclusively, each lease by a live
      operation that asked for it; an operation that has returned holds none. */
  lemma NothingLeftBehind(acts: seq<Action>, s: State)
    requires Run(EMPTY, acts, s)
    ensures forall i, j :: i in s.table && j in s.table && i != j ==> s.table[i].resource != s.table[j].resource
    ensures forall id :: id in s.table ==> s.table[id].holder in s.ops && s.table[id].resource in s.ops[s.table[id].holder].want
    ensures forall id :: id in s.table ==> s.ops[s.table[id].holder].phase != Returned
  {
    RunKeeps(EMPTY, acts, s);
    forall id | id in s.table
      ensures s.table[id].holder in s.ops && s.table[id].resource in s.ops[s.table[id].holder].want
      ensures s.ops[s.table[id].holder].phase != Returned
    {
      assert Owned(s, id);
      var o := s.table[id].holder;
      assert OpSound(o, s.ops[o], s);
      var i :| 0 <= i < |s.ops[o].taken| && s.ops[o].taken[i] == id;
    }
    OneEachHeld(s);
  }

  lemma {:induction false} OpsMove(s: State, a: Action)
    requires Enabled(s, a)
    ensures var t := Step(s, a);
            && (forall o :: o in s.ops ==> o in t.ops && t.ops[o].want == s.ops[o].want && s.ops[o].taken <= t.ops[o].taken)
            && (forall o :: o in s.ops && t.ops[o].phase != s.ops[o].phase ==>
                  || (s.ops[o].phase == Taking && t.ops[o].phase == Working && |t.ops[o].taken| == |t.ops[o].want|)
                  || (t.ops[o].phase == Returned && a == (if s.ops[o].phase == Taking then GiveUp(o) else Finish(o))))
            && (forall o :: o in t.ops && o !in s.ops ==> t.ops[o].taken == [] && t.ops[o].phase == if t.ops[o].want == [] then Working else Taking)
            && (a.GiveUp? || a.Finish? ==> a.op in s.ops && s.ops[a.op].phase != Returned && t.ops[a.op].phase == Returned)
  {
    hide Blocked, Unexpired, OneEach, Named;
  }

  lemma {:induction false} LeasesMove(s: State, a: Action)
    requires Enabled(s, a) && s.nextId !in s.table
    ensures var t := Step(s, a);
            && (forall id :: id in s.table && id !in t.table ==>
                  || (a.Prune? && s.table[id].expiresAt < s.now)
                  || ((a.GiveUp? || a.Finish?) && id in s.ops[a.op].taken))
            && (forall id :: id in t.table && id !in s.table ==>
                  && a.Take? && a.op in s.ops && |s.ops[a.op].taken| < |s.ops[a.op].want|
                  && var r := s.ops[a.op].want[|s.ops[a.op].taken|];
                     t.table[id] == LeaseRec(r, a.op, Exclusive, s.now + a.ttl) && forall l :: l in s.table ==> s.table[l].resource != r)
            && (forall id :: id in s.table && id in t.table && t.table[id] != s.table[id] ==>
                  s.now <= s.table[id].expiresAt && a.Renew? && a.id == id && t.table[id] == s.table[id].(expiresAt := s.now + a.ttl))
            && (a.Prune? ==> forall id :: id in t.table ==> s.now <= t.table[id].expiresAt)
            && t.now == s.now + if a.Tick? then a.elapsed else 0
  {
    hide OneEach, Named;
    if a.Prune? {
      UnexpiredMeans(s.table, s.now);
      hide Unexpired;
    }
  }

  /** What a step can do. An operation goes from taking to working with its last lease, and
      from either to its return, once for all; a lease comes for the next resource its holder
      wants, which no lease has, and goes with its holder or with its time. */
  lemma StepMoves(acts: seq<Action>, s: State, a: Action)
    requires Run(EMPTY, acts, s) && Enabled(s, a)
    ensures var t := Step(s, a);
            && (forall o :: o in s.ops ==> o in t.ops && t.ops[o].want == s.ops[o].want && s.ops[o].taken <= t.ops[o].taken)
            && (forall o :: o in s.ops && t.ops[o].phase != s.ops[o].phase ==>
                  || (s.ops[o].phase == Taking && t.ops[o].phase == Working && |t.ops[o].taken| == |t.ops[o].want|)
                  || (t.ops[o].phase == Returned && a == (if s.ops[o].phase == Taking then GiveUp(o) else Finish(o))))
            && (forall o :: o in t.ops && o !in s.ops ==> t.ops[o].taken == [] && t.ops[o].phase == if t.ops[o].want == [] then Working else Taking)
            && (a.GiveUp? || a.Finish? ==> a.op in s.ops && s.ops[a.op].phase != Returned && t.ops[a.op].phase == Returned)
    ensures var t := Step(s, a);
            && (forall id :: id in s.table && id !in t.table ==>
                  || (a.Prune? && s.table[id].expiresAt < s.now)
                  || ((a.GiveUp? || a.Finish?) && id in s.ops[a.op].taken))
            && (forall id :: id in t.table && id !in s.table ==>
                  && a.Take? && a.op in s.ops && |s.ops[a.op].taken| < |s.ops[a.op].want|
                  && var r := s.ops[a.op].want[|s.ops[a.op].taken|];
                     t.table[id] == LeaseRec(r, a.op, Exclusive, s.now + a.ttl) && forall l :: l in s.table ==> s.table[l].resource != r)
            && (forall id :: id in s.table && id in t.table && t.table[id] != s.table[id] ==>
                  s.now <= s.table[id].expiresAt && a.Renew? && a.id == id && t.table[id] == s.table[id].(expiresAt := s.now + a.ttl))
            && (a.Prune? ==> forall id :: id in t.table ==> s.now <= t.table[id].expiresAt)
            && t.now == s.now + if a.Tick? then a.elapsed else 0
  {
    RunKeeps(EMPTY, acts, s);
    assert s.nextId in s.table ==> Owned(s, s.nextId);
    hide *;
    OpsMove(s, a);
    LeasesMove(s, a);
  }

  // ---- Waiting ----

  ghost predicate Waits(s: State, o: string) {
    o in s.ops && s.ops[o].phase == Taking && |s.ops[o].taken| < |s.ops[o].want| && Blocked(s.table, s.ops[o].Next(), Exclusive)
  }

  /** o is in Acquire for a resource on which p has a lease. */
  ghost predicate WaitsFor(s: State, o: string, p: string) {
    && Waits(s, o)
    && exists id :: id in s.table && s.table[id].resource == s.ops[o].Next() && s.table[id].holder == p
  }

  /** The type of the resource an operation waits for. */
  ghost function Awaited(s: State, o: string): string
    requires Inv(s) && Waits(s, o)
  {
    assert OpSound(o, s.ops[o], s);
    s.byID[s.ops[o].Next()].typ
  }

  /** The types an operation asks for come in strictly ascending order. */
  ghost predicate InOrder(s: State, o: string)
    requires o in s.ops
  {
    var want := s.ops[o].want;
    forall i, j :: 0 <= i < j < |want| && want[i] in s.byID && want[j] in s.byID ==>
      Strings.Less(s.byID[want[i]].typ, s.byID[want[j]].typ)
  }

  ghost predicate AllInOrder(s: State) {
    forall o :: o in s.ops ==> InOrder(s, o)
  }

  /** Along a wait the awaited type goes strictly up, whatever the devices. */
  lemma AwaitedRises(s: State, o: string, p: string)
    requires Inv(s) && AllInOrder(s) && WaitsFor(s, o, p) && Waits(s, p)
    ensures Strings.Less(Awaited(s, o), Awaited(s, p))
  {
    hide OneEach, MutualExclusion, Blocked;
    var id :| id in s.table && s.table[id].resource == s.ops[o].Next() && s.table[id].holder == p;
    assert Owned(s, id) && OpSound(p, s.ops[p], s);
    var i :| 0 <= i < |s.ops[p].taken| && s.ops[p].taken[i] == id;
    assert InOrder(s, p);
  }

  /** A chain of waits, each for the next. */
  ghost predicate Chain(s: State, c: seq<string>) {
    forall i :: 0 <= i < |c| - 1 ==> WaitsFor(s, c[i], c[i + 1])
  }

  lemma {:induction false} ChainRises(s: State, c: seq<string>)
    requires Inv(s) && AllInOrder(s) && Chain(s, c) && |c| >= 2 && Waits(s, c[|c| - 1])
    ensures Waits(s, c[0]) && Strings.Less(Awaited(s, c[0]), Awaited(s, c[|c| - 1]))
    decreases |c|
  {
    assert WaitsFor(s, c[0], c[1]);
    if |c| == 2 {
      AwaitedRises(s, c[0], c[1]);
    } else {
      forall i | 0 <= i < |c[1..]| - 1 ensures WaitsFor(s, c[1..][i], c[1..][i + 1]) {
        assert WaitsFor(s, c[i + 1], c[i + 2]);
      }
      ChainRises(s, c[1..]);
      AwaitedRises(s, c[0], c[1]);
      Strings.LessTransitive(Awaited(s, c[0]), Awaited(s, c[1]), Awaited(s, c[|c| - 1]));
    }
  }

  /** No operation waits for itself through any chain. */
  lemma Acyclic(s: State, c: seq<string>)
    requires Inv(s) && AllInOrder(s) && |c| >= 2 && Chain(s, c)
    ensures c[0] != c[|c| - 1]
  {
    assert WaitsFor(s, c[0], c[1]);
    if c[0] == c[|c| - 1] {
      ChainRises(s, c);
      Strings.LessIrreflexive(Awaited(s, c[0]));
    }
  }

  /** The waiting operations whose awaited type is above that of o. */
  ghost function Above(s: State, o: string): set<string>
    requires Inv(s) && Waits(s, o)
  {
    set p | p in s.ops && Waits(s, p) && Strings.Less(Awaited(s, o), Awaited(s, p))
  }

  lemma AboveShrinks(s: State, o: string, p: string)
    requires Inv(s) && Waits(s, o) && Waits(s, p) && Strings.Less(Awaited(s, o), Awaited(s, p))
    ensures Above(s, p) < Above(s, o)
  {
    assert p in Above(s, o);
    Strings.LessIrreflexive(Awaited(s, p));
    forall q | q in Above(s, p) ensures q in Above(s, o) {
      Strings.LessTransitive(Awaited(s, o), Awaited(s, p), Awaited(s, q));
    }
  }

  lemma ChainExtends(s: State, o: string, d: seq<string>)
    requires d != [] && Chain(s, d) && WaitsFor(s, o, d[0])
    ensures Chain(s, [o] + d)
  {
    var c := [o] + d;
    forall i | 0 <= i < |c| - 1 ensures WaitsFor(s, c[i], c[i + 1]) {
      if i > 0 { assert WaitsFor(s, d[i - 1], d[i]); }
    }
  }

  /** An operation with a lease. */
  ghost predicate Holder(s: State, p: string) {
    exists id :: id in s.table && s.table[id].holder == p
  }

  ghost predicate GoesOn(s: State, p: string) {
    p in s.ops && (s.ops[p].phase == Working || CanTake(s, p))
  }

  /** What blocks a waiting operation is held by one that waits itself or goes on. */
  lemma Blocker(s: State, o: string) returns (p: string)
    requires Inv(s) && Waits(s, o)
    ensures WaitsFor(s, o, p) && Holder(s, p) && (Waits(s, p) || GoesOn(s, p))
  {
    hide OneEach, MutualExclusion;
    var id :| id in s.table && s.table[id].resource == s.ops[o].Next() && Conflict(s.table[id].mode, Exclusive);
    p := s.table[id].holder;
    assert Owned(s, id) && OpSound(p, s.ops[p], s);
  }

  lemma ChainOfTwo(s: State, o: string, p: string)
    requires WaitsFor(s, o, p)
    ensures Chain(s, [o, p])
  {
  }

  /** Whoever waits, waits through some chain for a lease holder that does not wait: it
      works, or finds its next resource free. */
  lemma {:induction false} ChainEnds(s: State, o: string) returns (c: seq<string>)
    requires Inv(s) && AllInOrder(s) && Waits(s, o)
    ensures |c| >= 2 && c[0] == o && Chain(s, c)
    ensures GoesOn(s, c[|c| - 1]) && Holder(s, c[|c| - 1])
    decreases Above(s, o)
  {
    hide Inv, AllInOrder, Waits, WaitsFor, Holder, GoesOn, Chain, Awaited, Above;
    var p := Blocker(s, o);
    if Waits(s, p) {
      AwaitedRises(s, o, p);
      AboveShrinks(s, o, p);
      var d := ChainEnds(s, p);
      c := [o] + d;
      ChainExtends(s, o, d);
    } else {
      c := [o, p];
      ChainOfTwo(s, o, p);
    }
  }

  /** An operation enters in order exactly when its capability lists no type twice. */
  lemma BeginsInOrder(s: State, a: Action)
    requires Inv(s) && a.Begin? && Enabled(s, a)
    ensures InOrder(Step(s, a), a.op) <==> Distinct(a.types)
  {
    var sorted := Sorting.Sort(Strings.Less, a.types);
    var t := Step(s, a);
    AscendingExactly(a.types);
    assert forall i :: 0 <= i < |sorted| ==> t.byID[a.ids[i]].typ == sorted[i];
    assert InOrder(t, a.op) <==> Ascending(sorted) by {
      if InOrder(t, a.op) {
        forall i, j | 0 <= i < j < |sorted| ensures Strings.Less(sorted[i], sorted[j]) {
          assert a.ids[i] in t.byID && a.ids[j] in t.byID;
        }
      }
    }
  }

  ghost predicate DistinctTypes(acts: seq<Action>) {
    forall i :: 0 <= i < |acts| && acts[i].Begin? ==> Distinct(acts[i].types)
  }

  lemma StepInOrder(s: State, a: Action)
    requires Inv(s) && AllInOrder(s) && Enabled(s, a) && (a.Begin? ==> Distinct(a.types))
    ensures AllInOrder(Step(s, a))
  {
    var t := Step(s, a);
    forall o | o in t.ops ensures InOrder(t, o) {
      if a.Begin? && o == a.op {
        BeginsInOrder(s, a);
      } else {
        assert InOrder(s, o) && OpSound(o, s.ops[o], s);
        assert t.ops[o].want == s.ops[o].want;
      }
    }
  }

  lemma {:induction false} RunInOrder(s: State, acts: seq<Action>, t: State)
    requires Inv(s) && AllInOrder(s) && Run(s, acts, t) && DistinctTypes(acts)
    ensures Inv(t) && AllInOrder(t)
    decreases |acts|
  {
    if acts != [] {
      StepKeeps(s, acts[0]);
      StepInOrder(s, acts[0]);
      assert DistinctTypes(acts[1..]);
      RunInOrder(Step(s, acts[0]), acts[1..], t);
    }
  }

  lemma SomeoneGoesOn(s: State, o: string)
    requires Inv(s) && AllInOrder(s) && o in s.ops && s.ops[o].phase != Returned
    ensures exists p :: GoesOn(s, p)
  {
    assert OpSound(o, s.ops[o], s);
    hide OpSound, Inv, AllInOrder;
    if Waits(s, o) {
      var c := ChainEnds(s, o);
    } else {
      assert GoesOn(s, o);
    }
  }

  /** Deadlock freedom: as long as capabilities list each type once, in every reachable
      state no chain of waits closes, and unless every operation has returned one of
      them can take its next resource or is at work. */
  lemma DeadlockFree(acts: seq<Action>, s: State)
    requires Run(EMPTY, acts, s) && DistinctTypes(acts)
    ensures forall c :: |c| >= 2 && Chain(s, c) ==> c[0] != c[|c| - 1]
    ensures (exists o :: o in s.ops && s.ops[o].phase != Returned) ==> exists p :: GoesOn(s, p)
  {
    RunInOrder(EMPTY, acts, s);
    hide Run, DistinctTypes, AllInOrder, Awaited, Above;
    forall c | |c| >= 2 && Chain(s, c) ensures c[0] != c[|c| - 1] { Acyclic(s, c); }
    if o :| o in s.ops && s.ops[o].phase != Returned {
      SomeoneGoesOn(s, o);
    }
  }

  /** Two requirements of one type are one resource twice: an operation about to ask
      again for a type it just got waits for itself. */
  lemma DuplicateTypeSelfDeadlock(s: State, o: string, ttl: int)
    requires Inv(s) && CanTake(s, o) && |s.ops[o].taken| + 1 < |s.ops[o].want|
    requires var next, after := s.ops[o].Next(), s.ops[o].want[|s.ops[o].taken| + 1];
             next in s.byID && after in s.byID && s.byID[next].typ == s.byID[after].typ
    ensures WaitsFor(Step(s, Take(o, ttl)), o, o)
  {
    assert OpSound(o, s.ops[o], s);
    var t := Step(s, Take(o, ttl));
    assert s.nextId in t.table && t.table[s.nextId].resource == t.ops[o].Next() && Conflict(t.table[s.nextId].mode, Exclusive);
  }

  // ---- Exactly when an operation can wait for itself ----

  /** Every operation of the run requires these types. */
  ghost predicate Requiring(acts: seq<Action>, types: seq<string>) {
    forall i :: 0 <= i < |acts| && acts[i].Begin? ==> acts[i].types == types
  }

  ghost predicate Leased(t: Table, r: ResourceID) {
    exists id :: id in t && t[id].resource == r
  }

  /** One operation alone that has taken the first n of the resources ids. */
  ghost predicate AloneAt(s: State, o: string, ids: seq<ResourceID>, n: nat) {
    && n <= |ids| && s.ops.Keys == {o} && s.ops[o].want == ids && |s.ops[o].taken| == n
    && s.ops[o].phase == (if n == |ids| then Working else Taking)
    && (forall id :: id in s.table ==> id < s.nextId && s.table[id].holder == o && s.table[id].resource in ids[..n])
    && (forall r :: r in ids[..n] ==> Leased(s.table, r))
  }

  lemma WaitsForOwn(s: State, o: string, ids: seq<ResourceID>, n: nat)
    requires AloneAt(s, o, ids, n) && n < |ids| && ids[n] in ids[..n]
    ensures WaitsFor(s, o, o)
  {
    assert Leased(s.table, ids[n]);
    var id :| id in s.table && s.table[id].resource == ids[n];
    assert Conflict(s.table[id].mode, Exclusive);
  }

  lemma TakesOne(s: State, o: string, ids: seq<ResourceID>, n: nat)
    requires AloneAt(s, o, ids, n) && n < |ids| && ids[n] !in ids[..n]
    ensures CanTake(s, o) && AloneAt(Step(s, Take(o, 0)), o, ids, n + 1)
  {
    var u := Step(s, Take(o, 0));
    assert ids[..n + 1] == ids[..n] + [ids[n]];
    assert s.nextId in u.table && u.table[s.nextId].resource == ids[n];
    forall r | r in ids[..n + 1] ensures Leased(u.table, r) {
      if r != ids[n] {
        assert Leased(s.table, r);
        var id :| id in s.table && s.table[id].resource == r;
        assert id in u.table && u.table[id].resource == r;
      }
    }
  }

  /** The operation takes resource after resource until it meets one it has. */
  lemma {:induction false} TakesUntilRepeat(s: State, o: string, ids: seq<ResourceID>, n: nat, j: nat) returns (acts: seq<Action>, t: State)
    requires AloneAt(s, o, ids, n) && n <= j < |ids|
    requires ids[j] in ids[..j]
    ensures Run(s, acts, t) && WaitsFor(t, o, o) && forall i :: 0 <= i < |acts| ==> acts[i].Take?
    decreases j - n
  {
    if ids[n] in ids[..n] {
      WaitsForOwn(s, o, ids, n);
      acts, t := [], s;
    } else {
      var a := Take(o, 0);
      TakesOne(s, o, ids, n);
      var u, rest := Step(s, a), [];
      hide AloneAt, CanTake, WaitsFor, Step;
      rest, t := TakesUntilRepeat(u, o, ids, n + 1, j);
      acts := [a] + rest;
      assert acts[1..] == rest;
    }
  }

  /** A repeated type is repeated in the sorted list. */
  lemma RepeatAt(types: seq<string>) returns (j: nat)
    requires !Distinct(types)
    ensures var s := Sorting.Sort(Strings.Less, types); j < |s| && s[j] in s[..j]
  {
    var s := Sorting.Sort(Strings.Less, types);
    Sorting.SortPermutes(Strings.Less, types);
    DistinctCounts(types);
    DistinctCounts(s);
    var k, l :| 0 <= k < l < |s| && s[k] == s[l];
    j := l;
    assert s[..j][k] == s[j];
  }

  /** An operation that lists a type twice, alone from the start: some run ends with it
      waiting for itself. */
  lemma RepeatedTypeRun(o: string, device: ID, types: seq<string>) returns (acts: seq<Action>, s: State)
    requires !Distinct(types)
    ensures Requiring(acts, types) && Run(EMPTY, acts, s) && WaitsFor(s, o, o)
  {
    var ids := Sorting.Sort(Strings.Less, types);
    var byID := map t | t in ids :: Resource(t, t, device);
    AscendingExactly(types);
    var j := RepeatAt(types);
    var begin := Begin(o, device, types, ids, byID);
    assert Enabled(EMPTY, begin);
    var s1 := Step(EMPTY, begin);
    assert AloneAt(s1, o, ids, 0);
    var rest;
    rest, s := TakesUntilRepeat(s1, o, ids, 0, j);
    acts := [begin] + rest;
    assert acts[1..] == rest;
  }

  lemma NoSelfWait(acts: seq<Action>, s: State, o: string)
    requires Run(EMPTY, acts, s) && DistinctTypes(acts)
    ensures !WaitsFor(s, o, o)
  {
    RunInOrder(EMPTY, acts, s);
    hide Run, DistinctTypes, Inv, AllInOrder, WaitsFor;
    if WaitsFor(s, o, o) {
      ChainOfTwo(s, o, o);
      Acyclic(s, [o, o]);
    }
  }

  /** Some run of operations that require these types reaches a state in which one waits
      for itself, if and only if a type is listed twice. */
  lemma SelfWaitExactly(types: seq<string>)
    ensures (exists acts, s, o :: Requiring(acts, types) && Run(EMPTY, acts, s) && WaitsFor(s, o, o)) <==> !Distinct(types)
  {
    if Distinct(types) {
      forall acts, s, o | Requiring(acts, types) && Run(EMPTY, acts, s) ensures !WaitsFor(s, o, o) {
        assert DistinctTypes(acts);
        NoSelfWait(acts, s, o);
      }
    } else {
      var acts, s := RepeatedTypeRun("op", "device", types);
    }
  }
}

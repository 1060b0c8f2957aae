/** core/resource/lock_manager.go: SHARED and EXCLUSIVE leases, held in a list per
    resource and in an index by lease ID, both pointing at the same lease objects. */
module Locks {
  import opened Results

  datatype LockMode = Shared | Exclusive
  type ResourceID = string
  type Time = int
  type LeaseID = nat

  /** EXCLUSIVE conflicts with everything, SHARED only with EXCLUSIVE. */
  predicate Conflict(a: LockMode, b: LockMode) {
    a == Exclusive || b == Exclusive
  }

  /** A lease as a value. */
  datatype LeaseRec = LeaseRec(resource: ResourceID, holder: string, mode: LockMode, expiresAt: Time) {
    predicate Expired(now: Time) { now > expiresAt }
  }

  type Table = map<LeaseID, LeaseRec>

  /** The lease table at some time. */
  datatype Moment = Moment(table: Table, at: Time)

  /** Some lease in the table conflicts with taking resource in this mode. */
  ghost predicate Blocked(t: Table, resource: ResourceID, mode: LockMode) {
    exists id :: id in t && t[id].resource == resource && Conflict(t[id].mode, mode)
  }

  ghost function Unexpired(t: Table, now: Time): Table {
    map id | id in t && !t[id].Expired(now) :: t[id]
  }

  /** A lease counts up to the moment it ends. */
  lemma UnexpiredMeans(t: Table, now: Time)
    ensures forall id :: id in Unexpired(t, now) <==> id in t && now <= t[id].expiresAt
    ensures forall id :: id in Unexpired(t, now) ==> Unexpired(t, now)[id] == t[id]
  {
  }

  /** A lease stands in the way exactly if it is on the resource, has not run out, and it
      or the one asked for is EXCLUSIVE. */
  lemma BlockedMeans(t: Table, now: Time, rid: ResourceID, mode: LockMode)
    ensures Blocked(Unexpired(t, now), rid, mode) <==>
              exists id :: id in t && t[id].resource == rid && now <= t[id].expiresAt && (mode == Exclusive || t[id].mode == Exclusive)
  {
    UnexpiredMeans(t, now);
    assert forall id :: id in Unexpired(t, now) ==> (Conflict(t[id].mode, mode) <==> mode == Exclusive || t[id].mode == Exclusive);
    hide Unexpired;
  }

  /** Two leases on one resource are both SHARED: a resource is held by any number of
      sharers or by one exclusive holder. */
  ghost predicate MutualExclusion(t: Table) {
    forall a, b :: a in t && b in t && a != b && t[a].resource == t[b].resource ==> !Conflict(t[a].mode, t[b].mode)
  }

  class Lease {
    const id: LeaseID
    const resource: ResourceID
    const holder: string
    const mode: LockMode
    var expiresAt: Time

    constructor (id: LeaseID, resource: ResourceID, holder: string, mode: LockMode, expiresAt: Time)
      ensures this.id == id && this.resource == resource && this.holder == holder && this.mode == mode
      ensures this.expiresAt == expiresAt
    {
      this.id, this.resource, this.holder, this.mode, this.expiresAt := id, resource, holder, mode, expiresAt;
    }

    ghost function Rec(): LeaseRec
      reads this
    {
      LeaseRec(resource, holder, mode, expiresAt)
    }

    predicate Expired(now: Time)
      reads this
    {
      now > expiresAt
    }
  }

  type Lists = map<ResourceID, seq<Lease>>
  type Index = map<LeaseID, Lease>

  ghost predicate GoodList(r: ResourceID, list: seq<Lease>, index: Index) {
    && (forall l :: l in list ==> l.resource == r && l.id in index && index[l.id] == l)
    && (forall i, j :: 0 <= i < j < |list| ==> list[i] != list[j] && !Conflict(list[i].mode, list[j].mode))
  }

  /** The lists hold leases of their own resource, each once, and exactly those of the
      index; the leases of one list are all SHARED or a single EXCLUSIVE one. */
  ghost predicate Agree(lists: Lists, index: Index) {
    && (forall id :: id in index ==> index[id].id == id && index[id].resource in lists && index[id] in lists[index[id].resource])
    && (forall r :: r in lists ==> GoodList(r, lists[r], index))
  }

  /** Every ID was handed out, and every lease granted, by this manager. */
  ghost predicate Bounded(index: Index, next: LeaseID, repr: set<Lease>) {
    forall id :: id in index ==> id < next && index[id] in repr
  }

  /** Order-preserving filter of a list. */
  ghost function Kept(list: seq<Lease>, gone: set<Lease>): seq<Lease> {
    if list == [] then []
    else Kept(list[..|list| - 1], gone) + (if list[|list| - 1] in gone then [] else [list[|list| - 1]])
  }

  lemma {:induction false} KeptMembers(list: seq<Lease>, gone: set<Lease>, r: ResourceID, index: Index)
    requires GoodList(r, list, index)
    ensures forall l :: l in Kept(list, gone) ==> l in list && l !in gone
    ensures forall l :: l in list && l !in gone ==> l in Kept(list, gone)
    ensures forall i, j :: 0 <= i < j < |Kept(list, gone)| ==>
              Kept(list, gone)[i] != Kept(list, gone)[j] && !Conflict(Kept(list, gone)[i].mode, Kept(list, gone)[j].mode)
  {
    if list != [] {
      var n := |list| - 1;
      assert GoodList(r, list[..n], index);
      KeptMembers(list[..n], gone, r, index);
      forall l | l in list[..n] ensures l != list[n] && !Conflict(l.mode, list[n].mode) {
        var i :| 0 <= i < n && list[i] == l;
      }
      var k := Kept(list[..n], gone);
      forall x | x in k ensures x != list[n] && !Conflict(x.mode, list[n].mode) {
        assert x in list[..n];
      }
      forall i | 0 <= i < |k| ensures k[i] != list[n] && !Conflict(k[i].mode, list[n].mode) {
        assert k[i] in k;
      }
    }
  }

  ghost function Without(index: Index, gone: set<Lease>): Index {
    map id | id in index && index[id] !in gone :: index[id]
  }

  /** Dropping a set of leases from both indices keeps them in agreement. */
  lemma DropAgrees(lists: Lists, index: Index, gone: set<Lease>, lists': Lists, index': Index)
    requires Agree(lists, index)
    requires lists'.Keys == lists.Keys && forall r :: r in lists ==> lists'[r] == Kept(lists[r], gone)
    requires index' == Without(index, gone)
    ensures Agree(lists', index')
  {
    forall r | r in lists' ensures GoodList(r, lists'[r], index') { KeptMembers(lists[r], gone, r, index); }
    forall id | id in index' ensures index'[id] in lists'[index'[id].resource] {
      KeptMembers(lists[index[id].resource], gone, index[id].resource, index);
    }
  }

  lemma {:induction false} KeptAll(list: seq<Lease>, gone: set<Lease>)
    requires forall l :: l in list ==> l !in gone
    ensures Kept(list, gone) == list
  {
    if list != [] { KeptAll(list[..|list| - 1], gone); }
  }

  /** Below next, the later index has only what the earlier one had. */
  ghost predicate Sticks(before: Index, next: LeaseID, after: Index) {
    forall id :: id in after && id < next ==> id in before && before[id] == after[id]
  }

  ghost function Adding(t: Table, l: Lease): Table
    reads l
  {
    t[l.id := l.Rec()]
  }

  /** A critical section that looked for a lease, in the table as it was then, or that
      extended or removed one: whose it was. */
  datatype Turn =
    | Look(holder: string, resource: ResourceID, mode: LockMode, table: Table)
    | Change(holder: string)

  /** The turns of releasing these leases. */
  ghost function ChangesOf(ls: seq<Lease>): seq<Turn> {
    seq(|ls|, i requires 0 <= i < |ls| => Change(ls[i].holder))
  }

  lemma SticksRefl(index: Index, next: LeaseID)
    ensures Sticks(index, next, index)
  {
  }

  lemma SticksTrans(a: Index, n: LeaseID, b: Index, m: LeaseID, c: Index)
    requires Sticks(a, n, b) && Sticks(b, m, c) && n <= m
    ensures Sticks(a, n, c)
  {
  }

  /** Between the two tables this holder took nothing and lost only what had expired. */
  ghost predicate Untouched(before: Table, after: Table, holder: string, later: Time) {
    && (forall id :: id in after && after[id].holder == holder ==> id in before && before[id] == after[id])
    && (forall id :: id in before && before[id].holder == holder ==>
          (id in after && after[id] == before[id]) || before[id].Expired(later))
  }

  lemma UntouchedByPrune(t: Table, holder: string, now: Time)
    ensures Untouched(t, t, holder, now) && Untouched(t, Unexpired(t, now), holder, now)
  {
  }

  ghost predicate Refused(turn: Turn, holder: string, rids: seq<ResourceID>, mode: LockMode) {
    turn.Look? && turn.holder == holder && turn.mode == mode && turn.resource in rids && Blocked(turn.table, turn.resource, mode)
  }

  /** One of these turns was the holder's look for one of the resources, and met a conflict. */
  ghost predicate Denied(before: seq<Turn>, after: seq<Turn>, holder: string, rids: seq<ResourceID>, mode: LockMode) {
    exists k :: |before| <= k < |after| && Refused(after[k], holder, rids, mode)
  }

  lemma DeniedMore(a: seq<Turn>, b: seq<Turn>, c: seq<Turn>, d: seq<Turn>,
                   holder: string, rids: seq<ResourceID>, more: seq<ResourceID>, mode: LockMode)
    requires a <= b <= c <= d && Denied(b, c, holder, rids, mode) && forall r :: r in rids ==> r in more
    ensures Denied(a, d, holder, more, mode)
  {
    var k :| |b| <= k < |c| && Refused(c[k], holder, rids, mode);
    assert Refused(d[k], holder, more, mode);
  }

  /** Nobody else had a turn. */
  ghost predicate Alone(before: seq<Turn>, after: seq<Turn>, holder: string) {
    before <= after && forall k :: |before| <= k < |after| ==> after[k].holder == holder
  }

  /** Only others had turns. */
  ghost predicate OnlyOthers(before: seq<Turn>, after: seq<Turn>, holder: string) {
    before <= after && forall k :: |before| <= k < |after| ==> after[k].holder != holder
  }

  lemma AloneParts(a: seq<Turn>, b: seq<Turn>, c: seq<Turn>, holder: string)
    requires a <= b <= c && Alone(a, c, holder)
    ensures Alone(a, b, holder) && Alone(b, c, holder)
  {
    assert forall k :: 0 <= k < |b| ==> b[k] == c[k];
  }

  lemma OthersTrans(a: seq<Turn>, b: seq<Turn>, c: seq<Turn>, holder: string)
    requires OnlyOthers(a, b, holder) && OnlyOthers(b, c, holder)
    ensures OnlyOthers(a, c, holder)
  {
    assert forall k :: 0 <= k < |b| ==> b[k] == c[k];
  }

  lemma DeniedNow(a: seq<Turn>, b: seq<Turn>, holder: string, rid: ResourceID, mode: LockMode, t: Table)
    requires a <= b && Blocked(t, rid, mode)
    ensures Denied(a, b + [Look(holder, rid, mode, t)], holder, [rid], mode)
  {
    assert Refused((b + [Look(holder, rid, mode, t)])[|b|], holder, [rid], mode);
  }

  lemma OthersAfter(a: seq<Turn>, b: seq<Turn>, holder: string)
    requires OnlyOthers(a, b, holder)
    ensures a <= b
  {
  }

  /** A turn of another's shows. */
  lemma OthersShow(a: seq<Turn>, b: seq<Turn>, holder: string)
    requires OnlyOthers(a, b, holder)
    ensures a == b || !Alone(a, b, holder)
  {
    if |a| < |b| { assert b[|a|].holder != holder; }
  }

  /** The lock manager at some time. */
  datatype View = View(table: Table, index: Index, next: LeaseID, clock: Time, turns: seq<Turn>)

  /** From one view to the other this holder had no turn; if nobody had, only time passed. */
  ghost predicate Lets(v: View, w: View, holder: string) {
    && v.clock <= w.clock && v.next <= w.next && Sticks(v.index, v.next, w.index)
    && Untouched(v.table, w.table, holder, w.clock)
    && OnlyOthers(v.turns, w.turns, holder) && (w.turns == v.turns ==> w.table == v.table)
  }

  lemma UntouchedTrans(a: Table, b: Table, c: Table, holder: string, t: Time, u: Time)
    requires Untouched(a, b, holder, t) && Untouched(b, c, holder, u) && t <= u
    ensures Untouched(a, c, holder, u)
  {
  }

  lemma LetsTrans(u: View, v: View, w: View, holder: string)
    requires Lets(u, v, holder) && Lets(v, w, holder)
    ensures Lets(u, w, holder)
  {
    hide Sticks, Untouched, OnlyOthers;
    SticksTrans(u.index, u.next, v.index, v.next, w.index);
    UntouchedTrans(u.table, v.table, w.table, holder, v.clock, w.clock);
    OthersTrans(u.turns, v.turns, w.turns, holder);
    OthersAfter(u.turns, v.turns, holder);
    OthersAfter(v.turns, w.turns, holder);
  }

  lemma Waits(v: View, w: View, holder: string)
    requires w == v.(clock := w.clock) && v.clock <= w.clock
    ensures Lets(v, w, holder)
  {
  }

  /** The turn of whoever looked for a lease, and of whoever had it. */
  lemma LookLets(v: View, w: View, who: string, rid: ResourceID, mode: LockMode)
    requires w.table == Unexpired(v.table, v.clock) && w.clock == v.clock && v.next <= w.next && Sticks(v.index, v.next, w.index)
    requires w.turns == v.turns + [Look(who, rid, mode, Unexpired(v.table, v.clock))]
    ensures forall holder :: who != holder ==> Lets(v, w, holder)
  {
    hide Sticks;
  }

  ghost predicate Below(t: Table, next: LeaseID) {
    forall id :: id in t ==> id < next
  }

  lemma TakeLets(v: View, w: View, id: LeaseID, rec: LeaseRec)
    requires Below(v.table, v.next) && w.clock == v.clock && v.next <= id < w.next && Sticks(v.index, v.next, w.index)
    requires w.turns == v.turns + [Look(rec.holder, rec.resource, rec.mode, Unexpired(v.table, v.clock))]
    requires w.table == Unexpired(v.table, v.clock)[id := rec]
    ensures forall holder :: rec.holder != holder ==> Lets(v, w, holder)
  {
    hide Sticks;
  }

  /** The turn of whoever released or renewed a lease. */
  lemma ChangeLets(v: View, w: View, id: LeaseID, end: Time)
    requires id in v.table && w.clock == v.clock && v.next <= w.next && Sticks(v.index, v.next, w.index)
    requires w.turns == v.turns + [Change(v.table[id].holder)]
    requires w.table == v.table - {id} || w.table == v.table[id := v.table[id].(expiresAt := end)]
    ensures forall holder :: v.table[id].holder != holder ==> Lets(v, w, holder)
  {
    hide Sticks;
  }

  lemma LetsRefl(v: View, holder: string)
    ensures Lets(v, v, holder)
  {
  }

  /** From one view to the other this holder may have had turns, and is left with the leases
      it had, save those expired. */
  ghost predicate Restores(v: View, w: View, holder: string) {
    v.clock <= w.clock && v.turns <= w.turns && Untouched(v.table, w.table, holder, w.clock)
  }

  lemma LetsRestores(v: View, w: View, holder: string)
    requires Lets(v, w, holder)
    ensures Restores(v, w, holder)
  {
  }

  lemma RestoresTrans(u: View, v: View, w: View, holder: string)
    requires Restores(u, v, holder) && Restores(v, w, holder)
    ensures Restores(u, w, holder)
  {
    hide Untouched;
    UntouchedTrans(u.table, v.table, w.table, holder, v.clock, w.clock);
  }

  ghost function IdsOf(ls: seq<Lease>): set<LeaseID> {
    set l | l in ls :: l.id
  }

  /** The leases returned are those granted, one per resource asked for, in order. */
  ghost predicate Granted(ls: seq<Lease>, granted: Table, rids: seq<ResourceID>, holder: string, mode: LockMode) {
    && |ls| == |rids| && granted.Keys == IdsOf(ls)
    && (forall i, j :: 0 <= i < j < |ls| ==> ls[i].id != ls[j].id)
    && (forall i :: 0 <= i < |ls| ==> granted[ls[i].id].(expiresAt := 0) == LeaseRec(rids[i], holder, mode, 0))
  }

  /** Every lease granted ends in this span of time. */
  ghost predicate Ends(granted: Table, from: Time, to: Time) {
    forall id :: id in granted ==> from <= granted[id].expiresAt <= to
  }

  ghost predicate Lasting(granted: Table, until: Time) {
    forall id :: id in granted ==> until <= granted[id].expiresAt
  }

  /** The index has, under the ID of each of these leases, that lease or nothing. */
  ghost predicate InPlace(ls: seq<Lease>, index: Index, next: LeaseID) {
    forall l :: l in ls ==> l.id < next && (l.id in index ==> index[l.id] == l)
  }

  /** The holder has been granted these resources exclusively and in order, until then at
      least, on top of the leases it had before; each of the leases is in the table unless
      it has expired. */
  ghost predicate Holding(v: View, holder: string, rids: seq<ResourceID>, ls: seq<Lease>, granted: Table, before: Table, until: Time) {
    && Granted(ls, granted, rids, holder, Exclusive) && Lasting(granted, until)
    && granted.Keys !! before.Keys && InPlace(ls, v.index, v.next)
    && Untouched(before + granted, v.table, holder, v.clock)
  }

  lemma InPlaceSticks(ls: seq<Lease>, b: Index, n: LeaseID, c: Index, m: LeaseID)
    requires InPlace(ls, b, n) && Sticks(b, n, c) && n <= m
    ensures InPlace(ls, c, m)
  {
  }

  /** While others have their turns that stays so. */
  lemma StillHolding(v: View, w: View, holder: string, rids: seq<ResourceID>, ls: seq<Lease>, granted: Table, before: Table, until: Time)
    requires Holding(v, holder, rids, ls, granted, before, until) && Lets(v, w, holder)
    ensures Holding(w, holder, rids, ls, granted, before, until)
  {
    hide Granted, InPlace, Sticks, Untouched, Lasting, OnlyOthers;
    InPlaceSticks(ls, v.index, v.next, w.index, w.next);
    UntouchedTrans(before + granted, v.table, w.table, holder, v.clock, w.clock);
  }

  /** Whoever asks for nothing has it. */
  lemma HoldingNone(v: View, holder: string, until: Time)
    ensures Holding(v, holder, [], [], map[], v.table, until)
  {
    UntouchedByPrune(v.table, holder, v.clock);
    assert v.table + map[] == v.table;
  }

  lemma GrantedIds(ls: seq<Lease>, granted: Table, rids: seq<ResourceID>, holder: string, mode: LockMode)
    requires Granted(ls, granted, rids, holder, mode)
    ensures granted.Keys == IdsOf(ls)
  {
  }

  /** The last lease granted ends then. */
  ghost predicate LastEnds(ls: seq<Lease>, granted: Table, end: Time) {
    ls != [] && ls[|ls| - 1].id in granted && granted[ls[|ls| - 1].id].expiresAt == end
  }

  /** None of these resources has a conflicting unexpired lease. */
  ghost predicate Free(t: Table, now: Time, rids: seq<ResourceID>, mode: LockMode) {
    forall i :: 0 <= i < |rids| ==> !Blocked(Unexpired(t, now), rids[i], mode)
  }

  ghost predicate NoRepeats(rids: seq<ResourceID>) {
    forall i, j :: 0 <= i < j < |rids| ==> rids[i] != rids[j]
  }

  /** A lease on another resource leaves these free. */
  lemma StaysFree(t: Table, now: Time, rids: seq<ResourceID>, mode: LockMode, t': Table, id: LeaseID, rec: LeaseRec)
    requires Free(t, now, rids, mode) && rec.resource !in rids && t' == Unexpired(t, now)[id := rec]
    ensures Free(t', now, rids, mode)
  {
    assert forall x :: x in Unexpired(t', now) && x != id ==> x in Unexpired(t, now) && t'[x] == t[x];
  }

  /** Time passing frees more. */
  lemma FreeLater(t: Table, now: Time, later: Time, rids: seq<ResourceID>, mode: LockMode)
    requires Free(t, now, rids, mode) && now <= later
    ensures Free(t, later, rids, mode)
  {
    assert forall id :: id in Unexpired(t, later) ==> id in Unexpired(t, now) && Unexpired(t, later)[id] == Unexpired(t, now)[id];
  }

  lemma FreeHead(t: Table, now: Time, rid: ResourceID, rest: seq<ResourceID>, mode: LockMode)
    requires Free(t, now, [rid] + rest, mode)
    ensures !Blocked(Unexpired(t, now), rid, mode) && Free(t, now, rest, mode)
  {
    var all := [rid] + rest;
    assert all[0] == rid;
    forall i | 0 <= i < |rest| ensures !Blocked(Unexpired(t, now), rest[i], mode) { assert rest[i] == all[i + 1]; }
  }

  /** AcquireAll part of the way through: from the entry state t0, b0, n0 it has come
      to t, b, n with these leases in hand. */
  ghost predicate Progress(t0: Table, b0: Index, n0: LeaseID, t: Table, b: Index, n: LeaseID, ls: seq<Lease>, granted: Table,
                           rids: seq<ResourceID>, holder: string, mode: LockMode, now: Time)
  {
    && Sticks(b0, n0, b) && n0 <= n && Below(t0, n0)
    && Untouched(t0 + granted, t, holder, now)
    && Granted(ls, granted, rids, holder, mode) && InPlace(ls, b, n) && granted.Keys !! t0.Keys
  }

  lemma ProgressStarts(t0: Table, b0: Index, n0: LeaseID, holder: string, mode: LockMode, now: Time)
    requires Below(t0, n0)
    ensures Progress(t0, b0, n0, t0, b0, n0, [], map[], [], holder, mode, now)
  {
    assert t0 + map[] == t0;
  }

  lemma UntouchedGrant(a: Table, b: Table, id: LeaseID, rec: LeaseRec, holder: string, now: Time)
    requires Untouched(a, b, holder, now)
    ensures Untouched(a[id := rec], b[id := rec], holder, now)
  {
  }

  lemma TakeOne(t0: Table, granted: Table, t: Table, t': Table, id: LeaseID, rec: LeaseRec, holder: string, u: Time, now: Time)
    requires Untouched(t0 + granted, t, holder, u) && Untouched(t[id := rec], t', holder, now) && u <= now
    ensures Untouched(t0 + granted[id := rec], t', holder, now)
  {
    UntouchedGrant(t0 + granted, t, id, rec, holder, u);
    UntouchedTrans((t0 + granted)[id := rec], t[id := rec], t', holder, u, now);
    assert (t0 + granted)[id := rec] == t0 + granted[id := rec];
  }

  lemma GrantedStep(ls: seq<Lease>, granted: Table, rids: seq<ResourceID>, holder: string, mode: LockMode,
                    b: Index, n: LeaseID, c: Index, m: LeaseID, l: Lease)
    requires Granted(ls, granted, rids, holder, mode) && InPlace(ls, b, n) && InPlace(ls, c, m)
    requires n <= l.id < m && l.id in c && c[l.id] == l
    requires l.holder == holder && l.mode == mode
    ensures Granted(ls + [l], granted[l.id := l.Rec()], rids + [l.resource], holder, mode)
    ensures InPlace(ls + [l], c, m)
  {
    assert forall i :: 0 <= i < |ls| ==> ls[i] in ls;
    assert IdsOf(ls + [l]) == IdsOf(ls) + {l.id};
  }

  lemma ProgressStep(t0: Table, b0: Index, n0: LeaseID, t: Table, b: Index, n: LeaseID, ls: seq<Lease>, granted: Table,
                     rids: seq<ResourceID>, holder: string, mode: LockMode, u: Time,
                     t': Table, b': Index, n': LeaseID, l: Lease, now: Time)
    requires Progress(t0, b0, n0, t, b, n, ls, granted, rids, holder, mode, u)
    requires Sticks(b, n, b') && n <= l.id < n' && l.id in b' && b'[l.id] == l && l.holder == holder && l.mode == mode
    requires Untouched(Adding(t, l), t', holder, now) && u <= now
    ensures Progress(t0, b0, n0, t', b', n', ls + [l], Adding(granted, l), rids + [l.resource], holder, mode, now)
  {
    hide Granted, Untouched;
    SticksTrans(b0, n0, b, n, b');
    InPlaceSticks(ls, b, n, b', n');
    GrantedStep(ls, granted, rids, holder, mode, b, n, b', n', l);
    TakeOne(t0, granted, t, t', l.id, l.Rec(), holder, u, now);
  }

  lemma ProgressWaits(t0: Table, b0: Index, n0: LeaseID, t: Table, b: Index, n: LeaseID, ls: seq<Lease>, granted: Table,
                      rids: seq<ResourceID>, holder: string, mode: LockMode, u: Time, t': Table, b': Index, n': LeaseID, now: Time)
    requires Progress(t0, b0, n0, t, b, n, ls, granted, rids, holder, mode, u)
    requires Sticks(b, n, b') && n <= n' && Untouched(t, t', holder, now) && u <= now
    ensures Progress(t0, b0, n0, t', b', n', ls, granted, rids, holder, mode, now)
  {
    hide Granted, Untouched;
    SticksTrans(b0, n0, b, n, b');
    InPlaceSticks(ls, b, n, b', n');
    UntouchedTrans(t0 + granted, t, t', holder, u, now);
  }

  lemma UntouchedByRollback(t: Table, granted: Table, u: Table, holder: string, now: Time)
    requires Untouched(t + granted, u, holder, now) && granted.Keys !! t.Keys
    ensures Untouched(t, u - granted.Keys, holder, now)
  {
  }

  /** A refusal: giving the leases in hand back undoes the call. */
  lemma ProgressEnds(t0: Table, b0: Index, n0: LeaseID, t: Table, b: Index, n: LeaseID, ls: seq<Lease>, granted: Table,
                     rids: seq<ResourceID>, holder: string, mode: LockMode, now: Time)
    requires Progress(t0, b0, n0, t, b, n, ls, granted, rids, holder, mode, now)
    ensures n0 <= n && Sticks(b0, n0, b - IdsOf(ls))
    ensures InPlace(ls, b, n) && Untouched(t0, t - IdsOf(ls), holder, now)
  {
    UntouchedByRollback(t0, granted, t, holder, now);
  }

  lemma ProgressMeans(t0: Table, b0: Index, n0: LeaseID, t: Table, b: Index, n: LeaseID, ls: seq<Lease>, granted: Table,
                      rids: seq<ResourceID>, holder: string, mode: LockMode, now: Time)
    requires Progress(t0, b0, n0, t, b, n, ls, granted, rids, holder, mode, now)
    ensures n0 <= n && Sticks(b0, n0, b) && Untouched(t0 + granted, t, holder, now)
    ensures Granted(ls, granted, rids, holder, mode) && granted.Keys !! t0.Keys && InPlace(ls, b, n)
  {
  }

  lemma {:induction false} KeptWithoutOne(list: seq<Lease>, i: nat)
    requires i < |list| && forall k :: 0 <= k < |list| && k != i ==> list[k] != list[i]
    ensures Kept(list, {list[i]}) == list[..i] + list[i + 1..]
  {
    var n := |list| - 1;
    if i == n {
      KeptAll(list[..n], {list[i]});
    } else {
      KeptWithoutOne(list[..n], i);
      assert list[..n][i + 1..] + [list[n]] == list[i + 1..] && list[..n][..i] == list[..i];
    }
  }

  ghost function TableOf(index: Index): Table
    reads index.Values
  {
    map id | id in index :: index[id].Rec()
  }

  /** No expiry changed, so the same index stands for the same table. */
  twostate lemma SameTable(index: Index)
    requires forall id :: id in index ==> index[id].expiresAt == old(index[id].expiresAt)
    ensures TableOf(index) == old(TableOf(index))
  {
    assert forall id :: id in index ==> index[id].Rec() == old(index[id].Rec());
  }

  ghost function ExpiredIn(index: Index, now: Time): set<Lease>
    reads index.Values
  {
    set l | l in index.Values && l.Expired(now)
  }

  lemma TableWithoutExpired(index: Index, now: Time)
    ensures TableOf(Without(index, ExpiredIn(index, now))) == Unexpired(TableOf(index), now)
  {
    assert forall id :: id in index ==> (index[id] in ExpiredIn(index, now) <==> index[id].Rec().Expired(now));
  }

  /** A conflict in the table is a conflict in the resource's list. */
  lemma BlockedByList(lists: Lists, index: Index, list: seq<Lease>, rid: ResourceID, mode: LockMode)
    requires Agree(lists, index) && list == if rid in lists then lists[rid] else []
    ensures Blocked(TableOf(index), rid, mode) <==> exists l :: l in list && Conflict(l.mode, mode)
  {
    assert rid in lists ==> GoodList(rid, list, index);
    var t := TableOf(index);
    if l :| l in list && Conflict(l.mode, mode) {
      assert l.id in t && t[l.id].resource == rid;
    }
    if id :| id in t && t[id].resource == rid && Conflict(t[id].mode, mode) {
      assert index[id] in list;
    }
  }

  /** The members of a list that are in gone. */
  ghost function Among(list: seq<Lease>, gone: set<Lease>): set<Lease> {
    set l | l in list && l in gone
  }

  lemma WithoutOne(index: Index, list: seq<Lease>, l: Lease, gone: set<Lease>)
    requires l in gone && l.id in index && index[l.id] == l && forall id :: id in index ==> index[id].id == id
    ensures Without(index, Among(list + [l], gone)) == Without(index, Among(list, gone)) - {l.id}
  {
    assert Among(list + [l], gone) == Among(list, gone) + {l};
  }

  lemma TableWithOneMore(index: Index, l: Lease)
    ensures TableOf(index[l.id := l]) == TableOf(index)[l.id := l.Rec()]
  {
  }

  lemma TableWithoutId(index: Index, id: LeaseID)
    ensures TableOf(index - {id}) == TableOf(index) - {id}
  {
  }

  lemma KeptElsewhere(lists: Lists, index: Index, r: ResourceID, l: Lease)
    requires Agree(lists, index) && r in lists && r != l.resource
    ensures Kept(lists[r], {l}) == lists[r]
  {
    assert GoodList(r, lists[r], index);
    KeptAll(lists[r], {l});
  }

  lemma WithoutById(lists: Lists, index: Index, l: Lease)
    requires Agree(lists, index) && (l.id in index ==> index[l.id] == l)
    ensures index - {l.id} == Without(index, {l})
  {
  }

  lemma DropOneAgrees(lists: Lists, index: Index, l: Lease, lists': Lists)
    requires Agree(lists, index) && (l.id in index ==> index[l.id] == l)
    requires lists' == if l.resource in lists then lists[l.resource := Kept(lists[l.resource], {l})] else lists
    ensures Agree(lists', index - {l.id})
  {
    hide Agree, Kept, Without;
    forall r | r in lists ensures lists'[r] == Kept(lists[r], {l}) {
      if r != l.resource { KeptElsewhere(lists, index, r, l); }
    }
    WithoutById(lists, index, l);
    DropAgrees(lists, index, {l}, lists', index - {l.id});
  }

  /** The leases of gone whose resource is not in left. */
  ghost function Elsewhere(gone: set<Lease>, left: set<ResourceID>): set<Lease> {
    set l | l in gone && l.resource !in left
  }

  lemma BoundedLess(index: Index, next: LeaseID, repr: set<Lease>, id: LeaseID)
    requires Bounded(index, next, repr)
    ensures Bounded(index - {id}, next, repr) && Sticks(index, next, index - {id})
  {
  }

  lemma FewerEntries(index: Index, gone: set<Lease>, next: LeaseID, repr: set<Lease>)
    requires Bounded(index, next, repr)
    ensures Bounded(Without(index, gone), next, repr) && Sticks(index, next, Without(index, gone))
  {
  }

  lemma NothingElsewhere(lists: Lists, index: Index, gone: set<Lease>)
    requires Agree(lists, index)
    ensures Without(index, Elsewhere(gone, lists.Keys)) == index && Elsewhere(gone, {}) == gone
  {
    assert forall id :: id in index ==> index[id].resource in lists.Keys;
  }

  /** One turn of the prune loop: the list still fits the index pruned so far, and its
      expired members are the next to go. */
  lemma AmongList(lists: Lists, index: Index, now: Time, rid: ResourceID, left: set<ResourceID>)
    requires Agree(lists, index) && rid in left && rid in lists
    ensures var gone := ExpiredIn(index, now);
            var sofar := Without(index, Elsewhere(gone, left));
            && (forall id :: id in sofar ==> sofar[id].id == id)
            && (forall l :: l in lists[rid] ==> (l in gone <==> l.Expired(now)) && l.id in sofar && sofar[l.id] == l)
            && Without(sofar, Among(lists[rid], gone)) == Without(index, Elsewhere(gone, left - {rid}))
  {
    assert GoodList(rid, lists[rid], index);
  }

  lemma AddAgrees(lists: Lists, index: Index, l: Lease, list: seq<Lease>)
    requires Agree(lists, index) && l.id !in index
    requires list == if l.resource in lists then lists[l.resource] else []
    requires forall x :: x in list ==> !Conflict(x.mode, l.mode)
    requires forall id :: id in index ==> index[id] != l
    ensures Agree(lists[l.resource := list + [l]], index[l.id := l])
  {
    var lists', index' := lists[l.resource := list + [l]], index[l.id := l];
    forall r | r in lists' ensures GoodList(r, lists'[r], index') {
      if r in lists { assert GoodList(r, lists[r], index); }
    }
  }

  class Manager {
    var leases: Lists
    var byLease: Index
    ghost var Repr: set<Lease>   // every lease ever granted
    var nextId: LeaseID   // NewLeaseID: every ID handed out so far is below it
    var clock: Time   // what now answers, moving on between critical sections
    ghost var turns: seq<Turn>   // looks, and leases changed, oldest first

    ghost predicate Valid()
      reads this`leases, this`byLease, this`nextId, this`Repr
    {
      Agree(leases, byLease) && Bounded(byLease, nextId, Repr)
    }

    /** The lease table both indices stand for. */
    ghost function Table(): Table
      reads this`byLease, byLease.Values
    {
      TableOf(byLease)
    }

    ghost function State(): View
      reads this`byLease, this`nextId, this`clock, this`turns, byLease.Values
    {
      View(Table(), byLease, nextId, clock, turns)
    }

    ghost function Now(): Moment
      reads this`byLease, this`clock, byLease.Values
    {
      Moment(Table(), clock)
    }

    /** Entries are old ones, or carry a new lease under a new ID. */
    twostate predicate NoReuse()
      reads this
    {
      old(nextId) <= nextId && Sticks(old(byLease), old(nextId), byLease) && fresh(Repr - old(Repr))
    }

    constructor (clock: Time)
      ensures Valid() && Table() == map[] && leases == map[] && byLease == map[] && this.clock == clock && turns == []
    {
      leases, byLease, nextId, Repr, turns := map[], map[], 0, {}, [];
      this.clock := clock;
    }

    /** Mutual exclusion, read off the index. */
    lemma TableExcludes()
      requires Valid()
      ensures MutualExclusion(Table())
      ensures var t := Table();
              forall a, b :: a in t && b in t && a != b && t[a].resource == t[b].resource ==> t[a].mode == Shared && t[b].mode == Shared
    {
      forall a, b | a in byLease && b in byLease && a != b && byLease[a].resource == byLease[b].resource
        ensures !Conflict(byLease[a].mode, byLease[b].mode)
      {
        var list := leases[byLease[a].resource];
        assert GoodList(byLease[a].resource, list, byLease);
        var i :| 0 <= i < |list| && list[i] == byLease[a];
        var j :| 0 <= j < |list| && list[j] == byLease[b];
        assert i < j || j < i;
      }
    }

    /** The loop over one list in pruneLocked, compacting it in place: kept leases move
        down over the expired ones, whose index entries go. */
    static method Compact(all: seq<Lease>, before: Index, now: Time, ghost gone: set<Lease>)
      returns (list: seq<Lease>, index: Index)
      requires forall id :: id in before ==> before[id].id == id
      requires forall l :: l in all ==> (l in gone <==> l.Expired(now)) && l.id in before && before[l.id] == l
      ensures list == Kept(all, gone) && index == Without(before, Among(all, gone))
    {
      list, index := all, before;
      var k, i := 0, 0;
      while i < |list|
        invariant 0 <= k <= i <= |list| == |all|
        invariant list[i..] == all[i..]
        invariant list[..k] == Kept(all[..i], gone)
        invariant index == Without(before, Among(all[..i], gone))
      {
        var l := list[i];
        assert l == all[i] && all[..i + 1] == all[..i] + [l] && all[..i + 1][..i] == all[..i];
        assert l in all && list[i + 1..] == list[i..][1..] == all[i + 1..];
        if l.Expired(now) {
          WithoutOne(before, all[..i], l, gone);
          index := index - {l.id};
        } else {
          assert Among(all[..i + 1], gone) == Among(all[..i], gone);
          assert list[k := l][i + 1..] == list[i + 1..];
          list := list[k := l];
          k := k + 1;
        }
        i := i + 1;
      }
      assert all[..i] == all;
      list := list[..k];
    }

    static method PruneLists(lists0: Lists, index0: Index, now: Time) returns (lists: Lists, index: Index)
      requires Agree(lists0, index0)
      ensures Agree(lists, index) && index == Without(index0, ExpiredIn(index0, now))
      ensures lists.Keys == lists0.Keys && forall r :: r in lists ==> lists[r] == Kept(lists0[r], ExpiredIn(index0, now))
    {
      ghost var gone := ExpiredIn(index0, now);
      lists, index := lists0, index0;
      var left := lists.Keys;
      NothingElsewhere(lists0, index0, gone);
      hide Agree, GoodList, Without, Elsewhere, Among, ExpiredIn;
      while left != {}
        invariant left <= lists.Keys == lists0.Keys
        invariant forall r :: r in lists ==> lists[r] == if r in left then lists0[r] else Kept(lists0[r], gone)
        invariant index == Without(index0, Elsewhere(gone, left))
        decreases |left|
      {
        var rid :| rid in left;
        AmongList(lists0, index0, now, rid, left);
        var list;
        list, index := Compact(lists[rid], index, now, gone);
        lists := lists[rid := list];
        left := left - {rid};
      }
      DropAgrees(lists0, index0, gone, lists, index);
    }

    /** pruneLocked: over the resources in any order. Every list becomes its
        order-preserving filter of unexpired leases, and the table loses exactly the
        expired ones. */
    method Prune()
      requires Valid()
      modifies this`leases, this`byLease
      ensures Valid() && Table() == Unexpired(old(Table()), clock)
      ensures forall id :: id in Table() <==> id in old(Table()) && clock <= old(Table())[id].expiresAt
      ensures forall id :: id in Table() ==> Table()[id] == old(Table())[id]
      ensures byLease == Without(old(byLease), old(ExpiredIn(byLease, clock))) && NoReuse()
      ensures leases.Keys == old(leases).Keys
      ensures forall r :: r in leases ==> leases[r] == Kept(old(leases[r]), old(ExpiredIn(byLease, clock)))
    {
      hide Agree, Bounded, Without, ExpiredIn, Unexpired, Kept, Sticks;
      UnexpiredMeans(Table(), clock);
      TableWithoutExpired(byLease, clock);
      FewerEntries(byLease, ExpiredIn(byLease, clock), nextId, Repr);
      leases, byLease := PruneLists(leases, byLease, clock);
      SameTable(byLease);
    }

    /** The new lease goes to the end of its resource's list and into the index. */
    method AddLease(rec: LeaseRec, list: seq<Lease>) returns (l: Lease)
      requires Valid() && list == if rec.resource in leases then leases[rec.resource] else []
      requires forall x :: x in list ==> !Conflict(x.mode, rec.mode)
      modifies this`leases, this`byLease, this`nextId, this`Repr
      ensures Valid() && fresh(l) && l.id == old(nextId) < nextId && l.Rec() == rec
      ensures NoReuse() && byLease == old(byLease)[l.id := l]
      ensures Table() == old(Table())[l.id := rec]
      ensures leases == old(leases)[rec.resource := list + [l]]
    {
      hide Agree, Conflict, TableOf;
      l := new Lease(nextId, rec.resource, rec.holder, rec.mode, rec.expiresAt);
      AddAgrees(leases, byLease, l, list);
      TableWithOneMore(byLease, l);
      nextId := nextId + 1;
      leases := leases[rec.resource := list + [l]];
      byLease := byLease[l.id := l];
      Repr := Repr + {l};
    }

    static method AnyConflict(list: seq<Lease>, mode: LockMode) returns (yes: bool)
      ensures yes <==> exists l :: l in list && Conflict(l.mode, mode)
    {
      var i := 0;
      while i < |list|
        invariant 0 <= i <= |list|
        invariant forall k :: 0 <= k < i ==> !Conflict(list[k].mode, mode)
      {
        if Conflict(list[i].mode, mode) {
          assert list[i] in list;
          return true;
        }
        i := i + 1;
      }
      yes := false;
    }

    /** tryAcquireLocked. */
    method TryAcquireLocked(holder: string, rid: ResourceID, mode: LockMode, ttl: int) returns (l: Lease?)
      requires Valid()
      modifies this`leases, this`byLease, this`nextId, this`Repr
      ensures Valid() && NoReuse()
      ensures l == null <==> Blocked(old(Table()), rid, mode)
      ensures l == null ==> leases == old(leases) && byLease == old(byLease) && Table() == old(Table())
      ensures l != null ==> fresh(l) && l.id == old(nextId) < nextId && l.Rec() == LeaseRec(rid, holder, mode, clock + ttl)
      ensures l != null ==> l.id in byLease && byLease[l.id] == l
      ensures l != null ==> Table() == old(Table())[l.id := LeaseRec(rid, holder, mode, clock + ttl)]
    {
      var list := if rid in leases then leases[rid] else [];
      BlockedByList(leases, byLease, list, rid, mode);
      SticksRefl(byLease, nextId);
      var blocked := AnyConflict(list, mode);
      if blocked {
        return null;
      }
      hide Agree, Blocked, Sticks, Bounded, TableOf;
      l := AddLease(LeaseRec(rid, holder, mode, clock + ttl), list);
    }

    /** A look for a lease, on record. */
    method LookFor(holder: string, rid: ResourceID, mode: LockMode, ttl: int) returns (l: Lease?)
      requires Valid()
      modifies this`leases, this`byLease, this`nextId, this`Repr, this`turns
      ensures Valid() && NoReuse() && turns == old(turns) + [Look(holder, rid, mode, old(Table()))]
      ensures l == null <==> Blocked(old(Table()), rid, mode)
      ensures l == null ==> Table() == old(Table()) && byLease == old(byLease)
      ensures l != null ==> fresh(l) && l.id == old(nextId) < nextId && l.Rec() == LeaseRec(rid, holder, mode, clock + ttl)
      ensures l != null ==> l.id in byLease && byLease[l.id] == l
      ensures l != null ==> Table() == old(Table())[l.id := LeaseRec(rid, holder, mode, clock + ttl)]
    {
      hide Valid, Table, Blocked, Sticks;
      ghost var t := Table();
      l := TryAcquireLocked(holder, rid, mode, ttl);
      turns := turns + [Look(holder, rid, mode, t)];
    }

    /** TryAcquire: prune, then try. */
    method TryAcquire(holder: string, rid: ResourceID, mode: LockMode, ttl: int) returns (l: Lease?)
      requires Valid()
      modifies this`leases, this`byLease, this`nextId, this`Repr, this`turns
      ensures Valid() && NoReuse() && turns == old(turns) + [Look(holder, rid, mode, Unexpired(old(Table()), clock))]
      ensures l == null <==> Blocked(Unexpired(old(Table()), clock), rid, mode)
      ensures var t := old(Table());
              l == null <==> exists id :: id in t && t[id].resource == rid && clock <= t[id].expiresAt &&
                                          (mode == Exclusive || t[id].mode == Exclusive)
      ensures l == null ==> Table() == Unexpired(old(Table()), clock)
      ensures l != null ==> fresh(l) && old(nextId) <= l.id < nextId && l.id in byLease && byLease[l.id] == l
      ensures l != null ==> Table() == Unexpired(old(Table()), clock)[l.id := LeaseRec(rid, holder, mode, clock + ttl)]
      ensures l != null ==> l.holder == holder && l.resource == rid && l.mode == mode
    {
      BlockedMeans(Table(), clock, rid, mode);
      hide Valid, Table, Sticks, Unexpired, Blocked;
      ghost var b0, n0 := byLease, nextId;
      Prune();
      ghost var b, n := byLease, nextId;
      l := LookFor(holder, rid, mode, ttl);
      SticksTrans(b0, n0, b, n, byLease);
    }

    /** removeLeaseLocked: take the lease out of its resource's list, by ID. */
    static method RemoveFromList(lists: Lists, l: Lease) returns (r: Lists)
      requires l.resource in lists ==> forall x :: x in lists[l.resource] ==> (x.id == l.id ==> x == l)
      requires l.resource in lists ==> forall i, j :: 0 <= i < j < |lists[l.resource]| ==> lists[l.resource][i] != lists[l.resource][j]
      ensures r == if l.resource in lists then lists[l.resource := Kept(lists[l.resource], {l})] else lists
    {
      if l.resource !in lists {
        return lists;
      }
      var list := lists[l.resource];
      var i := 0;
      while i < |list|
        invariant 0 <= i <= |list|
        invariant forall k :: 0 <= k < i ==> list[k] != l
      {
        if list[i].id == l.id {
          KeptWithoutOne(list, i);
          return lists[l.resource := list[..i] + list[i + 1..]];
        }
        i := i + 1;
      }
      KeptAll(list, {l});
      r := lists[l.resource := list];
    }

    /** delete from the index, then from the list. */
    method Drop(l: Lease)
      requires Valid() && (l.id in byLease ==> byLease[l.id] == l)
      modifies this`leases, this`byLease
      ensures Valid() && byLease == old(byLease) - {l.id} && Table() == old(Table()) - {l.id}
    {
      assert l.resource in leases ==> GoodList(l.resource, leases[l.resource], byLease);
      hide Agree, Kept;
      var lists := RemoveFromList(leases, l);
      DropOneAgrees(leases, byLease, l, lists);
      TableWithoutId(byLease, l.id);
      BoundedLess(byLease, nextId, Repr, l.id);
      hide TableOf, Bounded;
      leases, byLease := lists, byLease - {l.id};
      SameTable(byLease);
    }

    /** A lease of the index is in the table. */
    lemma Indexed(id: LeaseID)
      ensures id in Table() <==> id in byLease
      ensures id in byLease ==> Table()[id] == byLease[id].Rec()
    {
    }

    method Release(id: LeaseID) returns (found: bool)
      requires Valid()
      modifies this`leases, this`byLease
      ensures Valid() && NoReuse() && found == (id in old(Table())) && Table() == old(Table()) - {id}
    {
      if id !in byLease {
        return false;
      }
      Drop(byLease[id]);
      found := true;
    }

    /** releaseAll: leases that were pruned meanwhile are passed over. */
    method ReleaseAll(ls: seq<Lease>)
      requires Valid() && InPlace(ls, byLease, nextId)
      modifies this`leases, this`byLease, this`turns
      ensures Valid() && byLease == old(byLease) - IdsOf(ls) && Table() == old(Table()) - IdsOf(ls)
      ensures turns == old(turns) + ChangesOf(ls)
    {
      hide Valid, Table;
      ghost var b0, t0, s0 := byLease, Table(), turns;
      var i := 0;
      while i < |ls|
        invariant 0 <= i <= |ls| && Valid()
        invariant byLease == b0 - IdsOf(ls[..i]) && Table() == t0 - IdsOf(ls[..i]) && turns == s0 + ChangesOf(ls[..i])
      {
        assert ls[..i + 1] == ls[..i] + [ls[i]];
        assert IdsOf(ls[..i + 1]) == IdsOf(ls[..i]) + {ls[i].id};
        Drop(ls[i]);
        turns := turns + [Change(ls[i].holder)];
        i := i + 1;
      }
      assert ls[..i] == ls;
    }

    method Extend(l: Lease, at: Time)
      requires Valid() && l.id in byLease && byLease[l.id] == l
      modifies l`expiresAt
      ensures Valid() && Table() == old(Table())[l.id := old(Table())[l.id].(expiresAt := at)]
    {
      l.expiresAt := at;
    }

    /** Renew: an expired lease is dropped and refused; otherwise the one lease object
        both indices share is extended. */
    method Renew(id: LeaseID, ttl: int) returns (r: Result<(), string>)
      requires Valid()
      modifies this`leases, this`byLease, Repr
      ensures Valid() && NoReuse() && (r.Ok? <==> id in old(Table()) && clock <= old(Table())[id].expiresAt)
      ensures Table() == if r.Ok? then old(Table())[id := old(Table())[id].(expiresAt := clock + ttl)] else
                         if id in old(Table()) then old(Table()) - {id} else old(Table())
    {
      if id !in byLease {
        return Err("not found");
      }
      var l := byLease[id];
      if l.Expired(clock) {
        Drop(l);
        return Err("expired");
      }
      Extend(l, clock + ttl);
      r := Ok(());
    }

    /** Somebody looks for a lease. */
    method SomeLook(who: string, ttl: int)
      requires Valid()
      modifies this`leases, this`byLease, this`nextId, this`Repr, this`turns
      ensures Valid() && NoReuse()
      ensures forall holder :: who != holder ==> Lets(old(State()), State(), holder)
    {
      ghost var v := State();
      assert Below(v.table, nextId);
      hide Valid, Table, Unexpired, Blocked, Sticks, Lets;
      var rid: ResourceID, mode: LockMode := *, *;
      var l := TryAcquire(who, rid, mode, ttl);
      if l == null {
        LookLets(v, State(), who, rid, mode);
      } else {
        TakeLets(v, State(), l.id, LeaseRec(rid, who, mode, clock + ttl));
      }
    }

    /** A lease is released or renewed. */
    method SomeRelease(id: LeaseID, ttl: int)
      requires Valid() && id in Table()
      modifies this`leases, this`byLease, this`turns, Repr
      ensures Valid() && NoReuse()
      ensures forall holder :: old(Table())[id].holder != holder ==> Lets(old(State()), State(), holder)
    {
      hide Valid, Table, Sticks, Lets;
      ghost var v := State();
      if * {
        var found := Release(id);
      } else {
        var r := Renew(id, ttl);
      }
      turns := turns + [Change(v.table[id].holder)];
      ChangeLets(v, State(), id, clock + ttl);
    }

    /** Some other holder's turn, or time passing. */
    method SomeoneElse(holder: string)
      requires Valid()
      modifies this, Repr
      ensures Valid() && NoReuse() && Lets(old(State()), State(), holder)
    {
      var id: LeaseID, who: string, pause: nat, ttl: int := *, *, *, *;
      Indexed(id);
      hide Valid, Table, Lets, Sticks;
      SticksRefl(byLease, nextId);
      ghost var v := State();
      clock := clock + pause;
      ghost var w := State();
      Waits(v, w, holder);
      LetsRefl(w, holder);
      if * {
        if who != holder { SomeLook(who, ttl); }
      } else if id in byLease && byLease[id].holder != holder {
        SomeRelease(id, ttl);
      }
      LetsTrans(v, w, State(), holder);
    }

    /** What other holders do between two critical sections of this one: any number of
        attempts, releases and renewals of leases of their own, while time moves on. */
    method Others(holder: string)
      requires Valid()
      modifies this, Repr
      ensures Valid() && NoReuse() && Lets(old(State()), State(), holder)
    {
      hide Valid, Table, Untouched, OnlyOthers;
      ghost var v, repr0 := State(), Repr;
      LetsRefl(v, holder);
      var n: nat := *;
      while n > 0
        invariant Valid() && NoReuse() && fresh(Repr - repr0) && Lets(v, State(), holder)
      {
        ghost var w := State();
        SomeoneElse(holder);
        LetsTrans(v, w, State(), holder);
        n := n - 1;
      }
    }

    /** Waiting for a wake-up, having been refused. */
    method Wait(ghost v0: View, holder: string, ghost rid: ResourceID, ghost mode: LockMode)
      requires Valid() && Restores(v0, State(), holder) && Denied(v0.turns, turns, holder, [rid], mode)
      requires v0.next <= nextId && Sticks(v0.index, v0.next, byLease)
      modifies this, Repr
      ensures Valid() && fresh(Repr - old(Repr)) && Restores(v0, State(), holder) && Denied(v0.turns, turns, holder, [rid], mode)
      ensures v0.next <= nextId && Sticks(v0.index, v0.next, byLease)
    {
      hide Valid, Table, Untouched, Sticks, Denied, Lets;
      ghost var v := State();
      Others(holder);
      LetsRestores(v, State(), holder);
      RestoresTrans(v0, v, State(), holder);
      SticksTrans(v0.index, v0.next, v.index, v.next, byLease);
      DeniedMore(v0.turns, v0.turns, v.turns, turns, holder, [rid], [rid], mode);
    }

    /** Acquire's prune and loop. */
    method Await(holder: string, rid: ResourceID, mode: LockMode, ttl: int, patience: nat) returns (l: Lease?, left: nat)
      requires Valid()
      modifies this, Repr
      ensures Valid() && NoReuse() && clock >= old(clock) && left <= patience && old(turns) <= turns
      ensures l == null ==> left == 0 && Untouched(old(Table()), Table(), holder, clock)
      ensures l != null ==> fresh(l) && old(nextId) <= l.id < nextId && l.id in byLease && byLease[l.id] == l
      ensures l != null ==> l.Rec() == LeaseRec(rid, holder, mode, clock + ttl)
      ensures l != null ==> Untouched(Adding(old(Table()), l), Table(), holder, clock)
      ensures Denied(old(turns), turns, holder, [rid], mode) || (if patience > 0 then l != null && left == patience - 1 else l == null)
      ensures patience > 0 && !Blocked(Unexpired(old(Table()), old(clock)), rid, mode) ==>
                l != null && clock == old(clock) && left == patience - 1 && Table() == Adding(Unexpired(old(Table()), clock), l)
    {
      hide Valid, Table, Unexpired, Untouched, Sticks, Blocked, Denied, Lets;
      ghost var v0 := State();
      UntouchedByPrune(v0.table, holder, clock);
      Prune();
      left := patience;
      while left > 0
        invariant Valid() && NoReuse() && Restores(v0, State(), holder) && left <= patience
        invariant left == patience ==> State() == v0.(table := Unexpired(v0.table, clock), index := byLease)
        invariant left < patience ==> Blocked(Unexpired(v0.table, v0.clock), rid, mode) && Denied(v0.turns, turns, holder, [rid], mode)
      {
        ghost var v := State();
        left := left - 1;
        l := LookFor(holder, rid, mode, ttl);
        SticksTrans(old(byLease), old(nextId), v.index, v.next, byLease);
        if l != null {
          UntouchedGrant(v0.table, v.table, l.id, l.Rec(), holder, clock);
          if left < patience - 1 { DeniedMore(v0.turns, v0.turns, v.turns, turns, holder, [rid], [rid], mode); }
          return;
        }
        DeniedNow(v0.turns, v.turns, holder, rid, mode, v.table);
        Wait(v0, holder, rid, mode);
      }
      l := null;
    }

    /** Acquire: prune once, then try again at every wake-up until the context is done,
        here after a number of checks that the callers of Acquire share. A resource free
        of conflicts is had at once; a wait means that a look met a conflict. */
    method Acquire(holder: string, rid: ResourceID, mode: LockMode, ttl: int, patience: nat) returns (l: Lease?, left: nat)
      requires Valid()
      modifies this, Repr
      ensures Valid() && NoReuse() && clock >= old(clock) && left <= patience && old(turns) <= turns
      ensures l == null ==> left == 0 && Untouched(old(Table()), Table(), holder, clock)
      ensures l != null ==> fresh(l) && old(nextId) <= l.id < nextId && l.id in byLease && byLease[l.id] == l
      ensures l != null ==> l.Rec() == LeaseRec(rid, holder, mode, clock + ttl)
      ensures l != null ==> Untouched(Adding(old(Table()), l), Table(), holder, clock)
      ensures Denied(old(turns), turns, holder, [rid], mode) || (if patience > 0 then l != null && left == patience - 1 else l == null)
      ensures patience > 0 && !Blocked(Unexpired(old(Table()), old(clock)), rid, mode) ==>
                l != null && clock == old(clock) && left == patience - 1 && Table() == Adding(Unexpired(old(Table()), clock), l)
      ensures var t := old(Table());
              patience > 0 &&
              (forall id :: id in t && t[id].resource == rid && (mode == Exclusive || t[id].mode == Exclusive) ==> t[id].expiresAt < old(clock)) ==>
                l != null && clock == old(clock) && left == patience - 1
    {
      BlockedMeans(Table(), clock, rid, mode);
      hide Valid, Table, Unexpired, Untouched, Sticks, Blocked, Denied;
      l, left := Await(holder, rid, mode, ttl, patience);
    }

    /** One round of AcquireAll's loop. */
    method AcquireNext(ghost t0: Table, ghost b0: Index, ghost n0: LeaseID, acquired: seq<Lease>, ghost granted: Table,
                       ghost rids: seq<ResourceID>, rid: ResourceID, ghost rest: seq<ResourceID>,
                       holder: string, mode: LockMode, ttl: int, ghost from: Time, patience: nat)
      returns (ok: bool, acquired': seq<Lease>, left: nat, ghost granted': Table)
      requires Valid() && Progress(t0, b0, n0, Table(), byLease, nextId, acquired, granted, rids, holder, mode, clock)
      requires from <= clock + ttl && Ends(granted, from, clock + ttl)
      modifies this, Repr
      ensures Valid() && fresh(Repr - old(Repr)) && clock >= old(clock) && left <= patience && old(turns) <= turns
      ensures Progress(t0, b0, n0, Table(), byLease, nextId, acquired', granted', if ok then rids + [rid] else rids, holder, mode, clock)
      ensures Ends(granted', from, clock + ttl)
      ensures ok ==> LastEnds(acquired', granted', clock + ttl)
      ensures Denied(old(turns), turns, holder, [rid], mode) || (if patience > 0 then ok && left == patience - 1 else !ok)
      ensures rid !in rest && patience > 0 && Free(old(Table()), old(clock), [rid] + rest, mode) ==>
                ok && left == patience - 1 && Free(Table(), clock, rest, mode)
    {
      hide Valid, Table, Untouched, Sticks, Granted, InPlace, Progress, Free, Blocked, Unexpired, Denied;
      ghost var t, b, n, u := Table(), byLease, nextId, clock;
      if Free(t, u, [rid] + rest, mode) { FreeHead(t, u, rid, rest, mode); }
      var l;
      l, left := Acquire(holder, rid, mode, ttl, patience);
      if l == null {
        ProgressWaits(t0, b0, n0, t, b, n, acquired, granted, rids, holder, mode, u, Table(), byLease, nextId, clock);
        return false, acquired, left, granted;
      }
      ProgressStep(t0, b0, n0, t, b, n, acquired, granted, rids, holder, mode, u, Table(), byLease, nextId, l, clock);
      ok, acquired', granted' := true, acquired + [l], Adding(granted, l);
      if rid !in rest && patience > 0 && Free(t, u, [rid] + rest, mode) {
        StaysFree(t, u, rest, mode, Table(), l.id, l.Rec());
      }
    }

    /** Between two rounds others have their turns; if none has, what was free still is. */
    method Between(ghost t0: Table, ghost b0: Index, ghost n0: LeaseID, ghost acquired: seq<Lease>, ghost granted: Table,
                   ghost rids: seq<ResourceID>, ghost rest: seq<ResourceID>, holder: string, ghost mode: LockMode)
      requires Valid() && Progress(t0, b0, n0, Table(), byLease, nextId, acquired, granted, rids, holder, mode, clock)
      modifies this, Repr
      ensures Valid() && fresh(Repr - old(Repr)) && clock >= old(clock) && old(turns) <= turns
      ensures Progress(t0, b0, n0, Table(), byLease, nextId, acquired, granted, rids, holder, mode, clock)
      ensures Alone(old(turns), turns, holder) && Free(old(Table()), old(clock), rest, mode) ==> Free(Table(), clock, rest, mode)
    {
      hide Valid, Table, Untouched, Sticks, Progress, Free, OnlyOthers, Alone;
      ghost var t, b, n, u, s := Table(), byLease, nextId, clock, turns;
      Others(holder);
      OthersAfter(s, turns, holder);
      ProgressWaits(t0, b0, n0, t, b, n, acquired, granted, rids, holder, mode, u, Table(), byLease, nextId, clock);
      if Alone(s, turns, holder) && Free(t, u, rest, mode) {
        OthersShow(s, turns, holder);
        FreeLater(t, u, clock, rest, mode);
      }
    }

    /** A round, and what others did before it. */
    method Round(ghost t0: Table, ghost b0: Index, ghost n0: LeaseID, acquired: seq<Lease>, ghost granted: Table,
                 ghost rids: seq<ResourceID>, rid: ResourceID, ghost rest: seq<ResourceID>,
                 holder: string, mode: LockMode, ttl: int, ghost from: Time, patience: nat)
      returns (ok: bool, acquired': seq<Lease>, left: nat, ghost granted': Table)
      requires Valid() && Progress(t0, b0, n0, Table(), byLease, nextId, acquired, granted, rids, holder, mode, clock)
      requires from <= clock + ttl && Ends(granted, from, clock + ttl)
      modifies this, Repr
      ensures Valid() && fresh(Repr - old(Repr)) && clock >= old(clock) && left <= patience && old(turns) <= turns
      ensures Progress(t0, b0, n0, Table(), byLease, nextId, acquired', granted', if ok then rids + [rid] else rids, holder, mode, clock)
      ensures Ends(granted', from, clock + ttl) && (ok ==> LastEnds(acquired', granted', clock + ttl))
      ensures Denied(old(turns), turns, holder, [rid], mode) || (if patience > 0 then ok && left == patience - 1 else !ok)
      ensures Alone(old(turns), turns, holder) && rid !in rest && patience > 0 && Free(old(Table()), old(clock), [rid] + rest, mode) ==>
                ok && left == patience - 1 && Free(Table(), clock, rest, mode)
    {
      hide Valid, Table, Progress, Free, Denied, Alone, LastEnds;
      ghost var s := turns;
      Between(t0, b0, n0, acquired, granted, rids, [rid] + rest, holder, mode);
      ghost var mid := turns;
      ok, acquired', left, granted' := AcquireNext(t0, b0, n0, acquired, granted, rids, rid, rest, holder, mode, ttl, from, patience);
      if Alone(s, turns, holder) { AloneParts(s, mid, turns, holder); }
      if Denied(mid, turns, holder, [rid], mode) { DeniedMore(s, mid, turns, turns, holder, [rid], [rid], mode); }
    }

    /** AcquireAll's loop, up to the first refusal. */
    method AcquireEach(holder: string, rids: seq<ResourceID>, mode: LockMode, ttl: int, patience: nat)
      returns (ok: bool, acquired: seq<Lease>, left: nat, ghost granted: Table, ghost done: seq<ResourceID>)
      requires Valid() && Below(Table(), nextId)
      modifies this, Repr
      ensures Valid() && fresh(Repr - old(Repr)) && clock >= old(clock) && left <= patience && old(turns) <= turns
      ensures Progress(old(Table()), old(byLease), old(nextId), Table(), byLease, nextId, acquired, granted, done, holder, mode, clock)
      ensures ok ==> done == rids
      ensures Ends(granted, old(clock) + ttl, clock + ttl) && (ok && rids != [] ==> LastEnds(acquired, granted, clock + ttl))
      ensures Denied(old(turns), turns, holder, rids, mode) || if |rids| <= patience then ok && left == patience - |rids| else !ok
      ensures Alone(old(turns), turns, holder) && NoRepeats(rids) && |rids| <= patience && Free(old(Table()), old(clock), rids, mode) ==>
                ok && left == patience - |rids|
    {
      hide Valid, Table, Progress, Below, Free, LastEnds, Denied, Alone;
      ghost var t0, b0, n0, repr0, s0, c0 := Table(), byLease, nextId, Repr, turns, clock;
      ghost var smooth := NoRepeats(rids) && |rids| <= patience && Free(t0, c0, rids, mode);
      assert rids[0..] == rids;
      acquired, left, granted, done := [], patience, map[], [];
      ProgressStarts(t0, b0, n0, holder, mode, clock);
      var i := 0;
      while i < |rids|
        invariant 0 <= i <= |rids| && Valid() && clock >= c0 && left <= patience && fresh(Repr - repr0) && done == rids[..i] && s0 <= turns
        invariant Progress(t0, b0, n0, Table(), byLease, nextId, acquired, granted, done, holder, mode, clock)
        invariant Ends(granted, c0 + ttl, clock + ttl) && (i > 0 ==> LastEnds(acquired, granted, clock + ttl))
        invariant Denied(s0, turns, holder, rids, mode) || left == patience - i
        invariant smooth && Alone(s0, turns, holder) ==> left == patience - i && Free(Table(), clock, rids[i..], mode)
      {
        assert rids[i..] == [rids[i]] + rids[i + 1..];
        ghost var s := turns;
        ok, acquired, left, granted :=
          Round(t0, b0, n0, acquired, granted, done, rids[i], rids[i + 1..], holder, mode, ttl, c0 + ttl, left);
        if Alone(s0, turns, holder) { AloneParts(s0, s, turns, holder); }
        if Denied(s0, s, holder, rids, mode) { DeniedMore(s0, s0, s, turns, holder, rids, rids, mode); }
        if Denied(s, turns, holder, [rids[i]], mode) { DeniedMore(s0, s, turns, turns, holder, [rids[i]], rids, mode); }
        if !ok {
          return;
        }
        done := done + [rids[i]];
        i := i + 1;
      }
      ok := true;
    }

    /** AcquireAll: the resources in the order given, others at work before each; when one
        is refused, the leases taken so far go back. A failed call leaves this holder
        nothing it did not have; a successful one leaves it every lease granted, save those
        expired since. Each lasts ttl from when it was granted, the last from now on. A
        refusal means that a look met a conflict, or the context was done before as many
        looks as resources; resources that are free and asked for once are all granted at
        the first look if nobody else has a turn. */
    method AcquireAll(holder: string, rids: seq<ResourceID>, mode: LockMode, ttl: int, patience: nat)
      returns (r: Option<seq<Lease>>, left: nat, ghost granted: Table)
      requires Valid()
      modifies this, Repr
      ensures Valid() && NoReuse() && clock >= old(clock) && left <= patience && old(turns) <= turns
      ensures r.None? ==> Untouched(old(Table()), Table(), holder, clock)
      ensures r.Some? ==> Untouched(old(Table()) + granted, Table(), holder, clock)
      ensures r.Some? ==> Granted(r.value, granted, rids, holder, mode) && granted.Keys !! old(Table()).Keys
      ensures r.Some? ==> InPlace(r.value, byLease, nextId)
      ensures r.Some? ==> Ends(granted, old(clock) + ttl, clock + ttl) && (rids != [] ==> LastEnds(r.value, granted, clock + ttl))
      ensures Denied(old(turns), turns, holder, rids, mode) || if |rids| <= patience then r.Some? && left == patience - |rids| else r.None?
      ensures Alone(old(turns), turns, holder) && NoRepeats(rids) && |rids| <= patience && Free(old(Table()), old(clock), rids, mode) ==>
                r.Some? && left == patience - |rids|
    {
      ghost var t0, b0, n0, s0 := Table(), byLease, nextId, turns;
      assert Below(t0, n0);
      hide Valid, Table, Untouched, Sticks, Granted, InPlace, IdsOf, Progress, Below, Ends, LastEnds, Free, NoRepeats, Denied, Alone;
      var ok, acquired; ghost var done;
      ok, acquired, left, granted, done := AcquireEach(holder, rids, mode, ttl, patience);
      if ok {
        ProgressMeans(t0, b0, n0, Table(), byLease, nextId, acquired, granted, done, holder, mode, clock);
        r := Some(acquired);
      } else {
        ghost var s := turns;
        ProgressEnds(t0, b0, n0, Table(), byLease, nextId, acquired, granted, done, holder, mode, clock);
        ReleaseAll(acquired);
        r, granted := None, map[];
        if Denied(s0, s, holder, rids, mode) { DeniedMore(s0, s0, s, turns, holder, rids, rids, mode); }
        if Alone(s0, turns, holder) { AloneParts(s0, s, turns, holder); }
      }
    }
  }

  /** The holder has an exclusive lease on the resource, and nobody has any other. */
  ghost predicate Sole(t: Table, id: LeaseID, rid: ResourceID, holder: string) {
    && id in t && t[id].resource == rid && t[id].holder == holder && t[id].mode == Exclusive
    && forall o :: o in t && t[o].resource == rid ==> o == id
  }

  ghost predicate HasAlone(t: Table, rid: ResourceID, holder: string) {
    exists id :: Sole(t, id, rid, holder)
  }

  ghost predicate HeldAlone(t: Table, holder: string, rids: seq<ResourceID>) {
    forall i :: 0 <= i < |rids| ==> HasAlone(t, rids[i], holder)
  }

  /** What a successful AcquireAll in EXCLUSIVE mode is for: until one of its leases
      expires, whoever holds one of the resources is this call. */
  lemma SoleHolder(t0: Table, ls: seq<Lease>, granted: Table, rids: seq<ResourceID>, t: Table, holder: string, now: Time)
    requires Granted(ls, granted, rids, holder, Exclusive) && Untouched(t0 + granted, t, holder, now)
    requires MutualExclusion(t) && forall id :: id in granted ==> now <= granted[id].expiresAt
    ensures forall i, id :: 0 <= i < |rids| && id in t && t[id].resource == rids[i] ==> id == ls[i].id
    ensures forall i :: 0 <= i < |rids| ==> ls[i].id in t && t[ls[i].id] == granted[ls[i].id]
    ensures HeldAlone(t, holder, rids)
  {
    forall i | 0 <= i < |rids| ensures ls[i].id in t && t[ls[i].id] == granted[ls[i].id] {
      assert ls[i] in ls && ls[i].id in granted && ls[i].id in t0 + granted;
    }
    forall i | 0 <= i < |rids| ensures HasAlone(t, rids[i], holder) {
      assert Sole(t, ls[i].id, rids[i], holder);
    }
  }

  /** So it is as long as no lease granted has run its time. */
  lemma HeldUntil(t0: Table, ls: seq<Lease>, granted: Table, rids: seq<ResourceID>, t: Table, holder: string, until: Time, now: Time)
    requires Granted(ls, granted, rids, holder, Exclusive) && Untouched(t0 + granted, t, holder, now) && MutualExclusion(t)
    requires Lasting(granted, until) && now <= until
    ensures HeldAlone(t, holder, rids)
  {
    hide Granted, Untouched, MutualExclusion, HeldAlone;
    SoleHolder(t0, ls, granted, rids, t, holder, now);
  }

  /** And no longer: once an exclusive lease has run out, the next to look for its resource
      has it, alone. */
  lemma Overtaken(u: Table, id: LeaseID, other: string, next: LeaseID, ttl: int, now: Time)
    requires MutualExclusion(u) && id in u && u[id].mode == Exclusive && u[id].expiresAt < now && other != u[id].holder && next !in u
    ensures !Blocked(Unexpired(u, now), u[id].resource, Exclusive)
    ensures var t := Unexpired(u, now)[next := LeaseRec(u[id].resource, other, Exclusive, now + ttl)];
            && Untouched(u, t, u[id].holder, now) && MutualExclusion(t)
            && HasAlone(t, u[id].resource, other) && !HasAlone(t, u[id].resource, u[id].holder)
  {
    var rid, t := u[id].resource, Unexpired(u, now)[next := LeaseRec(u[id].resource, other, Exclusive, now + ttl)];
    assert forall x :: x in u && u[x].resource == rid ==> x == id;
    assert Sole(t, next, rid, other);
  }

  /** So whatever others do until now, the holder has its resources alone, if and only if
      no lease of it has run out. */
  lemma HeldExactly(u: Table, ls: seq<Lease>, granted: Table, rids: seq<ResourceID>, holder: string, next: LeaseID, now: Time)
    requires Granted(ls, granted, rids, holder, Exclusive) && MutualExclusion(u) && next !in u
    requires forall id :: id in granted ==> id in u && u[id] == granted[id]
    ensures (forall t :: Untouched(u, t, holder, now) && MutualExclusion(t) ==> HeldAlone(t, holder, rids)) <==>
              forall id :: id in granted ==> now <= granted[id].expiresAt
  {
    hide Untouched, MutualExclusion, HasAlone, Unexpired;
    if id :| id in granted && granted[id].expiresAt < now {
      assert id in IdsOf(ls);
      var i :| 0 <= i < |ls| && ls[i].id == id;
      hide Granted, IdsOf;
      var other := holder + "x";
      Overtaken(u, id, other, next, 0, now);
      var t := Unexpired(u, now)[next := LeaseRec(rids[i], other, Exclusive, now)];
      assert !HasAlone(t, rids[i], holder);
    } else {
      assert (u - granted.Keys) + granted == u;
      hide HeldAlone, Granted;
      forall t | Untouched(u, t, holder, now) && MutualExclusion(t) ensures HeldAlone(t, holder, rids) {
        SoleHolder(u - granted.Keys, ls, granted, rids, t, holder, now);
      }
    }
  }
}

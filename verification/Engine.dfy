/** core/operation/engine.go: the engine's methods on its shared objects. Execute is
    shown to take exactly the steps of the lifecycle, with the other goroutines at work
    between its critical sections. */
module OperationEngine {
  import opened OperationRecord
  import opened Results
  import opened Lifecycle
  import AccessPolicy
  import Identifiers
  import L = Locks
  import RecoveryLadder
  import Recovery
  import Reg = RegistryStore
  import Resolver
  import Resources
  import Rec = Reconciliation
  import Scan = Discovery
  import Sorting
  import Strings

  /** What the first plugin advertising a capability says of it. */
  datatype Descriptor = Descriptor(risk: AccessPolicy.Risk, resources: seq<string>)

  datatype Outcome = Returned(evidence: seq<Evidence>) | Stopped(final: OpState)

  /** The part of an operation's record that changes. */
  datatype Record = Record(state: OpState, result: Option<OpResult>, cancel: bool, calls: seq<PluginCall>)

  ghost function RecordOf(op: Operation): Record
    reads op
  {
    Record(op.state, op.result, op.cancelRequested, op.calls)
  }

  /** The calls on record are those of the machine's history, in order. */
  ghost predicate Shows(rec: Record, cfg: Config, m: Machine) {
    && rec.state == m.state && rec.result == m.result && rec.cancel == m.cancel && rec.calls == CallsOf(m.log)
    && Reachable(cfg, m)
  }

  ghost function Records(ops: map<ID, Operation>): map<ID, Record>
    reads ops.Values
  {
    map id | id in ops :: RecordOf(ops[id])
  }

  lemma OneRecordChanged(ops: map<ID, Operation>, recs: map<ID, Record>, op: Operation)
    requires recs.Keys == ops.Keys && op.id in ops && ops[op.id] == op
    requires forall o :: o in ops && o != op.id ==> RecordOf(ops[o]) == recs[o]
    ensures Records(ops) == recs[op.id := RecordOf(op)]
  {
    hide RecordOf;
  }

  /** The operation's record shows the machine's state, which some run reaches. */
  ghost predicate Tied(op: Operation, cfg: Config, m: Machine)
    reads op
  {
    Shows(RecordOf(op), cfg, m) && cfg.op == op.id && cfg.request == op.request
  }

  /** The machine goes on from m to n, reachably. */
  ghost predicate Goes(cfg: Config, m: Machine, n: Machine) {
    Reachable(cfg, n) && Leads(cfg, m, n)
  }

  /** It goes on without a call, and only its place and state change. */
  ghost predicate GoesQuietly(cfg: Config, m: Machine, n: Machine) {
    Goes(cfg, m, n) && CallsOf(n.log) == CallsOf(m.log) && n.result == m.result && n.cancel == m.cancel && n.chs == m.chs
  }

  lemma GoesByStep(cfg: Config, m: Machine, a: Action)
    requires Reachable(cfg, m) && Enabled(cfg, m, a)
    ensures Goes(cfg, m, Step(cfg, m, a)) && CallsOf(Step(cfg, m, a).log) == CallsOf(m.log) + CallsBy(cfg, m, a)
  {
    hide Reachable, Leads, Step, Enabled, CallsBy, CallsOf;
    ReachableByStep(cfg, m, a);
    LeadsByStep(cfg, m, a);
    CallsGrow(cfg, m, a);
  }

  lemma GoesRefl(cfg: Config, m: Machine)
    requires Reachable(cfg, m)
    ensures Goes(cfg, m, m)
  {
    hide Reachable, Leads;
    LeadsRefl(cfg, m);
  }

  lemma GoesTrans(cfg: Config, m: Machine, n: Machine, o: Machine)
    requires Goes(cfg, m, n) && Goes(cfg, n, o)
    ensures Goes(cfg, m, o)
  {
    hide Reachable, Leads;
    LeadsTrans(cfg, m, n, o);
  }

  // ---- The machine's steps, with what the methods need to know of each ----

  lemma StepCancel(cfg: Config, m: Machine)
    requires Reachable(cfg, m)
    ensures Enabled(cfg, m, Action.Cancel) && Goes(cfg, m, Step(cfg, m, Action.Cancel))
    ensures Step(cfg, m, Action.Cancel) == m.(cancel := true, log := Then(m.log, Flagged))
    ensures CallsOf(Step(cfg, m, Action.Cancel).log) == CallsOf(m.log)
  {
    hide Reachable, Leads;
    GoesByStep(cfg, m, Action.Cancel);
  }

  lemma StepOthers(cfg: Config, m: Machine, chs: Channels)
    requires Reachable(cfg, m) && Reg.Grows(m.chs, chs)
    ensures Enabled(cfg, m, Others(chs)) && Goes(cfg, m, Step(cfg, m, Others(chs)))
    ensures Step(cfg, m, Others(chs)) == m.(chs := chs)
  {
    hide Reachable, Leads, Reg.Grows;
    GoesByStep(cfg, m, Others(chs));
  }

  lemma StepTop(cfg: Config, m: Machine)
    requires Reachable(cfg, m) && m.at.AtTop?
    ensures Enabled(cfg, m, Top) && Goes(cfg, m, Step(cfg, m, Top))
    ensures Step(cfg, m, Top) == m.(at := if m.cancel then Storing(Cancelled) else AtInvoke(m.at.attempt, m.at.channel))
  {
    hide Reachable, Leads;
    GoesByStep(cfg, m, Top);
  }

  /** The calls of one attempt to invoke on c: Open unless READY, and Invoke if it runs. */
  function InvokeCalls(c: ID, known: bool, before: Reg.Channel, after: Reg.Channel, run: bool, moment: L.Moment, answer: Answer): seq<PluginCall> {
    (if known && before.state != Reg.Ready then [PluginCall.Opening(c)] else []) + if run then [Invoking(c, after, moment, answer)] else []
  }

  lemma StepInvoke(cfg: Config, m: Machine, known: bool, opens: bool, ready: Channels, moment: L.Moment, answer: Answer)
    requires Reachable(cfg, m) && m.at.AtInvoke? && m.at.channel in m.chs && m.at.channel in ready && Reg.Grows(m.chs, ready)
    requires known <==> m.chs[m.at.channel].plugin in cfg.plugins
    requires if m.chs[m.at.channel].state == Reg.Ready then ready == m.chs && opens else opens ==> ready[m.at.channel].state == Reg.Ready
    ensures var a := Invoke(known, opens, ready, moment, answer); var run := known && opens;
            && Enabled(cfg, m, a)
            && var c := m.at.channel; var n := Step(cfg, m, a);
               && Goes(cfg, m, n) && n.state == m.state && n.result == m.result && n.cancel == m.cancel
               && n.chs == (if known then ready else m.chs)
               && CallsOf(n.log) == CallsOf(m.log) + InvokeCalls(c, known, m.chs[c], ready[c], run, moment, answer)
               && n.at == if !run then Storing(RunFailed)
                          else if answer.Done? then Lifecycle.Place.Invoked(answer.evidence) else AtObserve(m.at.attempt, c)
  {
    hide Reachable, Leads, CallsOf, Reg.Grows;
    GoesByStep(cfg, m, Invoke(known, opens, ready, moment, answer));
  }

  lemma StepObserve(cfg: Config, m: Machine, seen: Option<Observation>, evidence: seq<Evidence>)
    requires Reachable(cfg, m) && m.at.AtObserve? && (seen.Some? ==> FactsOf(seen.value.facts, evidence))
    ensures var a := Observe(seen, evidence);
            && Enabled(cfg, m, a)
            && var n := Step(cfg, m, a);
               && Goes(cfg, m, n) && CallsOf(n.log) == CallsOf(m.log) + [Observing(seen)]
               && n.state == m.state && n.result == m.result && n.cancel == m.cancel && n.chs == m.chs
               && n.at == (if seen.None? then AtRecovery(m.at.attempt, m.at.channel, Rec.Retry)
                           else var d := Rec.Reconcile(cfg.request, seen.value);
                                if d == Rec.Success then Lifecycle.Place.Invoked(evidence)
                                else if d == Rec.Manual then Storing(Unknown)
                                else AtRecovery(m.at.attempt, m.at.channel, d))
  {
    hide Reachable, Leads, FactsOf;
    GoesByStep(cfg, m, Observe(seen, evidence));
  }

  lemma StepGiveUp(cfg: Config, m: Machine)
    requires Reachable(cfg, m) && m.at.AtRecovery? && m.at.attempt >= cfg.maxRetries
    ensures Enabled(cfg, m, GiveUp) && Goes(cfg, m, Step(cfg, m, GiveUp))
    ensures Step(cfg, m, GiveUp) == m.(at := Storing(FinalState(m.at.decision)))
  {
    hide Reachable, Leads;
    GoesByStep(cfg, m, GiveUp);
  }

  lemma StepRecover(cfg: Config, m: Machine, after: Channels, alt: Option<string>)
    requires Reachable(cfg, m) && m.at.AtRecovery? && m.at.attempt < cfg.maxRetries && Reg.Grows(m.chs, after)
    requires m.at.channel in m.chs && (alt.Some? ==> Recovery.Usable(m.chs, after, m.at.channel, cfg.request.capability, alt.value))
    ensures Enabled(cfg, m, Recover(after, alt))
    ensures var n := Step(cfg, m, Recover(after, alt));
            && Goes(cfg, m, n) && CallsOf(n.log) == CallsOf(m.log) + [PluginCall.Recovering(m.at.channel, alt)]
            && n.state == m.state && n.result == m.result && n.cancel == m.cancel && n.chs == after
            && n.at == if alt.Some? then AtTop(m.at.attempt + 1, alt.value) else Storing(FinalState(m.at.decision))
  {
    hide Reachable, Leads, Recovery.Usable, Reg.Grows;
    GoesByStep(cfg, m, Recover(after, alt));
  }

  lemma StepEnter(cfg: Config, m: Machine)
    requires Reachable(cfg, m) && m.at == Idle
    ensures m.state == Created && Enabled(cfg, m, Enter)
    ensures var n := Step(cfg, m, Enter);
            GoesQuietly(cfg, m, n) && n.at == AtGate && n.state == Validating
  {
    ReachableSound(cfg, m);
    hide Reachable, Leads;
    GoesByStep(cfg, m, Enter);
  }

  lemma StepDecide(cfg: Config, m: Machine, known: bool, device: bool, decision: AccessPolicy.Decision, approved: bool)
    requires Reachable(cfg, m) && m.at == AtGate && known == cfg.known
    ensures m.state == Validating
    ensures var a := Decide(known, device, decision, approved);
            && Enabled(cfg, m, a)
            && var n := Step(cfg, m, a); var pass := known && device && Passes(decision, approved);
               && GoesQuietly(cfg, m, n)
               && n.state == (if !pass then m.state else if cfg.locks then WaitingResource else OpState.Resolving)
               && n.at == (if !pass then Storing(ValidationFailed) else if cfg.locks then AtLocks else AtResolver)
  {
    ReachableSound(cfg, m);
    hide Reachable, Leads;
    GoesByStep(cfg, m, Decide(known, device, decision, approved));
  }

  lemma StepLock(cfg: Config, m: Machine, ok: bool)
    requires Reachable(cfg, m) && m.at == AtLocks
    ensures m.state == WaitingResource && Enabled(cfg, m, Lock(ok))
    ensures var n := Step(cfg, m, Lock(ok));
            && GoesQuietly(cfg, m, n) && n.state == (if ok then OpState.Resolving else m.state)
            && n.at == if ok then AtResolver else Storing(ResourceFailed)
  {
    ReachableSound(cfg, m);
    hide Reachable, Leads;
    GoesByStep(cfg, m, Lock(ok));
  }

  lemma StepPick(cfg: Config, m: Machine, choice: Option<string>)
    requires Reachable(cfg, m) && m.at == AtResolver
    requires if choice.Some? then Resolver.IsChoice(m.chs, choice.value, cfg.request.target, cfg.request.capability, cfg.request.channelType)
             else NoCandidate(m.chs, cfg.request)
    ensures m.state == OpState.Resolving && Enabled(cfg, m, Pick(choice))
    ensures var n := Step(cfg, m, Pick(choice));
            && GoesQuietly(cfg, m, n) && n.state == (if choice.Some? then Running else m.state)
            && n.at == if choice.Some? then AtTop(0, choice.value) else Storing(ResolveFailed)
  {
    ReachableSound(cfg, m);
    hide Reachable, Leads, Resolver.IsChoice, NoCandidate;
    GoesByStep(cfg, m, Pick(choice));
  }

  /** The invoke's result taken on: VERIFYING, then verify. */
  lemma StepVerify(cfg: Config, m: Machine)
    requires Reachable(cfg, m) && m.at.Invoked?
    ensures m.state == Running && Enabled(cfg, m, Advance) && Enabled(cfg, Step(cfg, m, Advance), Action.Verify)
    ensures var n := Step(cfg, Step(cfg, m, Advance), Action.Verify);
            && GoesQuietly(cfg, m, n) && n.state == Verifying && n.evidence == m.at.evidence
            && n.at == Storing(if Verified(cfg.request, m.at.evidence) then Succeeded else VerifyFailed)
  {
    ReachableSound(cfg, m);
    hide Reachable, Leads, CallsOf;
    var mid := Step(cfg, m, Advance);
    GoesByStep(cfg, m, Advance);
    GoesByStep(cfg, mid, Action.Verify);
    GoesTrans(cfg, m, mid, Step(cfg, mid, Action.Verify));
  }

  lemma StoringFits(cfg: Config, m: Machine)
    requires Reachable(cfg, m) && m.at.Storing?
    ensures !IsTerminal(m.state) && Follows(m.state, m.at.final) && IsTerminal(m.at.final)
  {
    ReachableSound(cfg, m);
    hide Reachable, Calls, Aim, Counted, CancelSound, SuccessSound, FailureSound, CauseSound;
  }

  lemma StepConclude(cfg: Config, m: Machine)
    requires Reachable(cfg, m) && m.at.Storing?
    ensures !IsTerminal(m.state) && Follows(m.state, m.at.final) && IsTerminal(m.at.final)
    ensures Enabled(cfg, m, Store) && Enabled(cfg, Step(cfg, m, Store), End)
    ensures var n := Step(cfg, Step(cfg, m, Store), End);
            && Goes(cfg, m, n) && CallsOf(n.log) == CallsOf(m.log)
            && n.result == Some(OpResult(cfg.op, m.at.final)) && n.cancel == m.cancel && n.chs == m.chs && n.evidence == m.evidence
            && n.state == m.at.final && n.at == Over
  {
    StoringFits(cfg, m);
    hide Reachable, Leads, CallsOf, Follows;
    var mid := Step(cfg, m, Store);
    GoesByStep(cfg, m, Store);
    GoesByStep(cfg, mid, End);
    GoesTrans(cfg, m, mid, Step(cfg, mid, End));
  }

  lemma OverMeans(cfg: Config, m: Machine)
    requires Reachable(cfg, m) && m.at == Over
    ensures IsTerminal(m.state) && m.result == Some(OpResult(cfg.op, m.state)) && Next(m.state, Validating) == m.state
  {
    ReachableSound(cfg, m);
  }

  /** The channel an attempt is about is registered, and attempts are bounded. */
  lemma ChannelThere(cfg: Config, m: Machine)
    requires Reachable(cfg, m)
    ensures m.at.AtInvoke? ==> m.at.channel in m.chs
    ensures m.at.AtRecovery? ==> m.at.channel in m.chs
    ensures m.at.AtTop? ==> m.at.attempt <= cfg.maxRetries && m.state == Running
  {
    ReachableSound(cfg, m);
  }

  lemma StartsReachable(cfg: Config, chs: Channels)
    ensures Reachable(cfg, Lifecycle.Fresh(chs))
  {
    assert Run(cfg, Lifecycle.Fresh(chs), [], Lifecycle.Fresh(chs));
  }

  lemma AsMany(byID: map<ID, Resources.Resource>, device: ID, types: seq<string>, ids: seq<ID>)
    requires Resources.Named(byID, device, Sorting.Sort(Strings.Less, types), ids)
    ensures ids == [] <==> types == []
  {
    Sorting.SortPermutes(Strings.Less, types);
  }

  function PlaceOf(out: Outcome): Place {
    match out
    case Returned(evidence) => Lifecycle.Place.Invoked(evidence)
    case Stopped(final) => Storing(final)
  }

  ghost predicate Since(t: L.Moment, v: L.View, holder: ID) {
    v.clock <= t.at && L.Untouched(v.table, t.table, holder, t.at) && L.MutualExclusion(t.table)
  }

  /** More calls, every Invoke among them made some time after v, the holder not having
      had a turn at the lease table. */
  ghost predicate Under(before: seq<PluginCall>, after: seq<PluginCall>, v: L.View, holder: ID) {
    before <= after && forall i :: |before| <= i < |after| && after[i].Invoking? ==> Since(after[i].moment, v, holder)
  }

  lemma UnderRefl(a: seq<PluginCall>, v: L.View, holder: ID)
    ensures Under(a, a, v, holder)
  {
  }

  lemma UnderTrans(a: seq<PluginCall>, b: seq<PluginCall>, c: seq<PluginCall>, v: L.View, w: L.View, holder: ID)
    requires Under(a, b, v, holder) && Under(b, c, w, holder) && L.Lets(v, w, holder)
    ensures Under(a, c, v, holder)
  {
    hide L.Untouched, L.MutualExclusion, L.Sticks, L.OnlyOthers;
    forall i | |a| <= i < |c| && c[i].Invoking? ensures Since(c[i].moment, v, holder) {
      if i < |b| {
        assert c[i] == b[i];
      } else {
        L.UntouchedTrans(v.table, w.table, c[i].moment.table, holder, w.clock, c[i].moment.at);
      }
    }
  }

  /** No Invoke is among the new calls. */
  lemma UnderNone(a: seq<PluginCall>, b: seq<PluginCall>, v: L.View, holder: ID)
    requires a <= b && forall i :: |a| <= i < |b| ==> !b[i].Invoking?
    ensures Under(a, b, v, holder)
  {
  }

  lemma UnderInvoke(a: seq<PluginCall>, c: ID, known: bool, before: Reg.Channel, after: Reg.Channel, run: bool, v: L.View, answer: Answer, holder: ID)
    requires L.MutualExclusion(v.table)
    ensures Under(a, a + InvokeCalls(c, known, before, after, run, L.Moment(v.table, v.clock), answer), v, holder)
  {
    L.UntouchedByPrune(v.table, holder, v.clock);
  }

  /** Every Invoke made by then was made with the resources held, by this holder alone. */
  ghost predicate Secured(before: seq<PluginCall>, after: seq<PluginCall>, holder: ID, ids: seq<ID>, until: L.Time) {
    before <= after && forall i :: |before| <= i < |after| && after[i].Invoking? ==>
                         (after[i].moment.at <= until ==> L.HeldAlone(after[i].moment.table, holder, ids))
  }

  /** Leases that last that long secure the Invokes made after they were granted. */
  lemma Secures(before: seq<PluginCall>, after: seq<PluginCall>, v: L.View, holder: ID, ids: seq<ID>,
                ls: seq<L.Lease>, granted: L.Table, t0: L.Table, until: L.Time)
    requires Under(before, after, v, holder) && L.Holding(v, holder, ids, ls, granted, t0, until)
    ensures Secured(before, after, holder, ids, until)
  {
    hide L.Untouched, L.MutualExclusion, L.Granted, L.Lasting, L.HeldAlone, L.InPlace;
    forall i | |before| <= i < |after| && after[i].Invoking? && after[i].moment.at <= until
      ensures L.HeldAlone(after[i].moment.table, holder, ids)
    {
      var t := after[i].moment;
      L.UntouchedTrans(t0 + granted, v.table, t.table, holder, v.clock, t.at);
      L.HeldUntil(t0, ls, granted, ids, t.table, holder, until, t.at);
    }
  }

  /** How things stand when Execute starts: devices, channels, the changes of others to
      them, the lock manager, the operation's calls; how long leases last, how often to
      look for one. */
  datatype Scene = Scene(devices: set<ID>, chs: Channels, stirs: nat, locks: L.View, calls: seq<PluginCall>, ttl: nat, patience: nat)

  /** These resources are free to be had, one by one. */
  ghost predicate AtHand(s: Scene, ids: seq<ID>) {
    L.NoRepeats(ids) && |ids| <= s.patience && L.Free(s.locks.table, s.locks.clock, ids, L.Exclusive)
  }

  /** What becomes of an operation past the gate that needs these resources. It fails for
      want of them only if a look for one met a conflict, or the context was done before
      as many looks as resources; and not if they were free and nobody else had a turn. It
      fails for want of a channel only if none would do, or others changed the channels.
      For as long as leases last from then on, every Invoke has the resources alone. */
  ghost predicate Fate(s: Scene, r: Request, holder: ID, ids: seq<ID>, rec: Record, stirs: nat, turns: seq<L.Turn>) {
    && rec.state != ValidationFailed
    && (rec.state == ResourceFailed ==> L.Denied(s.locks.turns, turns, holder, ids, L.Exclusive) || s.patience < |ids|)
    && (rec.state == ResourceFailed ==> !(AtHand(s, ids) && L.Alone(s.locks.turns, turns, holder)))
    && (rec.state == ResolveFailed ==> s.stirs <= stirs && (stirs == s.stirs ==> NoCandidate(s.chs, r)))
    && Secured(s.calls, rec.calls, holder, ids, s.locks.clock + s.ttl)
  }

  /** From s to u the operation made no call and had no turn at the leases, devices were
      only added, and the channels are the same unless others changed them. */
  ghost predicate Precedes(s: Scene, u: Scene, holder: ID) {
    && u == s.(devices := u.devices, chs := u.chs, stirs := u.stirs, locks := u.locks)
    && s.devices <= u.devices && s.stirs <= u.stirs && (s.stirs == u.stirs ==> s.chs == u.chs)
    && L.Lets(s.locks, u.locks, holder)
  }

  /** The same as seen from before such a stretch. */
  lemma FateEarlier(s: Scene, u: Scene, r: Request, holder: ID, ids: seq<ID>, rec: Record, stirs: nat, turns: seq<L.Turn>)
    requires Fate(u, r, holder, ids, rec, stirs, turns) && Precedes(s, u, holder) && u.locks.turns <= turns
    ensures Fate(s, r, holder, ids, rec, stirs, turns)
  {
    hide NoCandidate, L.HeldAlone, L.Free, L.NoRepeats, L.Denied, L.Alone, L.OnlyOthers, L.Sticks, L.Untouched;
    L.OthersAfter(s.locks.turns, u.locks.turns, holder);
    if L.Denied(u.locks.turns, turns, holder, ids, L.Exclusive) {
      L.DeniedMore(s.locks.turns, u.locks.turns, turns, turns, holder, ids, ids, L.Exclusive);
    }
    if AtHand(s, ids) && L.Alone(s.locks.turns, turns, holder) {
      L.AloneParts(s.locks.turns, u.locks.turns, turns, holder);
      L.OthersShow(s.locks.turns, u.locks.turns, holder);
      L.FreeLater(s.locks.table, s.locks.clock, u.locks.clock, ids, L.Exclusive);
    }
  }

  /** The stored evidence of operations after one of them ended. */
  ghost function Recorded(ev: map<ID, seq<Evidence>>, id: ID, st: OpState, m: Machine): map<ID, seq<Evidence>> {
    if st == Succeeded then ev[id := m.evidence] else ev
  }

  lemma NotRecorded(ev: map<ID, seq<Evidence>>, id: ID, st: OpState, m: Machine)
    requires st != Succeeded
    ensures Recorded(ev, id, st, m) == ev
  {
  }

  /** Every operation that succeeded has its evidence stored. */
  ghost predicate Filed(recs: map<ID, Record>, rs: map<ID, Machine>, ev: map<ID, seq<Evidence>>) {
    forall id :: id in recs && recs[id].state == Succeeded ==> id in rs && id in ev && ev[id] == rs[id].evidence
  }

  lemma FiledMore(recs: map<ID, Record>, rs: map<ID, Machine>, ev: map<ID, seq<Evidence>>, id: ID, rec: Record, m: Machine)
    requires Filed(recs, rs, ev) && (rec.state == Succeeded ==> id in ev && ev[id] == m.evidence)
    ensures Filed(recs[id := rec], rs[id := m], ev)
  {
  }

  lemma FiledRan(recs: map<ID, Record>, rs: map<ID, Machine>, ev: map<ID, seq<Evidence>>, id: ID, rec: Record, m: Machine)
    requires Filed(recs, rs, ev)
    ensures Filed(recs[id := rec], rs[id := m], Recorded(ev, id, rec.state, m))
  {
  }

  lemma FiledAt(recs: map<ID, Record>, rs: map<ID, Machine>, ev: map<ID, seq<Evidence>>, id: ID)
    requires Filed(recs, rs, ev)
    ensures id in recs && recs[id].state == Succeeded ==> id in rs && id in ev && ev[id] == rs[id].evidence
  {
  }

  lemma FiledAgain(recs: map<ID, Record>, rs: map<ID, Machine>, ev: map<ID, seq<Evidence>>, id: ID)
    requires Filed(recs, rs, ev) && id in recs && id in rs
    ensures Filed(recs[id := recs[id]], rs[id := rs[id]], ev)
  {
  }

  /** A place where the final state is settled fits the state it is left from. */
  lemma StoringMeans(cfg: Config, m: Machine)
    requires Reachable(cfg, m) && m.at.Storing?
    ensures Follows(m.state, m.at.final)
  {
    ReachableSound(cfg, m);
  }

  lemma FlagIsUp(cfg: Config, m: Machine)
    requires Reachable(cfg, m)
    ensures m.cancel == HasFlag(m.log)
  {
    ReachableSound(cfg, m);
  }

  /** What the record of an operation tells of its lifecycle. */
  lemma RecordTells(rec: Record, cfg: Config, m: Machine, chs: Channels)
    requires Shows(rec, cfg, m) && Reg.Grows(m.chs, chs)
    ensures States(m.log)[|States(m.log)| - 1] == rec.state && Linked(States(m.log))
    ensures IsTerminal(rec.state) ==> rec.result == Some(OpResult(cfg.op, rec.state))
    ensures Disciplined(cfg, m.log) && LateInvokes(m.log) <= 1
    ensures InvokesIn(rec.calls) <= cfg.maxRetries + 1 && RecoversIn(rec.calls) <= cfg.maxRetries
    ensures Aimed(cfg, rec.calls) && NoneAfterMismatch(cfg, rec.calls)
    ensures IsTerminal(rec.state) ==> (rec.state in {Succeeded, VerifyFailed} <==> ProvenBy(cfg, rec.calls))
    ensures rec.state in {Succeeded, VerifyFailed} ==>
              BackedBy(cfg, rec.calls, m.evidence) && (rec.state == Succeeded <==> Verified(cfg.request, m.evidence))
    ensures IsTerminal(rec.state) ==> (rec.state == ValidationFailed <==> !Passed(m.log))
    ensures rec.state == ResolveFailed ==> FoundNone(cfg, m.log)
    ensures rec.state == Cancelled ==> rec.cancel
    ensures IsTerminal(rec.state) ==> (rec.state == Unknown <==> Undecided(cfg, rec.calls))
    ensures IsTerminal(rec.state) && BrokeOff(cfg, rec.calls) ==> rec.state == RunFailed
    ensures rec.state == RunFailed ==> BrokeOff(cfg, rec.calls) || (BetweenAttempts(rec.calls) && LacksPlugin(cfg, chs))
    ensures rec.state == Cancelled ==> BetweenAttempts(rec.calls)
    ensures rec.state in {ValidationFailed, ResourceFailed, ResolveFailed} ==> rec.calls == []
    ensures IsTerminal(rec.state) && EndsOpen(cfg, rec.calls) ==> RecoversIn(rec.calls) == cfg.maxRetries
  {
    hide Reachable, Disciplined, WellAimed, Proven, Verified, Linked, States, CallsOf, LateInvokes, Invokes, Recovers;
    hide Aimed, NoneAfterMismatch, ProvenBy, InvokesIn, RecoversIn, SawMismatch, Passed, FoundNone, Backed, BackedBy, HasFlag;
    hide Undecided, BrokeOff, BetweenAttempts;
    LifecycleAdvances(cfg, m);
    CallsAreGoverned(cfg, m);
    SuccessIsProven(cfg, m);
    FailureIsMet(cfg, m);
    FlagIsUp(cfg, m);
    CallsSound(cfg, m.log);
    hide EndsOpen;
    if IsTerminal(m.state) { GivesUpLast(cfg, m); }
    hide Reg.Grows, LacksPlugin;
    if LacksPlugin(cfg, m.chs) { LacksStill(cfg, m.chs, chs); }
  }

  /** What the calls tell of a run that stopped. */
  lemma StoppedTells(cfg: Config, m: Machine, chs: Channels)
    requires Reachable(cfg, m) && m.at.Storing? && Reg.Grows(m.chs, chs)
    ensures var calls, final := CallsOf(m.log), m.at.final;
            && (final == Unknown <==> Undecided(cfg, calls))
            && (BrokeOff(cfg, calls) ==> final == RunFailed)
            && (final == RunFailed ==> BrokeOff(cfg, calls) || (BetweenAttempts(calls) && LacksPlugin(cfg, chs)))
            && (final == Cancelled ==> BetweenAttempts(calls))
  {
    ReachableSound(cfg, m);
    CallsAreGoverned(cfg, m);
    CallsSound(cfg, m.log);
    hide Reachable, Path, Calls, Aim, Counted, CancelSound, CauseSound, CallsOf, LacksPlugin, Proven, Backed, Undecided, BrokeOff, ProvenBy;
    hide Disciplined, WellAimed, Invokes, Recovers, Aimed, NoneAfterMismatch, InvokesIn, RecoversIn, SawMismatch;
    EndsOnce(cfg, CallsOf(m.log), m.at.final);
    hide Reg.Grows;
    if LacksPlugin(cfg, m.chs) { LacksStill(cfg, m.chs, chs); }
  }

  /** Each idempotency key names the operation requested with it. */
  ghost predicate Keyed(keys: map<string, ID>, ops: map<ID, Operation>) {
    forall k :: k in keys ==> k != "" && keys[k] in ops && ops[keys[k]].request.idempotencyKey == k
  }

  class Engine {
    const reg: Reg.Registry
    const recovery: Recovery.Manager
    const locks: L.Manager
    const resources: Resources.ResourceRegistry
    const policy: AccessPolicy.Policy
    const approval: AccessPolicy.ApprovalService
    const catalog: map<string, Descriptor>   // capability, its descriptor
    const plugins: set<string>
    const cancellers: set<string>            // plugins that take cancel notices
    const sessions: map<string, string>      // session, principal
    const maxRetries: nat
    const lockTTL: nat
    var operations: map<ID, Operation>
    var idempotency: map<string, ID>
    var evidence: map<ID, seq<Evidence>>
    ghost var runs: map<ID, Machine>         // where each operation's lifecycle stands
    ghost var stirs: nat                     // changes of devices and channels by others

    /** The registry and the recovery manager over it are sound. */
    ghost predicate Shared()
      reads recovery, reg
    {
      recovery.reg == reg && recovery.Valid()
    }

    ghost function ConfigOf(op: Operation): Config {
      var cap := op.request.capability;
      Config(op.id, op.request, cap in catalog, cap in catalog && catalog[cap].resources != [], plugins, maxRetries)
    }

    ghost predicate TrackedAs(ops: map<ID, Operation>, recs: map<ID, Record>, rs: map<ID, Machine>, chs: Channels) {
      && ops.Keys == recs.Keys == rs.Keys
      && forall id :: id in ops ==> ops[id].id == id && Shows(recs[id], ConfigOf(ops[id]), rs[id]) && Reg.Grows(rs[id].chs, chs)
    }

    /** Every operation has a lifecycle that its record shows. */
    ghost predicate Tracked(ops: map<ID, Operation>, rs: map<ID, Machine>)
      reads reg, ops.Values
    {
      TrackedAs(ops, Records(ops), rs, reg.channels)
    }

    ghost predicate Valid()
      reads this, reg, recovery, locks, resources, policy, operations.Values
    {
      && Shared() && locks.Valid() && resources.Valid() && policy.Valid()
      && Tracked(operations, runs) && Keyed(idempotency, operations) && Filed(Records(operations), runs, evidence)
    }

    /** New: retries and lease time left at zero get defaults. */
    constructor (reg: Reg.Registry, recovery: Recovery.Manager, locks: L.Manager, resources: Resources.ResourceRegistry,
                 policy: AccessPolicy.Policy, approval: AccessPolicy.ApprovalService, catalog: map<string, Descriptor>,
                 plugins: set<string>, cancellers: set<string>, sessions: map<string, string>, maxRetries: int, lockTTL: int)
      requires recovery.reg == reg && recovery.Valid() && locks.Valid() && resources.Valid() && policy.Valid()
      ensures Valid() && operations == map[] && this.reg == reg && this.recovery == recovery && this.locks == locks && this.resources == resources
      ensures this.policy == policy && this.approval == approval && this.catalog == catalog && this.sessions == sessions
      ensures this.plugins == plugins && this.cancellers == cancellers
      ensures this.maxRetries == (if maxRetries > 0 then maxRetries else 1) && this.lockTTL == if lockTTL > 0 then lockTTL else 30_000_000_000
    {
      this.reg, this.recovery, this.locks, this.resources := reg, recovery, locks, resources;
      this.policy, this.approval, this.catalog, this.sessions := policy, approval, catalog, sessions;
      this.plugins, this.cancellers := plugins, cancellers;
      this.maxRetries := if maxRetries <= 0 then 1 else maxRetries;
      this.lockTTL := if lockTTL <= 0 then 30_000_000_000 else lockTTL;
      operations, idempotency, evidence, runs, stirs := map[], map[], map[], map[], 0;
    }

    /** A lifecycle with what Execute knows of it: the record shows it, and the channels
        it saw last are still there. */
    ghost predicate InStep(op: Operation, m: Machine)
      reads op, reg, recovery
    {
      Tied(op, ConfigOf(op), m) && Shared() && Reg.Grows(m.chs, reg.channels)
    }

    /** The lifecycle went on from m to n, and the record keeps in step. */
    ghost predicate GoesOn(op: Operation, m: Machine, n: Machine)
      reads op, reg, recovery
    {
      InStep(op, n) && Goes(ConfigOf(op), m, n)
    }

    lemma InStepGoes(op: Operation, m: Machine)
      requires InStep(op, m)
      ensures GoesOn(op, m, m)
    {
      GoesRefl(ConfigOf(op), m);
    }

    lemma GoesOnTrans(op: Operation, m: Machine, n: Machine, o: Machine)
      requires Goes(ConfigOf(op), m, n) && GoesOn(op, n, o)
      ensures GoesOn(op, m, o)
    {
      hide Goes, InStep;
      GoesTrans(ConfigOf(op), m, n, o);
    }

    /** Since then devices were only added, and the channels are as they were unless others
        changed them. */
    ghost predicate Calm(since: nat, chs: Channels, devices: set<ID>)
      reads this`stirs, reg
    {
      since <= stirs && (stirs == since ==> reg.channels == chs) && devices <= reg.devices.Keys
    }

    /** Resolving failed only if no channel of these would do, others not having been at them. */
    ghost predicate Unmet(op: Operation, since: nat, chs: Channels)
      reads op, this`stirs
    {
      op.state == ResolveFailed ==> since <= stirs && (stirs == since ==> NoCandidate(chs, op.request))
    }

    /** A recovery for another operation. */
    method SomeRecovery()
      requires Shared()
      modifies recovery.Footprint()
      ensures Shared() && Reg.Grows(old(reg.channels), reg.channels) && old(reg.devices.Keys) <= reg.devices.Keys
    {
      hide Recovery.Called, Recovery.Manager.Valid, Reg.Grows, Recovery.Usable, Recovery.NoneThen, Resolver.IsChoice;
      Scan.GrowsRefl(reg.channels);
      var c: string, cap: string, err: RecoveryLadder.Error := *, *, *;
      if c in reg.channels {
        var r, works := recovery.Recover(c, cap, err);
      }
    }

    /** A recovery for another operation, or a scan for devices that came or went. */
    method SomeChange()
      requires Shared()
      modifies this`stirs, recovery.Footprint()
      ensures Shared() && Reg.Grows(old(reg.channels), reg.channels) && old(reg.devices.Keys) <= reg.devices.Keys
      ensures stirs == old(stirs) + 1
    {
      Scan.GrowsRefl(reg.channels);
      stirs := stirs + 1;
      if * {
        SomeRecovery();
      } else if recovery.discovery.Some? {
        var scan: seq<Scan.Sighting> := *;
        var added, removed := recovery.discovery.value.Refresh(scan);
      }
    }

    /** Any number of those. */
    method SomeChanges()
      requires Shared()
      modifies this`stirs, recovery.Footprint()
      ensures Shared() && Reg.Grows(old(reg.channels), reg.channels)
      ensures Calm(old(stirs), old(reg.channels), old(reg.devices.Keys))
    {
      hide Recovery.Manager.Valid, Reg.Grows;
      ghost var chs, since, devs := reg.channels, stirs, reg.devices.Keys;
      Scan.GrowsRefl(chs);
      var n: nat := *;
      while n > 0
        invariant Shared() && Reg.Grows(chs, reg.channels) && Calm(since, chs, devs)
      {
        ghost var mid := reg.channels;
        SomeChange();
        Scan.GrowsTrans(chs, mid, reg.channels);
        n := n - 1;
      }
    }

    /** A Cancel of this operation, perhaps. */
    method MaybeCancel(op: Operation, ghost m: Machine) returns (ghost n: Machine)
      requires InStep(op, m)
      modifies op`cancelRequested
      ensures GoesOn(op, m, n) && n.at == m.at && n.chs == m.chs
    {
      hide Reachable, Leads, Enabled, Step, Reg.Grows, Shared;
      InStepGoes(op, m);
      n := m;
      if * {
        op.RequestCancel();
        StepCancel(ConfigOf(op), m);
        n := Step(ConfigOf(op), m, Action.Cancel);
      }
    }

    /** Changes by others, and the lifecycle that goes on with the channels they leave. */
    method ChangesSeen(op: Operation, ghost m: Machine) returns (ghost n: Machine)
      requires InStep(op, m)
      modifies this`stirs, recovery.Footprint()
      ensures GoesOn(op, m, n) && n.at == m.at && n.chs == reg.channels && Reg.Grows(old(reg.channels), reg.channels)
      ensures Calm(old(stirs), old(reg.channels), old(reg.devices.Keys))
    {
      hide Reachable, Leads, Enabled, Step, Reg.Grows, Shared;
      ghost var cfg, chs := ConfigOf(op), reg.channels;
      SomeChanges();
      Scan.GrowsTrans(m.chs, chs, reg.channels);
      Scan.GrowsRefl(reg.channels);
      StepOthers(cfg, m, reg.channels);
      n := Step(cfg, m, Others(reg.channels));
    }

    /** Between two critical sections: a Cancel of this operation, recoveries, scans, and
        other holders at the lease table, while time moves on. */
    method Meanwhile(op: Operation, ghost m: Machine) returns (ghost n: Machine)
      requires InStep(op, m) && locks.Valid()
      modifies op`cancelRequested, this`stirs, recovery.Footprint(), locks, locks.Repr
      ensures GoesOn(op, m, n) && n.at == m.at && n.chs == reg.channels && Reg.Grows(old(reg.channels), reg.channels)
      ensures Calm(old(stirs), old(reg.channels), old(reg.devices.Keys))
      ensures locks.Valid() && fresh(locks.Repr - old(locks.Repr)) && L.Lets(old(locks.State()), locks.State(), op.id)
    {
      hide InStep, Goes, Recovery.Manager.Valid, Reg.Grows, L.Manager.Valid, L.Manager.State, L.Lets;
      locks.Others(op.id);
      ghost var mid := MaybeCancel(op, m);
      n := ChangesSeen(op, mid);
      GoesOnTrans(op, m, mid, n);
    }

    // ---- The calls ----

    /** plugin.Open: a channel it reports open is READY. */
    method OpenPlugin(op: Operation, c: ID) returns (ok: bool)
      requires Shared() && c in reg.channels
      modifies op`calls, reg`channels
      ensures Shared() && Reg.Grows(old(reg.channels), reg.channels)
      ensures c in reg.channels && (ok ==> reg.channels[c].state == Reg.Ready)
      ensures op.calls == old(op.calls) + [PluginCall.Opening(c)]
    {
      ok := *;
      var state: Reg.ChannelState, healthy: bool := *, *;
      reg.SetChannelState(c, if ok then Reg.Ready else state, healthy);
      op.calls := op.calls + [PluginCall.Opening(c)];
    }

    /** plugin.Invoke: the answer may be anything. */
    method InvokePlugin(op: Operation, c: ID) returns (answer: Answer)
      requires c in reg.channels
      modifies op`calls
      ensures op.calls == old(op.calls) + [Invoking(c, reg.channels[c], locks.Now(), answer)]
    {
      answer := *;
      op.calls := op.calls + [Invoking(c, reg.channels[c], locks.Now(), answer)];
    }

    /** recovery.Observe: it may fail, or see anything. */
    method ObservePlugin(op: Operation) returns (seen: Option<Observation>)
      modifies op`calls
      ensures op.calls == old(op.calls) + [Observing(seen)]
    {
      if * {
        seen := None;
      } else {
        var online: bool, facts: map<string, string> := *, *;
        seen := Some(Observation(online, facts));
      }
      op.calls := op.calls + [Observing(seen)];
    }

    /** One call of Recover on the channel for the error, which hands back this channel. */
    ghost predicate Healed(c: ID, err: RecoveryLadder.Raised, before: Recovery.Ledger, next: Option<ID>)
      reads recovery
    {
      exists r, works ::
        && Recovery.Called(recovery.budget, recovery.resolver, recovery.discovery.Some?, c, RecoveryLadder.Classify(err),
                           before, recovery.LedgerOf(c), r, works)
        && next == if r.recovered then Some(r.channel) else None
    }

    /** recovery.Recover for the error that the plugin raised, classified. */
    method Heal(op: Operation, c: ID, err: RecoveryLadder.Raised) returns (next: Option<ID>)
      requires Shared() && c in reg.channels
      modifies op`calls, recovery.Footprint()
      ensures Shared() && Reg.Grows(old(reg.channels), reg.channels)
      ensures next.Some? ==> Recovery.Usable(old(reg.channels), reg.channels, c, op.request.capability, next.value)
      ensures op.calls == old(op.calls) + [PluginCall.Recovering(c, next)]
      ensures Healed(c, err, old(recovery.LedgerOf(c)), next)
    {
      hide Recovery.Manager.Valid, Recovery.Usable, Reg.Grows, Recovery.Called;
      var r, works := recovery.Recover(c, op.request.capability, RecoveryLadder.Classify(err));
      next := if r.recovered then Some(r.channel) else None;
      op.calls := op.calls + [PluginCall.Recovering(c, next)];
    }

    // ---- The attempt loop ----

    /** The cancel check at the head of the loop. */
    method CheckCancel(op: Operation, ghost m: Machine) returns (go: bool, ghost n: Machine)
      requires InStep(op, m) && m.at.AtTop?
      ensures go <==> !op.cancelRequested
      ensures GoesOn(op, m, n) && n.chs == m.chs && n.at == if go then AtInvoke(m.at.attempt, m.at.channel) else Storing(Cancelled)
    {
      hide Reachable, Leads, Enabled, Step, Reg.Grows, Shared;
      go := !op.cancelRequested;
      StepTop(ConfigOf(op), m);
      n := Step(ConfigOf(op), m, Top);
    }

    /** The plugin looked up, the channel opened unless READY, and one Invoke; none if the
        plugin is unknown or the channel does not open. */
    method CallPlugin(op: Operation, c: ID) returns (opens: bool, run: bool, answer: Answer)
      requires Shared() && c in reg.channels
      modifies op`calls, reg`channels
      ensures Shared() && Reg.Grows(old(reg.channels), reg.channels) && c in reg.channels
      ensures run <==> old(reg.channels)[c].plugin in plugins && opens
      ensures if old(reg.channels)[c].state == Reg.Ready then opens && reg.channels == old(reg.channels)
              else opens ==> reg.channels[c].state == Reg.Ready
      ensures var before := old(reg.channels)[c];
              op.calls == old(op.calls) + InvokeCalls(c, before.plugin in plugins, before, reg.channels[c], run, locks.Now(), answer)
    {
      hide Recovery.Manager.Valid, Reg.Grows;
      Scan.GrowsRefl(reg.channels);
      var known := reg.channels[c].plugin in plugins;
      opens, answer := reg.channels[c].state == Reg.Ready, Answer.Raised(RecoveryLadder.Other);
      if known && !opens {
        opens := OpenPlugin(op, c);
      }
      run := known && opens;
      if run {
        answer := InvokePlugin(op, c);
      }
    }

    /** These calls, as one step of the lifecycle. */
    method InvokeOnce(op: Operation, c: ID, ghost m: Machine) returns (run: bool, answer: Answer, ghost n: Machine)
      requires InStep(op, m) && m.at.AtInvoke? && m.at.channel == c && m.chs == reg.channels
      modifies op`calls, reg`channels
      ensures GoesOn(op, m, n) && Reg.Grows(old(reg.channels), reg.channels)
      ensures n.at == if !run then Storing(RunFailed)
                      else if answer.Done? then Lifecycle.Place.Invoked(answer.evidence) else AtObserve(m.at.attempt, c)
      ensures c in m.chs && c in reg.channels
      ensures run ==> m.chs[c].plugin in plugins && reg.channels[c].state == Reg.Ready
      ensures !run ==> m.chs[c].plugin !in plugins || m.chs[c].state != Reg.Ready
      ensures op.calls == old(op.calls) + InvokeCalls(c, m.chs[c].plugin in plugins, m.chs[c], reg.channels[c], run, locks.Now(), answer)
    {
      hide Reachable, Leads, Step, Enabled, Shared, Reg.Grows, InvokeCalls, CallsOf, L.Manager.Now;
      ghost var cfg, now := ConfigOf(op), locks.Now();
      ChannelThere(cfg, m);
      var opens;
      opens, run, answer := CallPlugin(op, c);
      ghost var known := m.chs[c].plugin in plugins;
      StepInvoke(cfg, m, known, opens, reg.channels, now, answer);
      n := Step(cfg, m, Invoke(known, opens, reg.channels, now, answer));
      Scan.GrowsRefl(reg.channels);
    }

    /** The lease table of these calls is the one there is. */
    lemma InvokedNow(before: seq<PluginCall>, c: ID, known: bool, prior: Reg.Channel, current: Reg.Channel, run: bool, answer: Answer, holder: ID)
      requires locks.Valid()
      ensures Under(before, before + InvokeCalls(c, known, prior, current, run, locks.Now(), answer), locks.State(), holder)
    {
      hide L.MutualExclusion, L.Untouched, L.Manager.Table;
      locks.TableExcludes();
      UnderInvoke(before, c, known, prior, current, run, locks.State(), answer, holder);
    }

    /** The facts as evidence, in whatever order the map is walked. */
    static method EvidenceOf(facts: map<string, string>) returns (evidence: seq<Evidence>)
      ensures FactsOf(facts, evidence)
    {
      evidence := [];
      var left := facts.Keys;
      while left != {}
        invariant left <= facts.Keys
        invariant forall e :: e in evidence ==> e.name in facts && facts[e.name] == e.value
        invariant forall k :: k in facts && k !in left ==> Evidence(k, facts[k]) in evidence
        decreases |left|
      {
        var k :| k in left;
        left := left - {k};
        evidence := evidence + [Evidence(k, facts[k])];
      }
    }

    /** recovery.Observe and the reconciler: a result from the observed facts, a final
        state, or a decision that leaves it to the ladder. */
    method ObserveOnce(op: Operation, ghost m: Machine) returns (out: Option<Outcome>, d: Rec.Decision, ghost n: Machine)
      requires InStep(op, m) && m.at.AtObserve?
      modifies op`calls
      ensures GoesOn(op, m, n) && n.chs == m.chs
      ensures n.at == if out.Some? then PlaceOf(out.value) else AtRecovery(m.at.attempt, m.at.channel, d)
      ensures |op.calls| == |old(op.calls)| + 1 && op.calls[..|old(op.calls)|] == old(op.calls) && op.calls[|old(op.calls)|].Observing?
      ensures var seen := op.calls[|old(op.calls)|].seen;
              && (out.None? <==> seen.None? || !(Rec.Shows(op.request, seen.value) || Rec.Mismatch(op.request, seen.value)))
              && (out.Some? ==> if Rec.Shows(op.request, seen.value) then out.value.Returned? && FactsOf(seen.value.facts, out.value.evidence)
                                else out == Some(Stopped(Unknown)))
    {
      hide Reachable, Leads, Enabled, Step, Shared, Reg.Grows, Rec.Reconcile, Rec.Shows, Rec.Mismatch, FactsOf;
      ghost var cfg := ConfigOf(op);
      var seen := ObservePlugin(op);
      if seen.None? {
        StepObserve(cfg, m, seen, []);
        return None, Rec.Retry, Step(cfg, m, Observe(seen, []));
      }
      var facts := EvidenceOf(seen.value.facts);
      StepObserve(cfg, m, seen, facts);
      n := Step(cfg, m, Observe(seen, facts));
      d := Rec.Reconcile(op.request, seen.value);
      Rec.DecisionMeans(op.request, seen.value);
      out := if d == Rec.Success then Some(Returned(facts)) else if d == Rec.Manual then Some(Stopped(Unknown)) else None;
    }

    /** The retry budget, then recovery.Recover, and the rebinding to the channel that
        comes out of it. */
    method RecoverOnce(op: Operation, attempt: nat, c: ID, err: RecoveryLadder.Raised, d: Rec.Decision, ghost m: Machine)
      returns (next: Option<ID>, ghost n: Machine)
      requires InStep(op, m) && m.at == AtRecovery(attempt, c, d) && m.chs == reg.channels
      modifies op`channel, op`calls, recovery.Footprint()
      ensures GoesOn(op, m, n) && Reg.Grows(old(reg.channels), reg.channels)
      ensures n.at == if next.Some? then AtTop(attempt + 1, next.value) else Storing(FinalState(d))
      ensures next.Some? ==> attempt < maxRetries
      ensures op.calls == old(op.calls) + if attempt < maxRetries then [PluginCall.Recovering(c, next)] else []
      ensures op.channel == if next.Some? && next.value != c then next else old(op.channel)
      ensures attempt < maxRetries ==> Healed(c, err, old(recovery.LedgerOf(c)), next)
    {
      hide Reachable, Leads, Enabled, Step, Shared, Recovery.Usable, Reg.Grows, Healed;
      ghost var cfg := ConfigOf(op);
      ChannelThere(cfg, m);
      if attempt >= maxRetries {
        Scan.GrowsRefl(reg.channels);
        StepGiveUp(cfg, m);
        n := Step(cfg, m, GiveUp);
        return None, n;
      }
      next := Heal(op, c, err);
      StepRecover(cfg, m, reg.channels, next);
      n := Step(cfg, m, Recover(reg.channels, next));
      Scan.GrowsRefl(reg.channels);
      if next.Some? && next.value != c {
        op.channel := next;
      }
    }

    /** Recover, some time after Observe. */
    method RecoverSoon(op: Operation, attempt: nat, c: ID, err: RecoveryLadder.Raised, d: Rec.Decision, ghost m: Machine)
      returns (next: Option<ID>, ghost n: Machine)
      requires InStep(op, m) && m.at == AtRecovery(attempt, c, d) && locks.Valid()
      modifies op`channel, op`cancelRequested, op`calls, this`stirs, recovery.Footprint(), locks, locks.Repr
      ensures GoesOn(op, m, n) && Reg.Grows(old(reg.channels), reg.channels)
      ensures n.at == if next.Some? then AtTop(attempt + 1, next.value) else Storing(FinalState(d))
      ensures next.Some? ==> attempt < maxRetries
      ensures locks.Valid() && fresh(locks.Repr - old(locks.Repr)) && L.Lets(old(locks.State()), locks.State(), op.id)
      ensures op.calls == old(op.calls) + if attempt < maxRetries then [PluginCall.Recovering(c, next)] else []
    {
      hide Healed, InStep, Goes, Recovery.Manager.Valid, Reg.Grows, ConfigOf, L.Manager.Valid, L.Manager.State, L.Lets;
      ghost var chs := reg.channels;
      ghost var was := Meanwhile(op, m);
      ghost var mid := reg.channels;
      next, n := RecoverOnce(op, attempt, c, err, d, was);
      Scan.GrowsTrans(chs, mid, reg.channels);
      GoesOnTrans(op, m, was, n);
    }

    /** After an Invoke that failed: Observe, and Recover unless that settles it. */
    method AfterFailure(op: Operation, attempt: nat, c: ID, err: RecoveryLadder.Raised, ghost m: Machine)
      returns (done: Option<Outcome>, next: ID, ghost n: Machine)
      requires InStep(op, m) && m.at == AtObserve(attempt, c) && locks.Valid()
      modifies op`channel, op`cancelRequested, op`calls, this`stirs, recovery.Footprint(), locks, locks.Repr
      ensures GoesOn(op, m, n) && Reg.Grows(old(reg.channels), reg.channels)
      ensures n.at == if done.Some? then PlaceOf(done.value) else AtTop(attempt + 1, next)
      ensures done.None? ==> attempt < maxRetries
      ensures locks.Valid() && fresh(locks.Repr - old(locks.Repr)) && L.Lets(old(locks.State()), locks.State(), op.id)
      ensures Under(old(op.calls), op.calls, old(locks.State()), op.id)
    {
      hide InStep, Goes, Recovery.Manager.Valid, Reg.Grows, ConfigOf, Rec.Shows, Rec.Mismatch, FactsOf;
      hide L.Manager.Valid, L.Manager.State, L.Lets, Under;
      ghost var calls, v := op.calls, locks.State();
      next := c;
      L.LetsRefl(v, op.id);
      Scan.GrowsRefl(reg.channels);
      var d;
      done, d, n := ObserveOnce(op, m);
      if done.None? {
        ghost var was := n;
        var alt;
        alt, n := RecoverSoon(op, attempt, c, err, d, n);
        GoesOnTrans(op, m, was, n);
        if alt.None? {
          done := Some(Stopped(FinalState(d)));
        } else {
          next := alt.value;
        }
      }
      UnderNone(calls, op.calls, v, op.id);
    }

    /** The Invoke of an attempt, some time after the cancel check. */
    method InvokeSoon(op: Operation, attempt: nat, c: ID, ghost m: Machine) returns (run: bool, answer: Answer, ghost n: Machine)
      requires InStep(op, m) && m.at == AtInvoke(attempt, c) && locks.Valid()
      modifies op`cancelRequested, op`calls, this`stirs, recovery.Footprint(), locks, locks.Repr
      ensures GoesOn(op, m, n) && Reg.Grows(old(reg.channels), reg.channels)
      ensures n.at == if !run then Storing(RunFailed)
                      else if answer.Done? then Lifecycle.Place.Invoked(answer.evidence) else AtObserve(attempt, c)
      ensures locks.Valid() && fresh(locks.Repr - old(locks.Repr)) && L.Lets(old(locks.State()), locks.State(), op.id)
      ensures Under(old(op.calls), op.calls, old(locks.State()), op.id)
    {
      hide Reachable, Leads, Goes, Enabled, Step, Recovery.Manager.Valid, Reg.Grows, ConfigOf, InvokeCalls;
      hide L.Manager.Valid, L.Manager.State, L.Lets, Under;
      ghost var cfg, chs, calls, v := ConfigOf(op), reg.channels, op.calls, locks.State();
      ghost var was := Meanwhile(op, m);
      ghost var mid := reg.channels;
      UnderRefl(calls, v, op.id);
      run, answer, n := InvokeOnce(op, c, was);
      InvokedNow(calls, c, was.chs[c].plugin in plugins, was.chs[c], reg.channels[c], run, answer, op.id);
      UnderTrans(calls, calls, op.calls, v, locks.State(), op.id);
      Scan.GrowsTrans(chs, mid, reg.channels);
      GoesTrans(cfg, m, was, n);
    }

    /** An attempt past the cancel check: what ends the loop, or the channel for the next. */
    method TryOn(op: Operation, attempt: nat, c: ID, ghost m: Machine) returns (done: Option<Outcome>, next: ID, ghost n: Machine)
      requires InStep(op, m) && m.at == AtInvoke(attempt, c) && locks.Valid()
      modifies op`channel, op`cancelRequested, op`calls, this`stirs, recovery.Footprint(), locks, locks.Repr
      ensures GoesOn(op, m, n) && Reg.Grows(old(reg.channels), reg.channels)
      ensures n.at == if done.Some? then PlaceOf(done.value) else AtTop(attempt + 1, next)
      ensures done.None? ==> attempt < maxRetries
      ensures locks.Valid() && fresh(locks.Repr - old(locks.Repr)) && L.Lets(old(locks.State()), locks.State(), op.id)
      ensures Under(old(op.calls), op.calls, old(locks.State()), op.id)
    {
      hide InStep, Goes, Recovery.Manager.Valid, Reg.Grows, ConfigOf, L.Manager.Valid, L.Manager.State, L.Lets, Under;
      ghost var cfg, chs, calls, v := ConfigOf(op), reg.channels, op.calls, locks.State();
      var run, answer;
      run, answer, n := InvokeSoon(op, attempt, c, m);
      if !run {
        return Some(Stopped(RunFailed)), c, n;
      }
      if answer.Done? {
        return Some(Returned(answer.evidence)), c, n;
      }
      ghost var mid, was, made, w := reg.channels, n, op.calls, locks.State();
      done, next, n := AfterFailure(op, attempt, c, answer.error, n);
      UnderTrans(calls, made, op.calls, v, w, op.id);
      L.LetsTrans(v, w, locks.State(), op.id);
      Scan.GrowsTrans(chs, mid, reg.channels);
      GoesOnTrans(op, m, was, n);
    }

    /** One turn of the loop. */
    method Attempt(op: Operation, attempt: nat, c: ID, ghost m: Machine) returns (done: Option<Outcome>, next: ID, ghost n: Machine)
      requires InStep(op, m) && m.at == AtTop(attempt, c) && locks.Valid()
      modifies op`channel, op`cancelRequested, op`calls, this`stirs, recovery.Footprint(), locks, locks.Repr
      ensures GoesOn(op, m, n) && Reg.Grows(old(reg.channels), reg.channels)
      ensures n.at == if done.Some? then PlaceOf(done.value) else AtTop(attempt + 1, next)
      ensures done.None? ==> attempt < maxRetries
      ensures locks.Valid() && fresh(locks.Repr - old(locks.Repr)) && L.Lets(old(locks.State()), locks.State(), op.id)
      ensures Under(old(op.calls), op.calls, old(locks.State()), op.id)
    {
      hide InStep, Goes, Recovery.Manager.Valid, Reg.Grows, ConfigOf, L.Manager.Valid, L.Manager.State, L.Lets, Under;
      ghost var cfg, chs, calls, v := ConfigOf(op), reg.channels, op.calls, locks.State();
      UnderRefl(calls, v, op.id);
      n := Meanwhile(op, m);
      ghost var mid, was, w := reg.channels, n, locks.State();
      var go;
      go, n := CheckCancel(op, n);
      GoesOnTrans(op, m, was, n);
      if !go {
        return Some(Stopped(Cancelled)), c, n;
      }
      was := n;
      done, next, n := TryOn(op, attempt, c, n);
      UnderTrans(calls, calls, op.calls, v, w, op.id);
      L.LetsTrans(v, w, locks.State(), op.id);
      Scan.GrowsTrans(chs, mid, reg.channels);
      GoesOnTrans(op, m, was, n);
    }

    /** The loop of runWithRecovery. */
    method RunAttempts(op: Operation, first: ID, ghost m: Machine) returns (out: Outcome, ghost n: Machine)
      requires InStep(op, m) && m.at == AtTop(0, first) && locks.Valid()
      modifies op`channel, op`cancelRequested, op`calls, this`stirs, recovery.Footprint(), locks, locks.Repr
      ensures GoesOn(op, m, n) && n.at == PlaceOf(out) && Reg.Grows(old(reg.channels), reg.channels)
      ensures locks.Valid() && fresh(locks.Repr - old(locks.Repr)) && L.Lets(old(locks.State()), locks.State(), op.id)
      ensures Under(old(op.calls), op.calls, old(locks.State()), op.id)
    {
      hide InStep, Goes, Recovery.Manager.Valid, Reg.Grows, ConfigOf, L.Manager.Valid, L.Manager.State, L.Lets, Under;
      var attempt, c := 0, first;
      ghost var cfg, chs, calls, v, repr := ConfigOf(op), reg.channels, op.calls, locks.State(), locks.Repr;
      UnderRefl(calls, v, op.id);
      L.LetsRefl(v, op.id);
      Scan.GrowsRefl(chs);
      InStepGoes(op, m);
      n := m;
      while true
        invariant GoesOn(op, m, n) && n.at == AtTop(attempt, c) && attempt <= maxRetries && Reg.Grows(chs, reg.channels)
        invariant locks.Valid() && fresh(locks.Repr - repr) && L.Lets(v, locks.State(), op.id)
        invariant Under(calls, op.calls, v, op.id)
        decreases maxRetries - attempt
      {
        ghost var mid, was, made, w := reg.channels, n, op.calls, locks.State();
        var next, done;
        done, next, n := Attempt(op, attempt, c, n);
        Scan.GrowsTrans(chs, mid, reg.channels);
        GoesOnTrans(op, m, was, n);
        UnderTrans(calls, made, op.calls, v, w, op.id);
        L.LetsTrans(v, w, locks.State(), op.id);
        if done.Some? {
          return done.value, n;
        }
        attempt, c := attempt + 1, next;
      }
    }

    /** runWithRecovery: a run that stops ends UNKNOWN exactly on an observation that leaves
        the outcome open, and RUN_FAILED on a channel that did not open, an observation that
        failed, a device that answers and was not being flashed, or a missing plugin. */
    method RunWithRecovery(op: Operation, first: ID, ghost m: Machine) returns (out: Outcome, ghost n: Machine)
      requires InStep(op, m) && m.at == AtTop(0, first) && locks.Valid()
      modifies op`channel, op`cancelRequested, op`calls, this`stirs, recovery.Footprint(), locks, locks.Repr
      ensures GoesOn(op, m, n) && n.at == PlaceOf(out) && Reg.Grows(old(reg.channels), reg.channels)
      ensures locks.Valid() && fresh(locks.Repr - old(locks.Repr)) && L.Lets(old(locks.State()), locks.State(), op.id)
      ensures Under(old(op.calls), op.calls, old(locks.State()), op.id)
      ensures out.Stopped? ==>
                var cfg := ConfigOf(op);
                && (out.final == Unknown <==> Undecided(cfg, op.calls))
                && (BrokeOff(cfg, op.calls) ==> out.final == RunFailed)
                && (out.final == RunFailed ==> BrokeOff(cfg, op.calls) || (BetweenAttempts(op.calls) && LacksPlugin(cfg, reg.channels)))
                && (out.final == Cancelled ==> BetweenAttempts(op.calls))
    {
      hide Reachable, Leads, Shared, Reg.Grows, CallsOf, Undecided, BrokeOff, BetweenAttempts, LacksPlugin;
      hide L.Manager.Valid, L.Manager.State, L.Lets, Under;
      out, n := RunAttempts(op, first, m);
      if out.Stopped? { StoppedTells(ConfigOf(op), n, reg.channels); }
    }

    // ---- The phases of Execute ----

    function Principal(r: Request): string {
      if r.session == "" || r.session !in sessions then "anonymous" else sessions[r.session]
    }

    /** What policy entitles the request to, given its descriptor. */
    ghost function Verdict(r: Request): AccessPolicy.Decision
      requires r.capability in catalog
      reads policy
    {
      AccessPolicy.Entitled(policy.history, Principal(r), r.capability, r.target, catalog[r.capability].risk)
    }

    /** The resources that the operation's capability needs, in the order of their types. */
    ghost predicate Needs(op: Operation, ids: seq<ID>)
      reads resources
    {
      && op.request.capability in catalog
      && Resources.Named(resources.byID, op.request.target, Sorting.Sort(Strings.Less, catalog[op.request.capability].resources), ids)
    }

    ghost function SceneOf(op: Operation, patience: nat): Scene
      reads op, this`stirs, reg, locks, locks.byLease.Values
    {
      Scene(reg.devices.Keys, reg.channels, stirs, locks.State(), op.calls, lockTTL, patience)
    }

    /** The capability is known, and policy allows it or asks for an approval on record. */
    ghost predicate Entitled(op: Operation)
      reads policy, approval
    {
      op.request.capability in catalog && Passes(Verdict(op.request), op.id in approval.approvals)
    }

    /** The resources the capability needs, none only if it lists none. */
    method NameResources(op: Operation) returns (ids: seq<ID>)
      requires op.request.capability in catalog && resources.Valid()
      modifies resources
      ensures resources.Valid() && Needs(op, ids)
      ensures ids == [] <==> catalog[op.request.capability].resources == []
    {
      var types := catalog[op.request.capability].resources;
      ids := resources.ResolveResourceIDs(op.request.target, types);
      AsMany(resources.byID, op.request.target, types, ids);
    }

    /** Descriptor, device and policy; past them, the resources the capability needs. */
    method PassGate(op: Operation, ghost m: Machine) returns (pass: bool, ids: seq<ID>, ghost n: Machine)
      requires InStep(op, m) && m.at == AtGate && policy.Valid() && resources.Valid()
      modifies op`state, resources
      ensures GoesOn(op, m, n) && n.chs == m.chs && resources.Valid()
      ensures n.at == if !pass then Storing(ValidationFailed) else if ids != [] then AtLocks else AtResolver
      ensures pass ==> Needs(op, ids)
      ensures pass <==> Entitled(op) && op.request.target in reg.devices
    {
      hide Reachable, Leads, Enabled, Step, Shared, Reg.Grows, AccessPolicy.Policy.Valid, Resources.ResourceRegistry.Valid;
      hide CallsOf, AccessPolicy.Entitled, Resources.Named, Passes;
      ghost var cfg := ConfigOf(op);
      var cap, target := op.request.capability, op.request.target;
      pass, ids := false, [];
      if cap !in catalog || target !in reg.devices {
        StepDecide(cfg, m, cfg.known, target in reg.devices, AccessPolicy.Deny, false);
        n := Step(cfg, m, Decide(cfg.known, target in reg.devices, AccessPolicy.Deny, false));
        return;
      }
      var decision := policy.Evaluate(Principal(op.request), cap, target, catalog[cap].risk);
      var approved := approval.IsApproved(op.id);
      StepDecide(cfg, m, true, true, decision, approved);
      n := Step(cfg, m, Decide(true, true, decision, approved));
      if Passes(decision, approved) {
        pass := true;
        ids := NameResources(op);
        var moved := op.Transition(if ids != [] then WaitingResource else OpState.Resolving);
      }
    }

    method PickChannel(op: Operation, ghost m: Machine) returns (choice: Option<ID>, ghost n: Machine)
      requires InStep(op, m) && m.at == AtResolver && m.chs == reg.channels
      modifies op`state, op`channel
      ensures GoesOn(op, m, n) && n.chs == m.chs
      ensures n.at == if choice.Some? then AtTop(0, choice.value) else Storing(ResolveFailed)
      ensures choice.Some? ==> op.channel == choice && op.state == Running
      ensures choice.Some? ==>
                Resolver.IsChoice(reg.channels, choice.value, op.request.target, op.request.capability, op.request.channelType)
      ensures choice.None? ==> NoCandidate(reg.channels, op.request)
    {
      hide Reachable, Leads, Enabled, Step, Shared, Reg.Grows, Resolver.IsChoice, Resolver.Candidate;
      ghost var cfg := ConfigOf(op);
      choice := Resolver.ResolveChannel(reg, op.request.target, op.request.capability, op.request.channelType);
      StepPick(cfg, m, choice);
      n := Step(cfg, m, Pick(choice));
      if choice.Some? {
        op.channel := choice;
        var moved := op.Transition(Running);
      }
    }

    /** verify: the loop over the evidence. */
    static method Verify(r: Request, evidence: seq<Evidence>) returns (ok: bool)
      ensures ok == Verified(r, evidence)
      ensures ok <==> r.capability != "device.flash" || forall e :: e in evidence && e.name == "flash.version" ==>
                                                          e.value == if "version" in r.parameters then r.parameters["version"] else ""
    {
      if r.capability == FLASH {
        var i := 0;
        while i < |evidence|
          invariant 0 <= i <= |evidence|
          invariant forall k :: 0 <= k < i && evidence[k].name == Rec.VERSION ==> evidence[k].value == Rec.Wanted(r)
        {
          if evidence[i].name == Rec.VERSION && evidence[i].value != Rec.Wanted(r) {
            return false;
          }
          i := i + 1;
        }
      }
      ok := true;
    }

    /** VERIFYING and verify, for a result; a run that stopped has its final state. */
    method VerifyOutcome(op: Operation, out: Outcome, ghost m: Machine) returns (final: OpState, ghost n: Machine)
      requires InStep(op, m) && m.at == PlaceOf(out)
      requires op.state == Running
      modifies op`state, this`evidence
      ensures GoesOn(op, m, n) && n.at == Storing(final) && n.chs == m.chs
      ensures op.state in {Running, Verifying} && evidence == Recorded(old(evidence), op.id, final, n)
    {
      hide Reachable, Leads, Enabled, Step, Shared, Reg.Grows;
      ghost var cfg := ConfigOf(op);
      if out.Stopped? {
        InStepGoes(op, m);
        StoringMeans(cfg, m);
        return out.final, m;
      }
      StepVerify(cfg, m);
      n := Step(cfg, Step(cfg, m, Advance), Action.Verify);
      var moved := op.Transition(Verifying);
      var ok := Verify(op.request, out.evidence);
      final := if ok then Succeeded else VerifyFailed;
      if ok {
        evidence := evidence[op.id := out.evidence];
      }
    }

    /** SetResult, then the terminal transition: fail, and the end of succeed. */
    method Conclude(op: Operation, final: OpState, ghost m: Machine) returns (ghost n: Machine)
      requires InStep(op, m) && m.at == Storing(final)
      modifies op`result, op`state
      ensures GoesOn(op, m, n) && n.at == Over && n.chs == m.chs
      ensures op.state == final && Follows(old(op.state), final) && n.evidence == m.evidence
    {
      hide Reachable, Leads, Enabled, Step, Shared, Reg.Grows;
      StepConclude(ConfigOf(op), m);
      op.SetResult(OpResult(op.id, final));
      var moved := op.Transition(final);
      n := Step(ConfigOf(op), Step(ConfigOf(op), m, Store), End);
    }

    /** After the attempt loop: its result is verified, and the operation concluded. */
    method JudgeRun(op: Operation, out: Outcome, ghost m: Machine) returns (ghost n: Machine)
      requires InStep(op, m) && m.at == PlaceOf(out) && op.state == Running
      modifies this`evidence, op`state, op`result
      ensures GoesOn(op, m, n) && n.at == Over && n.chs == m.chs
      ensures Follows(Running, op.state) || Follows(Verifying, op.state)
      ensures evidence == Recorded(old(evidence), op.id, op.state, n)
    {
      hide InStep, Goes, Recovery.Manager.Valid, Reg.Grows, ConfigOf;
      var final;
      final, n := VerifyOutcome(op, out, m);
      ghost var was := n;
      n := Conclude(op, final, n);
      GoesOnTrans(op, m, was, n);
    }

    /** The channel run, the run judged, and the end. */
    method RunPicked(op: Operation, c: ID, ghost m: Machine) returns (ghost n: Machine)
      requires InStep(op, m) && m.at == AtTop(0, c) && op.state == Running && locks.Valid()
      modifies this`evidence, this`stirs, op`state, op`result, op`channel, op`cancelRequested, op`calls, recovery.Footprint(), locks, locks.Repr
      ensures GoesOn(op, m, n) && n.at == Over && Reg.Grows(old(reg.channels), reg.channels)
      ensures locks.Valid() && fresh(locks.Repr - old(locks.Repr)) && L.Lets(old(locks.State()), locks.State(), op.id)
      ensures Under(old(op.calls), op.calls, old(locks.State()), op.id)
      ensures op.state !in {ValidationFailed, ResourceFailed, ResolveFailed} && evidence == Recorded(old(evidence), op.id, op.state, n)
    {
      hide InStep, Goes, Recovery.Manager.Valid, Reg.Grows, ConfigOf, L.Manager.Valid, L.Manager.State, L.Lets, Under;
      var out;
      out, n := RunWithRecovery(op, c, m);
      ghost var was := n;
      n := JudgeRun(op, out, n);
      GoesOnTrans(op, m, was, n);
    }

    /** The channel run, or the failure of there being none. */
    method RunChoice(op: Operation, choice: Option<ID>, ghost m: Machine) returns (ghost n: Machine)
      requires InStep(op, m) && m.at == (if choice.Some? then AtTop(0, choice.value) else Storing(ResolveFailed)) && locks.Valid()
      requires choice.Some? ==> op.state == Running
      modifies this`evidence, this`stirs, op`state, op`result, op`channel, op`cancelRequested, op`calls, recovery.Footprint(), locks, locks.Repr
      ensures GoesOn(op, m, n) && n.at == Over && Reg.Grows(old(reg.channels), reg.channels)
      ensures locks.Valid() && fresh(locks.Repr - old(locks.Repr)) && L.Lets(old(locks.State()), locks.State(), op.id)
      ensures Under(old(op.calls), op.calls, old(locks.State()), op.id)
      ensures op.state !in {ValidationFailed, ResourceFailed} && evidence == Recorded(old(evidence), op.id, op.state, n)
      ensures op.state == ResolveFailed ==> choice.None? && stirs == old(stirs)
    {
      hide InStep, GoesOn, Recovery.Manager.Valid, Reg.Grows, Recorded, L.Manager.Valid, L.Manager.State, L.Lets, Under;
      if choice.None? {
        UnderRefl(op.calls, locks.State(), op.id);
        L.LetsRefl(locks.State(), op.id);
        Scan.GrowsRefl(reg.channels);
        n := Conclude(op, ResolveFailed, m);
        NotRecorded(evidence, op.id, op.state, n);
      } else {
        n := RunPicked(op, choice.value, m);
      }
    }

    /** The resolver asked, some time after the resources were had. */
    method PickSoon(op: Operation, ghost m: Machine) returns (choice: Option<ID>, ghost n: Machine)
      requires InStep(op, m) && m.at == AtResolver && locks.Valid()
      modifies op`state, op`channel, op`cancelRequested, this`stirs, recovery.Footprint(), locks, locks.Repr
      ensures GoesOn(op, m, n) && Reg.Grows(old(reg.channels), reg.channels)
      ensures n.at == if choice.Some? then AtTop(0, choice.value) else Storing(ResolveFailed)
      ensures choice.Some? ==> op.state == Running
      ensures choice.None? ==> NoCandidate(reg.channels, op.request)
      ensures Calm(old(stirs), old(reg.channels), old(reg.devices.Keys))
      ensures locks.Valid() && fresh(locks.Repr - old(locks.Repr)) && L.Lets(old(locks.State()), locks.State(), op.id)
    {
      hide InStep, Goes, Recovery.Manager.Valid, Reg.Grows, Resolver.IsChoice, NoCandidate, L.Manager.Valid, L.Manager.State, L.Lets;
      ghost var was := Meanwhile(op, m);
      choice, n := PickChannel(op, was);
      GoesOnTrans(op, m, was, n);
    }

    /** With its resources held, others at work at the lock table and at the channels: the
        channel is resolved, bound and run, and the result verified. */
    method RunResolved(op: Operation, ghost m: Machine) returns (ghost n: Machine)
      requires InStep(op, m) && m.at == AtResolver && locks.Valid()
      modifies this`evidence, this`stirs, op`state, op`result, op`channel, op`cancelRequested, op`calls, recovery.Footprint(), locks, locks.Repr
      ensures GoesOn(op, m, n) && n.at == Over && Reg.Grows(old(reg.channels), reg.channels)
      ensures locks.Valid() && fresh(locks.Repr - old(locks.Repr)) && L.Lets(old(locks.State()), locks.State(), op.id)
      ensures Under(old(op.calls), op.calls, old(locks.State()), op.id)
      ensures op.state !in {ValidationFailed, ResourceFailed} && evidence == Recorded(old(evidence), op.id, op.state, n)
      ensures Unmet(op, old(stirs), old(reg.channels))
    {
      hide InStep, Goes, Recovery.Manager.Valid, Reg.Grows, ConfigOf, NoCandidate, Recorded, L.Manager.Valid, L.Manager.State, L.Lets, Under;
      ghost var chs, calls, v := reg.channels, op.calls, locks.State();
      UnderRefl(calls, v, op.id);
      var choice; ghost var was;
      choice, was := PickSoon(op, m);
      ghost var mid, w := reg.channels, locks.State();
      n := RunChoice(op, choice, was);
      UnderTrans(calls, calls, op.calls, v, w, op.id);
      L.LetsTrans(v, w, locks.State(), op.id);
      Scan.GrowsTrans(chs, mid, reg.channels);
      GoesOnTrans(op, m, was, n);
    }

    /** So every Invoke made while the leases last is made with the resources held alone. */
    method RunOnChannel(op: Operation, ghost ids: seq<ID>, ghost leases: seq<L.Lease>, ghost granted: L.Table, ghost before: L.Table,
                        ghost until: L.Time, ghost m: Machine)
      returns (ghost n: Machine)
      requires InStep(op, m) && m.at == AtResolver && locks.Valid() && Needs(op, ids)
      requires L.Holding(locks.State(), op.id, ids, leases, granted, before, until)
      modifies this`evidence, this`stirs, op`state, op`result, op`channel, op`cancelRequested, op`calls, recovery.Footprint(), locks, locks.Repr
      ensures GoesOn(op, m, n) && n.at == Over && Reg.Grows(old(reg.channels), reg.channels)
      ensures locks.Valid() && fresh(locks.Repr - old(locks.Repr)) && L.Lets(old(locks.State()), locks.State(), op.id)
      ensures L.Holding(locks.State(), op.id, ids, leases, granted, before, until)
      ensures Secured(old(op.calls), op.calls, op.id, ids, until)
      ensures op.state !in {ValidationFailed, ResourceFailed} && evidence == Recorded(old(evidence), op.id, op.state, n)
      ensures Unmet(op, old(stirs), old(reg.channels))
    {
      hide InStep, GoesOn, Recovery.Manager.Valid, Reg.Grows, Unmet, Recorded, Needs, L.Manager.Valid, L.Manager.State, L.Lets, Under, Secured;
      hide L.Holding;
      ghost var calls, v := op.calls, locks.State();
      n := RunResolved(op, m);
      Secures(calls, op.calls, v, op.id, ids, leases, granted, before, until);
      L.StillHolding(v, locks.State(), op.id, ids, leases, granted, before, until);
    }

    /** The gate, some time after the first transition. */
    method Admit(op: Operation, patience: nat, ghost m: Machine) returns (pass: bool, ids: seq<ID>, ghost n: Machine)
      requires InStep(op, m) && m.at == AtGate && policy.Valid() && resources.Valid() && locks.Valid()
      modifies this`stirs, op`state, op`cancelRequested, recovery.Footprint(), resources, locks, locks.Repr
      ensures GoesOn(op, m, n) && Reg.Grows(old(reg.channels), reg.channels) && resources.Valid()
      ensures n.at == if !pass then Storing(ValidationFailed) else if ids != [] then AtLocks else AtResolver
      ensures locks.Valid() && fresh(locks.Repr - old(locks.Repr)) && L.Lets(old(locks.State()), locks.State(), op.id)
      ensures pass ==> Needs(op, ids) && Entitled(op)
      ensures Precedes(old(SceneOf(op, patience)), SceneOf(op, patience), op.id)
      ensures !pass ==> !(Entitled(op) && op.request.target in old(SceneOf(op, patience)).devices)
    {
      hide Reachable, Leads, Enabled, Step, Recovery.Manager.Valid, Reg.Grows, ConfigOf;
      hide AccessPolicy.Policy.Valid, Resources.ResourceRegistry.Valid, Needs, Entitled, L.Manager.State, L.Lets, L.Manager.Valid;
      ghost var was := Meanwhile(op, m);
      pass, ids, n := PassGate(op, was);
      GoesTrans(ConfigOf(op), m, was, n);
    }

    lemma SceneShows(op: Operation, patience: nat)
      ensures SceneOf(op, patience) == Scene(reg.devices.Keys, reg.channels, stirs, locks.State(), op.calls, lockTTL, patience)
    {
    }

    /** The operation was refused, or needs no resource. */
    method RunUnlocked(op: Operation, pass: bool, patience: nat, ghost m: Machine) returns (ghost n: Machine)
      requires InStep(op, m) && (m.at == if pass then AtResolver else Storing(ValidationFailed)) && (pass ==> Needs(op, [])) && locks.Valid()
      modifies this`evidence, this`stirs, op`state, op`result, op`channel, op`cancelRequested, op`calls, recovery.Footprint(), locks, locks.Repr
      ensures GoesOn(op, m, n) && n.at == Over && Reg.Grows(old(reg.channels), reg.channels)
      ensures locks.Valid() && fresh(locks.Repr - old(locks.Repr)) && L.Restores(old(locks.State()), locks.State(), op.id)
      ensures evidence == Recorded(old(evidence), op.id, op.state, n)
      ensures if pass then Fate(old(SceneOf(op, patience)), op.request, op.id, [], RecordOf(op), stirs, locks.turns)
              else op.state == ValidationFailed && op.calls == old(SceneOf(op, patience)).calls
    {
      hide InStep, GoesOn, Recovery.Manager.Valid, Reg.Grows, Needs, NoCandidate, Recorded, SceneOf, L.Holding;
      hide L.Manager.Valid, L.Manager.State, L.Lets, L.Restores, Secured;
      Scan.GrowsRefl(reg.channels);
      ghost var s, v := SceneOf(op, patience), locks.State();
      L.LetsRefl(v, op.id);
      SceneShows(op, patience);
      if pass {
        ghost var until := s.locks.clock + s.ttl;
        L.HoldingNone(v, op.id, until);
        n := RunOnChannel(op, [], [], map[], v.table, until, m);
      } else {
        n := Conclude(op, ValidationFailed, m);
        NotRecorded(evidence, op.id, op.state, n);
      }
      L.LetsRestores(v, locks.State(), op.id);
    }

    /** AcquireAll, and the transition to RESOLVING if it succeeds. */
    method TakeLocks(op: Operation, ids: seq<ID>, patience: nat, ghost m: Machine)
      returns (leases: Option<seq<L.Lease>>, ghost granted: L.Table, ghost n: Machine)
      requires InStep(op, m) && m.at == AtLocks && locks.Valid() && Needs(op, ids)
      modifies op`state, locks, locks.Repr
      ensures GoesOn(op, m, n) && n.at == if leases.Some? then AtResolver else Storing(ResourceFailed)
      ensures locks.Valid() && fresh(locks.Repr - old(locks.Repr)) && locks.clock >= old(locks.clock) && old(locks.turns) <= locks.turns
      ensures leases.None? ==> L.Restores(old(locks.State()), locks.State(), op.id)
      ensures leases.None? ==> L.Denied(old(locks.turns), locks.turns, op.id, ids, L.Exclusive) || patience < |ids|
      ensures leases.None? ==> !(AtHand(old(SceneOf(op, patience)), ids) && L.Alone(old(locks.turns), locks.turns, op.id))
      ensures leases.Some? ==>
                L.Holding(locks.State(), op.id, ids, leases.value, granted, old(locks.Table()), old(locks.clock) + lockTTL)
    {
      hide Reachable, Leads, Enabled, Step, Recovery.Manager.Valid, Reg.Grows, L.Manager.Valid, L.Untouched, L.Manager.Table;
      hide L.Granted, L.InPlace, L.Sticks, L.LastEnds, L.Free, L.NoRepeats, L.Denied, L.Alone, Needs;
      var left;
      leases, left, granted := locks.AcquireAll(op.id, ids, L.Exclusive, lockTTL, patience);
      StepLock(ConfigOf(op), m, leases.Some?);
      n := Step(ConfigOf(op), m, Lock(leases.Some?));
      if leases.Some? {
        var moved := op.Transition(OpState.Resolving);
      }
    }

    /** Others at work once more at the lock table; then the operation's leases go back. */
    method GiveBack(op: Operation, leases: seq<L.Lease>, ghost ids: seq<ID>, ghost granted: L.Table, ghost before: L.Table, ghost until: L.Time)
      requires locks.Valid() && L.Holding(locks.State(), op.id, ids, leases, granted, before, until)
      modifies locks, locks.Repr
      ensures locks.Valid() && fresh(locks.Repr - old(locks.Repr)) && locks.clock >= old(locks.clock) && old(locks.turns) <= locks.turns
      ensures L.Untouched(before, locks.Table(), op.id, locks.clock)
    {
      hide L.Manager.Valid, L.Untouched, L.Manager.Table, L.InPlace, L.Granted, L.Lasting;
      ghost var v := locks.State();
      locks.Others(op.id);
      L.StillHolding(v, locks.State(), op.id, ids, leases, granted, before, until);
      L.LetsRestores(v, locks.State(), op.id);
      L.GrantedIds(leases, granted, ids, op.id, L.Exclusive);
      L.UntouchedByRollback(before, granted, locks.Table(), op.id, locks.clock);
      locks.ReleaseAll(leases);
    }

    /** The run with its leases granted since s, at the end of which they go back. */
    method RunHeld(op: Operation, ids: seq<ID>, leases: seq<L.Lease>, ghost s: Scene, ghost granted: L.Table, ghost m: Machine)
      returns (ghost n: Machine)
      requires InStep(op, m) && m.at == AtResolver && locks.Valid()
      requires Needs(op, ids) && L.Holding(locks.State(), op.id, ids, leases, granted, s.locks.table, s.locks.clock + s.ttl)
      requires s.locks.clock <= locks.clock && s.locks.turns <= locks.turns
      requires op.calls == s.calls && stirs == s.stirs && reg.channels == s.chs
      modifies this`evidence, this`stirs, op`state, op`result, op`channel, op`cancelRequested, op`calls, recovery.Footprint(), locks, locks.Repr
      ensures GoesOn(op, m, n) && n.at == Over && Reg.Grows(old(reg.channels), reg.channels)
      ensures locks.Valid() && fresh(locks.Repr - old(locks.Repr)) && L.Restores(s.locks, locks.State(), op.id)
      ensures evidence == Recorded(old(evidence), op.id, op.state, n)
      ensures Fate(s, op.request, op.id, ids, RecordOf(op), stirs, locks.turns)
    {
      hide InStep, GoesOn, Recovery.Manager.Valid, Reg.Grows, L.Manager.Valid, L.Untouched, L.Manager.Table;
      hide L.Holding, Needs, NoCandidate, Recorded, Secured, L.OnlyOthers, L.Sticks;
      ghost var until, v := s.locks.clock + s.ttl, locks.State();
      n := RunOnChannel(op, ids, leases, granted, s.locks.table, until, m);
      L.LetsRestores(v, locks.State(), op.id);
      GiveBack(op, leases, ids, granted, s.locks.table, until);
    }

    /** The part of Execute that needs resources: all of them, exclusively, or none;
        released on every way out. */
    method RunLocked(op: Operation, ids: seq<ID>, patience: nat, ghost m: Machine) returns (ghost n: Machine)
      requires InStep(op, m) && m.at == AtLocks && locks.Valid() && Needs(op, ids)
      modifies this`evidence, this`stirs, op`state, op`result, op`channel, op`cancelRequested, op`calls, recovery.Footprint(), locks, locks.Repr
      ensures GoesOn(op, m, n) && n.at == Over && Reg.Grows(old(reg.channels), reg.channels)
      ensures locks.Valid() && fresh(locks.Repr - old(locks.Repr)) && L.Restores(old(locks.State()), locks.State(), op.id)
      ensures evidence == Recorded(old(evidence), op.id, op.state, n)
      ensures Fate(old(SceneOf(op, patience)), op.request, op.id, ids, RecordOf(op), stirs, locks.turns)
    {
      hide InStep, Goes, Recovery.Manager.Valid, Reg.Grows, ConfigOf, L.Manager.Valid, L.Manager.Table;
      hide L.Restores, L.Holding, Needs, NoCandidate, Recorded, L.Denied, L.Alone, AtHand;
      ghost var s := SceneOf(op, patience);
      var leases; ghost var granted;
      leases, granted, n := TakeLocks(op, ids, patience, m);
      ghost var was := n;
      if leases.None? {
        Scan.GrowsRefl(reg.channels);
        n := Conclude(op, ResourceFailed, n);
        NotRecorded(evidence, op.id, op.state, n);
      } else {
        n := RunHeld(op, ids, leases.value, s, granted, n);
      }
      GoesOnTrans(op, m, was, n);
    }

    /** How the operation ended is justified by how things stood when it began: the gate
        refused it exactly for its reasons, or its fate was the one past the gate. */
    ghost predicate Justified(op: Operation, s: Scene)
      reads op, policy, approval, resources, this`stirs, locks`turns
    {
      && (Entitled(op) && op.request.target in s.devices ==> op.state != ValidationFailed)
      && (!Entitled(op) ==> op.state == ValidationFailed)
      && (op.state == ValidationFailed ==> op.calls == s.calls)
      && (op.state != ValidationFailed ==>
            exists ids :: Needs(op, ids) && Fate(s, op.request, op.id, ids, RecordOf(op), stirs, locks.turns))
    }

    /** The capability is known and was granted to the session's principal, or to "anonymous",
        for the target or for all devices; and its risk is low or medium, or it was approved
        beforehand, or the operation is. */
    ghost predicate May(op: Operation)
      reads policy, approval
    {
      var r := op.request;
      var who := if r.session == "" || r.session !in sessions then "anonymous" else sessions[r.session];
      && r.capability in catalog
      && (AccessPolicy.GrantScope(who, r.capability, "*") in policy.history ||
          AccessPolicy.GrantScope(who, r.capability, r.target) in policy.history)
      && (catalog[r.capability].risk in {AccessPolicy.Low, AccessPolicy.Medium} ||
          AccessPolicy.PreApprove(who, r.capability) in policy.history || op.id in approval.approvals)
    }

    /** What the gate lets pass. */
    lemma GateTells(op: Operation, s: Scene)
      requires Justified(op, s)
      ensures !May(op) ==> op.state == ValidationFailed && op.calls == s.calls
      ensures May(op) && op.request.target in s.devices ==> op.state != ValidationFailed
    {
      var r := op.request;
      if r.capability in catalog {
        AccessPolicy.EntitledMeans(policy.history, Principal(r), r.capability, r.target, catalog[r.capability].risk);
      }
      hide Fate, Needs, AccessPolicy.Entitled;
    }

    lemma JustifiedBy(op: Operation, s: Scene, u: Scene, ids: seq<ID>)
      requires Needs(op, ids) && Entitled(op) && Fate(u, op.request, op.id, ids, RecordOf(op), stirs, locks.turns)
      requires Precedes(s, u, op.id) && u.locks.turns <= locks.turns
      ensures Justified(op, s)
    {
      FateEarlier(s, u, op.request, op.id, ids, RecordOf(op), stirs, locks.turns);
    }

    lemma RefusedFor(op: Operation, s: Scene, u: Scene)
      requires op.state == ValidationFailed && op.calls == u.calls && Precedes(s, u, op.id)
      requires !(Entitled(op) && op.request.target in s.devices)
      ensures Justified(op, s)
    {
    }

    /** Execute past the gate, or refused by it. */
    method RunPast(op: Operation, pass: bool, ids: seq<ID>, patience: nat, ghost m: Machine) returns (ghost n: Machine)
      requires InStep(op, m) && locks.Valid() && (pass ==> Needs(op, ids))
      requires m.at == if !pass then Storing(ValidationFailed) else if ids != [] then AtLocks else AtResolver
      modifies this`evidence, this`stirs, op`state, op`result, op`channel, op`cancelRequested, op`calls, recovery.Footprint(), locks, locks.Repr
      ensures GoesOn(op, m, n) && n.at == Over && Reg.Grows(old(reg.channels), reg.channels)
      ensures locks.Valid() && fresh(locks.Repr - old(locks.Repr)) && L.Restores(old(locks.State()), locks.State(), op.id)
      ensures evidence == Recorded(old(evidence), op.id, op.state, n)
      ensures if pass then Fate(old(SceneOf(op, patience)), op.request, op.id, ids, RecordOf(op), stirs, locks.turns)
              else op.state == ValidationFailed && op.calls == old(SceneOf(op, patience)).calls
    {
      hide InStep, GoesOn, Recovery.Manager.Valid, Reg.Grows, L.Manager.Valid, L.Restores, L.Manager.State;
      hide Needs, Fate, SceneOf, Recorded, RecordOf;
      if pass && ids != [] {
        n := RunLocked(op, ids, patience, m);
      } else {
        n := RunUnlocked(op, pass, patience, m);
      }
    }

    /** The same, judged from an earlier scene s. */
    method RunJudged(op: Operation, pass: bool, ids: seq<ID>, patience: nat, ghost s: Scene, ghost m: Machine) returns (ghost n: Machine)
      requires InStep(op, m) && locks.Valid() && (pass ==> Needs(op, ids) && Entitled(op))
      requires m.at == if !pass then Storing(ValidationFailed) else if ids != [] then AtLocks else AtResolver
      requires Precedes(s, SceneOf(op, patience), op.id) && (!pass ==> !(Entitled(op) && op.request.target in s.devices))
      modifies this`evidence, this`stirs, op`state, op`result, op`channel, op`cancelRequested, op`calls, recovery.Footprint(), locks, locks.Repr
      ensures GoesOn(op, m, n) && n.at == Over && Reg.Grows(old(reg.channels), reg.channels)
      ensures locks.Valid() && fresh(locks.Repr - old(locks.Repr)) && L.Restores(old(locks.State()), locks.State(), op.id)
      ensures evidence == Recorded(old(evidence), op.id, op.state, n) && Justified(op, s)
    {
      hide InStep, GoesOn, Recovery.Manager.Valid, Reg.Grows, L.Manager.Valid, L.Untouched;
      hide Needs, Fate, Recorded, RecordOf, Entitled, Justified, Precedes;
      ghost var u := SceneOf(op, patience);
      n := RunPast(op, pass, ids, patience, m);
      if pass { JustifiedBy(op, s, u, ids); } else { RefusedFor(op, s, u); }
    }

    /** Execute past its first transition. Whatever way it ends, it is justified by how
        things stood, and the operation holds no lease that it did not hold before. */
    method RunOperation(op: Operation, patience: nat, ghost m: Machine) returns (ghost n: Machine)
      requires InStep(op, m) && m.at == AtGate && policy.Valid() && resources.Valid() && locks.Valid()
      modifies this`evidence, this`stirs, op`state, op`result, op`channel, op`cancelRequested, op`calls,
               recovery.Footprint(), resources, locks, locks.Repr
      ensures GoesOn(op, m, n) && n.at == Over && Reg.Grows(old(reg.channels), reg.channels) && resources.Valid()
      ensures locks.Valid() && fresh(locks.Repr - old(locks.Repr)) && L.Restores(old(locks.State()), locks.State(), op.id)
      ensures evidence == Recorded(old(evidence), op.id, op.state, n)
      ensures Justified(op, old(SceneOf(op, patience)))
    {
      hide InStep, Goes, Recovery.Manager.Valid, Reg.Grows, ConfigOf, L.Manager.Valid, L.Lets, L.Restores, L.Manager.State;
      hide AccessPolicy.Policy.Valid, Resources.ResourceRegistry.Valid, Needs, Entitled, SceneOf, Recorded, Justified, Precedes;
      ghost var s, chs, v := SceneOf(op, patience), reg.channels, locks.State();
      var pass, ids;
      pass, ids, n := Admit(op, patience, m);
      ghost var mid, was, w := reg.channels, n, locks.State();
      L.LetsRestores(v, w, op.id);
      n := RunJudged(op, pass, ids, patience, s, n);
      L.RestoresTrans(v, w, locks.State(), op.id);
      Scan.GrowsTrans(chs, mid, reg.channels);
      GoesOnTrans(op, m, was, n);
    }

    // ---- The engine's interface ----

    lemma TrackedMore(ops: map<ID, Operation>, recs: map<ID, Record>, rs: map<ID, Machine>, op: Operation, rec: Record, m: Machine, chs: Channels)
      requires TrackedAs(ops, recs, rs, chs) && Shows(rec, ConfigOf(op), m) && Reg.Grows(m.chs, chs)
      ensures TrackedAs(ops[op.id := op], recs[op.id := rec], rs[op.id := m], chs)
    {
      hide Shows, Reg.Grows, ConfigOf;
    }

    lemma InStepShows(op: Operation, m: Machine)
      requires InStep(op, m)
      ensures Shows(RecordOf(op), ConfigOf(op), m) && Reg.Grows(m.chs, reg.channels) && Shared()
    {
    }

    lemma OneMoreTracked(ops: map<ID, Operation>, rs: map<ID, Machine>, op: Operation, m: Machine)
      requires Tracked(ops, rs) && InStep(op, m)
      ensures Tracked(ops[op.id := op], rs[op.id := m])
      ensures Records(ops[op.id := op]) == Records(ops)[op.id := RecordOf(op)]
    {
      var recs := Records(ops);
      InStepShows(op, m);
      assert Records(ops[op.id := op]) == recs[op.id := RecordOf(op)];
      hide Records, RecordOf, InStep, Shows, Reg.Grows;
      TrackedMore(ops, recs, rs, op, RecordOf(op), m, reg.channels);
    }

    lemma KeyedMore(keys: map<string, ID>, ops: map<ID, Operation>, op: Operation)
      requires Keyed(keys, ops) && op.id !in ops
      ensures Keyed(keys, ops[op.id := op])
      ensures op.request.idempotencyKey != "" ==> Keyed(keys[op.request.idempotencyKey := op.id], ops[op.id := op])
    {
    }

    lemma Starts(op: Operation, m: Machine)
      requires Shared() && m == Lifecycle.Fresh(reg.channels)
      requires op.state == OpState.Created && op.result == None && !op.cancelRequested && op.calls == []
      ensures InStep(op, m)
    {
      StartsReachable(ConfigOf(op), reg.channels);
      Scan.GrowsRefl(reg.channels);
    }

    lemma RecordState(op: Operation)
      ensures RecordOf(op).state == op.state
    {
    }

    method Register(r: Request) returns (op: Operation)
      requires Valid() && r.idempotencyKey !in idempotency
      modifies this`operations, this`idempotency, this`runs
      ensures Valid() && op.id !in old(operations) && fresh(op) && op.request == r && op.state == OpState.Created
      ensures operations == old(operations)[op.id := op] && runs == old(runs)[op.id := Lifecycle.Fresh(reg.channels)]
      ensures idempotency == if r.idempotencyKey != "" then old(idempotency)[r.idempotencyKey := op.id] else old(idempotency)
    {
      hide Recovery.Manager.Valid, L.Manager.Valid, Resources.ResourceRegistry.Valid, AccessPolicy.Policy.Valid;
      hide Tracked, Keyed, InStep, Records, RecordOf, Filed, ConfigOf;
      var id := Identifiers.NewID("op-", operations.Keys);
      op := new Operation(id, r);
      ghost var m := Lifecycle.Fresh(reg.channels);
      Starts(op, m);
      OneMoreTracked(operations, runs, op, m);
      RecordState(op);
      FiledMore(Records(operations), runs, evidence, id, RecordOf(op), m);
      KeyedMore(idempotency, operations, op);
      operations, runs := operations[id := op], runs[id := m];
      if r.idempotencyKey != "" {
        idempotency := idempotency[r.idempotencyKey := id];
      }
    }

    /** A record for this request, at the start of its lifecycle. */
    ghost predicate Created(id: ID, r: Request)
      reads this, operations.Values
    {
      id in operations && id in runs && operations[id].request == r && operations[id].state == OpState.Created && runs[id].at == Idle
    }

    /** Create. A request without capability or target is refused; a key seen before
        gives the operation it gave then, and nothing changes. */
    method Create(r: Request) returns (id: Option<ID>)
      requires Valid()
      modifies this`operations, this`idempotency, this`runs
      ensures Valid()
      ensures id.None? <==> r.capability == "" || r.target == ""
      ensures id.None? || (r.idempotencyKey != "" && r.idempotencyKey in old(idempotency)) ==>
                operations == old(operations) && idempotency == old(idempotency) && runs == old(runs)
      ensures id.Some? && r.idempotencyKey != "" ==> r.idempotencyKey in idempotency && id.value == idempotency[r.idempotencyKey]
      ensures id.Some? && r.idempotencyKey !in old(idempotency) ==> id.value !in old(operations) && Created(id.value, r)
      ensures id.Some? ==> id.value in operations && forall o :: o in old(operations) ==> o in operations && operations[o] == old(operations)[o]
    {
      hide Recovery.Manager.Valid, L.Manager.Valid, Resources.ResourceRegistry.Valid, AccessPolicy.Policy.Valid, Tracked, InStep, Filed, Records;
      id := None;
      if r.capability == "" || r.target == "" {
        return;
      }
      var key := r.idempotencyKey;
      if key != "" && key in idempotency {
        return Some(idempotency[key]);
      }
      var op := Register(r);
      id := Some(op.id);
    }

    /** A lifecycle that moved on, over channels that grew, leaves the others tracked. */
    lemma StillTracked(ops: map<ID, Operation>, recs: map<ID, Record>, rs: map<ID, Machine>, chs: Channels,
                       rec: Record, id: ID, n: Machine, chs': Channels)
      requires TrackedAs(ops, recs, rs, chs) && Reg.Grows(chs, chs') && id in ops
      requires Shows(rec, ConfigOf(ops[id]), n) && Reg.Grows(n.chs, chs')
      ensures TrackedAs(ops, recs[id := rec], rs[id := n], chs')
    {
      hide Reachable, Shows, Reg.Grows, ConfigOf;
      forall o | o in ops && o != id ensures Reg.Grows(rs[o].chs, chs') {
        Scan.GrowsTrans(rs[o].chs, chs, chs');
      }
    }

    lemma RecordAt(ops: map<ID, Operation>, id: ID)
      ensures id in ops ==> id in Records(ops) && Records(ops)[id] == RecordOf(ops[id])
    {
    }

    lemma TrackedAt(ops: map<ID, Operation>, rs: map<ID, Machine>, id: ID)
      requires Tracked(ops, rs) && Shared()
      ensures ops.Keys == rs.Keys && (id in ops ==> ops[id].id == id && InStep(ops[id], rs[id]))
      ensures forall o :: o in ops ==> ops[o].id == o
    {
    }

    /** Every operation other than id is where it was. */
    twostate predicate OnlyRan(id: ID)
      reads this
    {
      operations == old(operations) && runs.Keys == old(runs).Keys && forall o :: o in runs && o != id ==> runs[o] == old(runs)[o]
    }

    /** The first transition: it fails exactly when the operation is over. */
    method Begin(op: Operation, ghost m: Machine) returns (started: bool, ghost n: Machine)
      requires InStep(op, m) && (m.at == Idle || m.at == Over)
      modifies op`state
      ensures GoesOn(op, m, n) && n.at == (if started then AtGate else Over) && (!started ==> n == m)
      ensures started <==> m.at == Idle
      ensures !started ==> op.state == old(op.state)
    {
      hide Step, Enabled, Reachable, Shared, Reg.Grows;
      ghost var cfg := ConfigOf(op);
      InStepGoes(op, m);
      if m.at == Idle { StepEnter(cfg, m); } else { OverMeans(cfg, m); }
      started := op.Transition(Validating);
      n := if started then Step(cfg, m, Enter) else m;
    }

    /** Execute's body: the first transition and, if that succeeds, the rest. */
    method Carry(op: Operation, patience: nat, ghost m: Machine) returns (started: bool, ghost n: Machine)
      requires InStep(op, m) && (m.at == Idle || m.at == Over) && policy.Valid() && resources.Valid() && locks.Valid()
      modifies this`evidence, this`stirs, op, recovery.Footprint(), resources, locks, locks.Repr
      ensures GoesOn(op, m, n) && n.at == Over && Reg.Grows(old(reg.channels), reg.channels)
      ensures started <==> m.at == Idle
      ensures !started ==> n == m && reg.channels == old(reg.channels)
      ensures resources.Valid() && locks.Valid() && fresh(locks.Repr - old(locks.Repr))
      ensures L.Restores(old(locks.State()), locks.State(), op.id)
      ensures if started then Justified(op, old(SceneOf(op, patience))) && evidence == Recorded(old(evidence), op.id, op.state, n)
              else evidence == old(evidence) && RecordOf(op) == old(RecordOf(op))
    {
      hide Recovery.Manager.Valid, L.Manager.Valid, Resources.ResourceRegistry.Valid, AccessPolicy.Policy.Valid, Reg.Grows;
      hide InStep, Goes, L.Restores, L.Lets, L.Manager.State, Justified, Recorded;
      L.LetsRefl(locks.State(), op.id);
      L.LetsRestores(locks.State(), locks.State(), op.id);
      Scan.GrowsRefl(reg.channels);
      started, n := Begin(op, m);
      if started {
        ghost var was := n;
        n := RunOperation(op, patience, n);
        GoesOnTrans(op, m, was, n);
      }
    }

    lemma OverShown(op: Operation, m: Machine)
      requires InStep(op, m) && m.at == Over
      ensures IsTerminal(op.state) && op.result == Some(OpResult(op.id, op.state))
    {
      OverMeans(ConfigOf(op), m);
    }

    /** Carry, among other operations: their records stay as they are. */
    method CarryAmong(op: Operation, ghost ops: map<ID, Operation>, patience: nat, ghost m: Machine)
      returns (started: bool, ghost n: Machine)
      requires InStep(op, m) && (m.at == Idle || m.at == Over) && policy.Valid() && resources.Valid() && locks.Valid()
      requires op.id in ops && ops[op.id] == op && forall o :: o in ops ==> ops[o].id == o
      modifies this`evidence, this`stirs, op, recovery.Footprint(), resources, locks, locks.Repr
      ensures GoesOn(op, m, n) && n.at == Over && Reg.Grows(old(reg.channels), reg.channels)
      ensures Records(ops) == old(Records(ops))[op.id := RecordOf(op)]
      ensures started <==> m.at == Idle
      ensures !started ==> n == m && reg.channels == old(reg.channels)
      ensures resources.Valid() && locks.Valid()
      ensures L.Restores(old(locks.State()), locks.State(), op.id)
      ensures if started then Justified(op, old(SceneOf(op, patience))) && evidence == Recorded(old(evidence), op.id, op.state, n)
              else evidence == old(evidence) && RecordOf(op) == old(RecordOf(op))
    {
      hide Recovery.Manager.Valid, L.Manager.Valid, Resources.ResourceRegistry.Valid, AccessPolicy.Policy.Valid, Reg.Grows;
      hide InStep, GoesOn, ConfigOf, L.Restores, L.Manager.State, Justified, Recorded, SceneOf;
      ghost var recs := Records(ops);
      started, n := Carry(op, patience, m);
      forall o | o in ops && o != op.id ensures RecordOf(ops[o]) == recs[o] {
        ghost var p := ops[o];
        assert p != op && unchanged(p);
      }
      OneRecordChanged(ops, recs, op);
    }

    /** Carry, for one of the engine's operations: the others are where they were. */
    method CarryTracked(op: Operation, patience: nat) returns (started: bool, ghost n: Machine)
      requires Valid() && op.id in operations && operations[op.id] == op && op.id in runs && (runs[op.id].at == Idle || runs[op.id].at == Over)
      modifies this`evidence, this`stirs, op, recovery.Footprint(), resources, locks, locks.Repr
      ensures Tracked(old(operations), old(runs)[op.id := n]) && Shared() && GoesOn(op, old(runs)[op.id], n) && n.at == Over
      ensures started <==> old(runs)[op.id].at == Idle
      ensures !started ==> n == old(runs)[op.id] && reg.channels == old(reg.channels)
      ensures resources.Valid() && locks.Valid()
      ensures L.Restores(old(locks.State()), locks.State(), op.id)
      ensures old(runs)[op.id].at == Idle ==> Justified(op, old(SceneOf(op, patience)))
      ensures Filed(Records(old(operations)), old(runs)[op.id := n], evidence)
      ensures evidence == if started then Recorded(old(evidence), op.id, op.state, n) else old(evidence)
    {
      hide Recovery.Manager.Valid, L.Manager.Valid, Resources.ResourceRegistry.Valid, AccessPolicy.Policy.Valid, Reg.Grows;
      hide TrackedAs, Keyed, InStep, Shows, IsTerminal, RecordOf, L.Restores, L.Manager.State, Filed, Justified, SceneOf, Recorded;
      ghost var id, ops, rs, recs, chs := op.id, operations, runs, Records(operations), reg.channels;
      ghost var ev := evidence;
      RecordAt(ops, id);
      TrackedAt(ops, rs, id);
      hide Records;
      started, n := CarryAmong(op, ops, patience, rs[id]);
      InStepShows(op, n);
      StillTracked(ops, recs, rs, chs, RecordOf(op), id, n, reg.channels);
      RecordState(op);
      if started { FiledRan(recs, rs, ev, id, RecordOf(op), n); } else { FiledAgain(recs, rs, ev, id); }
    }

    method ExecuteKnown(op: Operation, patience: nat) returns (r: Option<OpResult>, ok: bool)
      requires Valid() && op.id in operations && operations[op.id] == op && op.id in runs && (runs[op.id].at == Idle || runs[op.id].at == Over)
      modifies this`runs, this`evidence, this`stirs, op, recovery.Footprint(), resources, locks, locks.Repr
      ensures Valid() && OnlyRan(op.id)
      ensures runs[op.id].at == Over && IsTerminal(op.state) && r == Some(OpResult(op.id, op.state))
      ensures Goes(ConfigOf(op), old(runs)[op.id], runs[op.id])
      ensures old(runs)[op.id].at == Over ==> runs == old(runs) && reg.channels == old(reg.channels)
      ensures ok <==> old(runs)[op.id].at == Idle && op.state == Succeeded
      ensures L.Restores(old(locks.State()), locks.State(), op.id)
      ensures old(runs)[op.id].at == Idle ==> Justified(op, old(SceneOf(op, patience)))
      ensures evidence == if old(runs)[op.id].at == Idle then Recorded(old(evidence), op.id, op.state, runs[op.id]) else old(evidence)
    {
      hide Recovery.Manager.Valid, L.Manager.Valid, Resources.ResourceRegistry.Valid, AccessPolicy.Policy.Valid, Reg.Grows;
      hide Tracked, Keyed, InStep, Goes, ConfigOf, IsTerminal, L.Restores, L.Manager.State, Records, Filed, Justified, SceneOf, Recorded;
      var started; ghost var n;
      started, n := CarryTracked(op, patience);
      runs := runs[op.id := n];
      OverShown(op, n);
      r, ok := op.result, started && op.state == Succeeded;
    }

    /** So of every operation, at any time: its states advance to at most one terminal
        one, which comes with its result; the calls made for it are governed, as many as
        allowed and none after an observed mismatch. Neither success nor failure is
        fabricated: over, it is SUCCEEDED or VERIFY_FAILED exactly if the last call proves
        it, and the evidence stored for a success is what that call came back with and
        names no other version than the one requested; UNKNOWN exactly if the run ended on
        an observation that leaves the outcome open; RUN_FAILED if the channel did not open,
        the observation failed or its device answers and was not being flashed, and else
        only between attempts, for want of a plugin. */
    lemma EveryOperation(id: ID)
      requires Valid() && id in operations
      ensures id in runs && var rec, cfg, m := RecordOf(operations[id]), ConfigOf(operations[id]), runs[id];
              && rec.calls == CallsOf(m.log) && rec.state == m.state
              && States(m.log)[|States(m.log)| - 1] == rec.state && Linked(States(m.log))
              && (IsTerminal(rec.state) ==> rec.result == Some(OpResult(id, rec.state)))
              && Disciplined(cfg, m.log) && LateInvokes(m.log) <= 1
              && InvokesIn(rec.calls) <= maxRetries + 1 && RecoversIn(rec.calls) <= maxRetries
              && Aimed(cfg, rec.calls) && NoneAfterMismatch(cfg, rec.calls)
      ensures var rec, cfg, m := RecordOf(operations[id]), ConfigOf(operations[id]), runs[id];
              && (IsTerminal(rec.state) ==> (rec.state in {Succeeded, VerifyFailed} <==> ProvenBy(cfg, rec.calls)))
              && (rec.state == Succeeded ==> id in evidence && BackedBy(cfg, rec.calls, evidence[id]) && Verified(cfg.request, evidence[id]))
              && (rec.state == VerifyFailed ==> BackedBy(cfg, rec.calls, m.evidence) && !Verified(cfg.request, m.evidence))
              && (IsTerminal(rec.state) ==> (rec.state == ValidationFailed <==> !Passed(m.log)))
              && (rec.state == ResolveFailed ==> FoundNone(cfg, m.log))
              && (rec.state == Cancelled ==> rec.cancel)
              && (rec.state == Cancelled ==> BetweenAttempts(rec.calls))
              && (rec.state in {ValidationFailed, ResourceFailed, ResolveFailed} ==> rec.calls == [])
      ensures var rec, cfg := RecordOf(operations[id]), ConfigOf(operations[id]);
              && (IsTerminal(rec.state) ==> (rec.state == Unknown <==> Undecided(cfg, rec.calls)))
              && (IsTerminal(rec.state) && BrokeOff(cfg, rec.calls) ==> rec.state == RunFailed)
              && (rec.state == RunFailed ==> BrokeOff(cfg, rec.calls) || (BetweenAttempts(rec.calls) && LacksPlugin(cfg, reg.channels)))
              && (IsTerminal(rec.state) && EndsOpen(cfg, rec.calls) ==> RecoversIn(rec.calls) == maxRetries)
    {
      hide Recovery.Manager.Valid, L.Manager.Valid, Resources.ResourceRegistry.Valid, AccessPolicy.Policy.Valid, Reg.Grows;
      hide Reachable, Keyed, Disciplined, WellAimed, Proven, Verified, Linked, States, CallsOf, LateInvokes, Invokes, Recovers;
      hide Aimed, NoneAfterMismatch, ProvenBy, InvokesIn, RecoversIn, LacksPlugin, SawMismatch, Passed, FoundNone, Backed, BackedBy, HasFlag;
      TrackedAt(operations, runs, id);
      RecordAt(operations, id);
      FiledAt(Records(operations), runs, evidence, id);
      hide *;
      RecordTells(RecordOf(operations[id]), ConfigOf(operations[id]), runs[id], reg.channels);
    }

    /** How the calls of an operation that is over tell its state. */
    ghost predicate Ended(op: Operation)
      reads op, reg
    {
      var cfg := ConfigOf(op);
      && (op.state in {Succeeded, VerifyFailed} <==> ProvenBy(cfg, op.calls))
      && (op.state == Unknown <==> Undecided(cfg, op.calls))
      && (BrokeOff(cfg, op.calls) ==> op.state == RunFailed)
      && (op.state == RunFailed ==> BrokeOff(cfg, op.calls) || (BetweenAttempts(op.calls) && LacksPlugin(cfg, reg.channels)))
      && (EndsOpen(cfg, op.calls) ==> RecoversIn(op.calls) == maxRetries)
    }

    lemma EndTells(id: ID)
      requires Valid() && id in operations && IsTerminal(operations[id].state)
      ensures Ended(operations[id])
      ensures operations[id].state == ValidationFailed ==> operations[id].calls == []
    {
      hide Valid, ConfigOf, ProvenBy, Undecided, BrokeOff, BetweenAttempts, EndsOpen, LacksPlugin, BackedBy, Verified;
      hide Disciplined, Aimed, NoneAfterMismatch;
      hide LateInvokes, InvokesIn, RecoversIn, Linked, States, FoundNone, Passed, CallsOf;
      EveryOperation(id);
    }

    method ExecuteTold(op: Operation, patience: nat) returns (r: Option<OpResult>, ok: bool)
      requires Valid() && op.id in operations && operations[op.id] == op && op.id in runs && (runs[op.id].at == Idle || runs[op.id].at == Over)
      modifies this`runs, this`evidence, this`stirs, op, recovery.Footprint(), resources, locks, locks.Repr
      ensures Valid() && OnlyRan(op.id)
      ensures runs[op.id].at == Over && IsTerminal(op.state) && r == Some(OpResult(op.id, op.state))
      ensures Goes(ConfigOf(op), old(runs)[op.id], runs[op.id])
      ensures old(runs)[op.id].at == Over ==> runs == old(runs) && reg.channels == old(reg.channels)
      ensures ok <==> old(runs)[op.id].at == Idle && op.state == Succeeded
      ensures L.Restores(old(locks.State()), locks.State(), op.id)
      ensures old(runs)[op.id].at == Idle ==> Justified(op, old(SceneOf(op, patience)))
      ensures evidence == if old(runs)[op.id].at == Idle then Recorded(old(evidence), op.id, op.state, runs[op.id]) else old(evidence)
      ensures Ended(op)
      ensures old(runs)[op.id].at == Idle ==>
                && (!May(op) ==> op.state == ValidationFailed && op.calls == [])
                && (May(op) && op.request.target in old(reg.devices) ==> op.state != ValidationFailed)
    {
      hide Valid, Goes, ConfigOf, IsTerminal, L.Restores, L.Manager.State, Justified, SceneOf, Recorded, May, Ended;
      ghost var first, s := runs[op.id].at == Idle, SceneOf(op, patience);
      SceneShows(op, patience);
      r, ok := ExecuteKnown(op, patience);
      EndTells(op.id);
      if first { GateTells(op, s); }
    }

    /** Execute, one at a time for an operation. A first Execute takes the lifecycle to
        its end; one after that makes no call and changes nothing. */
    method Execute(id: ID, patience: nat) returns (r: Option<OpResult>, ok: bool)
      requires Valid() && (id in runs ==> runs[id].at == Idle || runs[id].at == Over)
      modifies this`runs, this`evidence, this`stirs, (if id in operations then {operations[id]} else {}),
               recovery.Footprint(), resources, locks, locks.Repr
      ensures Valid() && OnlyRan(id)
      ensures id in operations ==> runs[id].at == Over && IsTerminal(operations[id].state) && r == Some(OpResult(id, operations[id].state))
      ensures id in operations ==> Goes(ConfigOf(operations[id]), old(runs)[id], runs[id])
      ensures id in operations && old(runs)[id].at == Over ==> runs == old(runs) && reg.channels == old(reg.channels)
      ensures ok <==> id in operations && old(runs)[id].at == Idle && operations[id].state == Succeeded
      ensures id !in operations ==> r.None?
      ensures L.Restores(old(locks.State()), locks.State(), id)
      ensures id in operations && old(runs)[id].at == Idle ==> Justified(operations[id], old(SceneOf(operations[id], patience)))
      ensures evidence == if id in operations && old(runs)[id].at == Idle then Recorded(old(evidence), id, operations[id].state, runs[id])
                          else old(evidence)
      ensures id in operations && old(runs)[id].at == Idle ==>
                && (!May(operations[id]) ==> operations[id].state == ValidationFailed && operations[id].calls == [])
                && (May(operations[id]) && operations[id].request.target in old(reg.devices) ==> operations[id].state != ValidationFailed)
      ensures id in operations ==> Ended(operations[id])
    {
      hide Recovery.Manager.Valid, L.Manager.Valid, Resources.ResourceRegistry.Valid, AccessPolicy.Policy.Valid;
      hide May, Ended, ConfigOf, Goes;
      hide Tracked, Keyed, InStep, L.Restores, L.Manager.State, Records, Filed, Justified, SceneOf, Recorded;
      if id !in operations {
        L.LetsRefl(locks.State(), id);
        L.LetsRestores(locks.State(), locks.State(), id);
        return None, false;
      }
      TrackedAt(operations, runs, id);
      r, ok := ExecuteTold(operations[id], patience);
    }

    /** The plugin of the operation's channel is there and takes cancel notices. */
    predicate TakesNotice(channel: Option<ID>)
      reads reg
    {
      channel.Some? && channel.value in reg.channels && reg.channels[channel.value].plugin in plugins * cancellers
    }

    ghost function Notice(channel: Option<ID>): seq<ID>
      reads reg
    {
      if TakesNotice(channel) then [channel.value] else []
    }

    /** The lifecycle with the flag up. */
    ghost function Flag(m: Machine): Machine {
      m.(cancel := true, log := Then(m.log, Flagged))
    }

    /** canceller.Cancel, on the channel the operation is bound to. */
    method Notify(op: Operation)
      modifies op`notices
      ensures op.notices == old(op.notices) + Notice(op.channel)
      ensures var c := op.channel;
              op.notices == if c.Some? && c.value in reg.channels &&
                               reg.channels[c.value].plugin in plugins && reg.channels[c.value].plugin in cancellers
                            then old(op.notices) + [c.value] else old(op.notices)
    {
      if TakesNotice(op.channel) {
        op.notices := op.notices + [op.channel.value];
      }
    }

    method FlagAmong(op: Operation, ghost ops: map<ID, Operation>, ghost m: Machine) returns (ghost n: Machine)
      requires InStep(op, m) && op.id in ops && ops[op.id] == op && forall o :: o in ops ==> ops[o].id == o
      modifies op`cancelRequested, op`notices
      ensures InStep(op, n) && n == Flag(m) && op.cancelRequested && op.notices == old(op.notices) + Notice(op.channel)
      ensures Records(ops) == old(Records(ops))[op.id := RecordOf(op)]
    {
      hide Step, Enabled, Reachable, Leads, ConfigOf, Shared, Reg.Grows, CallsOf;
      ghost var recs := Records(ops);
      StepCancel(ConfigOf(op), m);
      op.RequestCancel();
      Notify(op);
      n := Step(ConfigOf(op), m, Action.Cancel);
      forall o | o in ops && o != op.id ensures RecordOf(ops[o]) == recs[o] {
        assert ops[o] != op;
      }
      OneRecordChanged(ops, recs, op);
    }

    method RaiseFlag(op: Operation)
      requires Valid() && op.id in operations && operations[op.id] == op && op.id in runs
      modifies this`runs, op`cancelRequested, op`notices
      ensures Valid() && OnlyRan(op.id)
      ensures op.cancelRequested && runs[op.id] == Flag(old(runs)[op.id])
      ensures op.notices == old(op.notices) + Notice(op.channel)
    {
      hide Recovery.Manager.Valid, L.Manager.Valid, Resources.ResourceRegistry.Valid, AccessPolicy.Policy.Valid, Reg.Grows;
      hide TrackedAs, Keyed, InStep, ConfigOf, Records, RecordOf, Notice, Filed, Shows;
      ghost var id, rs, recs, m := op.id, runs, Records(operations), runs[op.id];
      TrackedAt(operations, runs, id);
      RecordAt(operations, id);
      RecordState(op);
      FiledAt(recs, rs, evidence, id);
      Scan.GrowsRefl(reg.channels);
      ghost var n := FlagAmong(op, operations, m);
      InStepShows(op, n);
      StillTracked(operations, recs, rs, reg.channels, RecordOf(op), id, n, reg.channels);
      RecordState(op);
      FiledMore(recs, rs, evidence, id, RecordOf(op), n);
      runs := runs[id := n];
    }

    /** Cancel: refused once the operation is over, else its flag goes up and the plugin
        of its channel is told. */
    method Cancel(id: ID) returns (ok: bool)
      requires Valid()
      modifies this`runs, (if id in operations then {operations[id]} else {})
      ensures Valid() && OnlyRan(id)
      ensures ok <==> id in operations && !IsTerminal(old(operations[id].state))
      ensures ok ==> operations[id].cancelRequested && runs[id] == Flag(old(runs)[id])
      ensures ok ==> operations[id].notices == old(operations[id].notices) + Notice(operations[id].channel)
      ensures !ok ==> runs == old(runs) && (id in operations ==> operations[id].notices == old(operations[id].notices))
    {
      hide Recovery.Manager.Valid, L.Manager.Valid, Resources.ResourceRegistry.Valid, AccessPolicy.Policy.Valid, Reg.Grows;
      hide TrackedAs, Keyed, InStep, ConfigOf, Records, Flag, Notice, Filed;
      if id !in operations || IsTerminal(operations[id].state) {
        return false;
      }
      TrackedAt(operations, runs, id);
      RaiseFlag(operations[id]);
      ok := true;
    }

    /** One poll of Wait: a result comes with a terminal state, and is of that state. */
    method Poll(id: ID) returns (r: Option<OpResult>)
      requires Valid()
      ensures r.Some? <==> id in operations && IsTerminal(operations[id].state)
      ensures r.Some? ==> r.value == OpResult(id, operations[id].state)
    {
      if id !in operations || !IsTerminal(operations[id].state) {
        return None;
      }
      r := operations[id].result;
      ReachableSound(ConfigOf(operations[id]), runs[id]);
      LifecycleAdvances(ConfigOf(operations[id]), runs[id]);
    }
  }
}

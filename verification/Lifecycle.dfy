/** core/operation/engine.go: one operation's Execute as atomic steps, interleaved with
    Cancel, later Executes and whatever else happens to the channels. Every answer of a
    collaborator or a plugin is part of the step, arbitrary within its contract. */
module Lifecycle {
  import opened OperationRecord
  import opened Reconciliation
  import opened RegistryStore
  import opened Results
  import AccessPolicy
  import Locks
  import Recovery
  import RecoveryLadder
  import Resolver

  type Channels = map<string, Channel>

  /** Where Execute stands. */
  datatype Place =
    | Idle
    | AtGate
    | AtLocks
    | AtResolver
    | AtTop(attempt: nat, channel: string)
    | AtInvoke(attempt: nat, channel: string)
    | AtObserve(attempt: nat, channel: string)
    | AtRecovery(attempt: nat, channel: string, decision: Reconciliation.Decision)
    | Invoked(evidence: seq<Evidence>)
    | AtVerify(evidence: seq<Evidence>)
    | Storing(final: OpState)
    | Ending(final: OpState)
    | Over

  datatype Entry =
    | Moved(state: OpState)
    | Gated(known: bool, device: bool, decision: AccessPolicy.Decision, approved: bool)
    | Looked(chs: Channels, choice: Option<string>)
    | OpenCall(channel: string)
    | InvokeCall(channel: string, record: Channel, moment: Locks.Moment, answer: Answer)
    | ObserveCall(seen: Option<Observation>)
    | RecoverCall(channel: string, next: Option<string>)
    | Flagged

  /** Everything that happened, the latest last. */
  datatype History = Start | Then(past: History, last: Entry)

  datatype Config = Config(op: string, request: Request, known: bool, locks: bool, plugins: set<string>, maxRetries: nat)

  datatype Machine = Machine(at: Place, state: OpState, result: Option<OpResult>, evidence: seq<Evidence>,
                             cancel: bool, chs: Channels, log: History)

  function Fresh(chs: Channels): Machine {
    Machine(Idle, Created, None, [], false, chs, Start)
  }

  datatype Action =
    | Enter
    | Decide(known: bool, device: bool, decision: AccessPolicy.Decision, approved: bool)
    | Lock(ok: bool)
    | Pick(choice: Option<string>)
    | Top
    | Invoke(known: bool, opens: bool, ready: Channels, moment: Locks.Moment, answer: Answer)
    | Observe(seen: Option<Observation>, evidence: seq<Evidence>)
    | GiveUp
    | Recover(after: Channels, alt: Option<string>)
    | Advance
    | Verify
    | Store
    | End
    | Again
    | Cancel
    | Others(after: Channels)

  /** Transition, and on with the next place. */
  function Move(m: Machine, s: OpState, at: Place): Machine {
    var t := Next(m.state, s);
    m.(state := t, at := at, log := Then(m.log, Moved(t)))
  }

  predicate Passes(d: AccessPolicy.Decision, approved: bool) {
    d == AccessPolicy.Allow || (d == AccessPolicy.RequireApproval && approved)
  }

  /** A channel that the operation may be bound to. */
  ghost predicate Serves(cfg: Config, chs: Channels, c: string) {
    c in chs && chs[c].device == cfg.request.target && cfg.request.capability in chs[c].capabilities
  }

  /** The facts of an observation as evidence, in some order. */
  ghost predicate FactsOf(facts: map<string, string>, evidence: seq<Evidence>) {
    && (forall e :: e in evidence ==> e.name in facts && facts[e.name] == e.value)
    && (forall k :: k in facts ==> Evidence(k, facts[k]) in evidence)
  }

  lemma FactsMean(facts: map<string, string>, evidence: seq<Evidence>)
    ensures FactsOf(facts, evidence) <==>
              forall name, value :: Evidence(name, value) in evidence <==> name in facts && facts[name] == value
  {
    if forall name, value :: Evidence(name, value) in evidence <==> name in facts && facts[name] == value {
      forall e | e in evidence ensures e.name in facts && facts[e.name] == e.value {
        assert Evidence(e.name, e.value) in evidence;
      }
    }
  }

  /** No channel will do for the request. */
  ghost predicate NoCandidate(chs: Channels, r: Request) {
    forall c :: !Resolver.Candidate(chs, c, r.target, r.capability, r.channelType)
  }

  ghost predicate Enabled(cfg: Config, m: Machine, a: Action) {
    match a
    case Enter => m.at == Idle
    case Decide(known, _, _, _) => m.at == AtGate && known == cfg.known
    case Lock(_) => m.at == AtLocks
    case Pick(choice) =>
      m.at == AtResolver &&
      (if choice.Some? then Resolver.IsChoice(m.chs, choice.value, cfg.request.target, cfg.request.capability, cfg.request.channelType)
       else NoCandidate(m.chs, cfg.request))
    case Top => m.at.AtTop?
    case Invoke(known, opens, ready, _, _) =>
      m.at.AtInvoke? && m.at.channel in m.chs && m.at.channel in ready && Grows(m.chs, ready) &&
      (known <==> m.chs[m.at.channel].plugin in cfg.plugins) &&
      (if m.chs[m.at.channel].state == Ready then ready == m.chs && opens else opens ==> ready[m.at.channel].state == Ready)
    case Observe(seen, evidence) => m.at.AtObserve? && (seen.Some? ==> FactsOf(seen.value.facts, evidence))
    case GiveUp => m.at.AtRecovery? && m.at.attempt >= cfg.maxRetries
    case Recover(after, alt) =>
      m.at.AtRecovery? && m.at.attempt < cfg.maxRetries && m.at.channel in m.chs && Grows(m.chs, after) &&
      (alt.Some? ==> Recovery.Usable(m.chs, after, m.at.channel, cfg.request.capability, alt.value))
    case Advance => m.at.Invoked?
    case Verify => m.at.AtVerify?
    case Store => m.at.Storing?
    case End => m.at.Ending?
    case Again => m.at == Over
    case Cancel => true
    case Others(after) => Grows(m.chs, after)
  }

  /** finalState. */
  function FinalState(d: Reconciliation.Decision): OpState {
    if d == Undetermined then Unknown else RunFailed
  }

  /** verify: flash evidence must name the requested version. */
  predicate Verified(r: Request, evidence: seq<Evidence>) {
    r.capability == FLASH ==> forall i :: 0 <= i < |evidence| && evidence[i].name == VERSION ==> evidence[i].value == Wanted(r)
  }

  ghost function InvokeStep(m: Machine, known: bool, opens: bool, ready: Channels, moment: Locks.Moment, answer: Answer): Machine
    requires m.at.AtInvoke? && m.at.channel in m.chs && m.at.channel in ready
  {
    var c := m.at.channel;
    if !known then m.(at := Storing(RunFailed))
    else
      var o := if m.chs[c].state == Ready then m else m.(chs := ready, log := Then(m.log, OpenCall(c)));
      if !opens then o.(at := Storing(RunFailed))
      else
        o.(log := Then(o.log, InvokeCall(c, o.chs[c], moment, answer)),
           at := if answer.Done? then Invoked(answer.evidence) else AtObserve(m.at.attempt, c))
  }

  /** The log with a note of what was decided or found, if that is the step. */
  function Noted(m: Machine, a: Action): History {
    match a
    case Decide(known, device, decision, approved) => Then(m.log, Gated(known, device, decision, approved))
    case Pick(choice) => Then(m.log, Looked(m.chs, choice))
    case _ => m.log
  }

  ghost function Step(cfg: Config, m: Machine, a: Action): Machine
    requires Enabled(cfg, m, a)
  {
    match a
    case Enter => Move(m, Validating, AtGate)
    case Decide(known, device, decision, approved) =>
      var g := m.(log := Noted(m, a));
      if !known || !device || !Passes(decision, approved) then g.(at := Storing(ValidationFailed))
      else if cfg.locks then Move(g, WaitingResource, AtLocks)
      else Move(g, OpState.Resolving, AtResolver)
    case Lock(ok) =>
      if ok then Move(m, OpState.Resolving, AtResolver) else m.(at := Storing(ResourceFailed))
    case Pick(choice) =>
      var g := m.(log := Noted(m, a));
      if choice.Some? then Move(g, Running, AtTop(0, choice.value)) else g.(at := Storing(ResolveFailed))
    case Top =>
      if m.cancel then m.(at := Storing(Cancelled)) else m.(at := AtInvoke(m.at.attempt, m.at.channel))
    case Invoke(known, opens, ready, moment, answer) =>
      InvokeStep(m, known, opens, ready, moment, answer)
    case Observe(seen, evidence) =>
      var o := m.(log := Then(m.log, ObserveCall(seen)));
      if seen.None? then o.(at := AtRecovery(m.at.attempt, m.at.channel, Retry))
      else
        var d := Reconcile(cfg.request, seen.value);
        if d == Success then o.(at := Invoked(evidence))
        else if d == Manual then o.(at := Storing(Unknown))
        else o.(at := AtRecovery(m.at.attempt, m.at.channel, d))
    case GiveUp => m.(at := Storing(FinalState(m.at.decision)))
    case Recover(after, alt) =>
      m.(chs := after, log := Then(m.log, RecoverCall(m.at.channel, alt)),
         at := if alt.Some? then AtTop(m.at.attempt + 1, alt.value) else Storing(FinalState(m.at.decision)))
    case Advance => Move(m, Verifying, AtVerify(m.at.evidence))
    case Verify =>
      m.(at := Storing(if Verified(cfg.request, m.at.evidence) then Succeeded else VerifyFailed), evidence := m.at.evidence)
    case Store => m.(result := Some(OpResult(cfg.op, m.at.final)), at := Ending(m.at.final))
    case End => Move(m, m.at.final, Over)
    case Again => m.(state := Next(m.state, Validating))
    case Cancel => m.(cancel := true, log := Then(m.log, Flagged))
    case Others(after) => m.(chs := after)
  }

  ghost predicate Run(cfg: Config, m: Machine, acts: seq<Action>, n: Machine)
    decreases |acts|
  {
    if acts == [] then m == n else Enabled(cfg, m, acts[0]) && Run(cfg, Step(cfg, m, acts[0]), acts[1..], n)
  }

  /** Some run of the machine goes from m to n. */
  ghost predicate Leads(cfg: Config, m: Machine, n: Machine) {
    exists acts :: Run(cfg, m, acts, n)
  }

  lemma LeadsRefl(cfg: Config, m: Machine)
    ensures Leads(cfg, m, m)
  {
    assert Run(cfg, m, [], m);
  }

  lemma {:induction false} RunConcat(cfg: Config, m: Machine, acts: seq<Action>, n: Machine, more: seq<Action>, o: Machine)
    requires Run(cfg, m, acts, n) && Run(cfg, n, more, o)
    ensures Run(cfg, m, acts + more, o)
    decreases |acts|
  {
    hide Step, Enabled;
    if acts == [] {
      assert acts + more == more;
    } else {
      RunConcat(cfg, Step(cfg, m, acts[0]), acts[1..], n, more, o);
      assert (acts + more)[1..] == acts[1..] + more;
    }
  }

  lemma {:induction false} LeadsTrans(cfg: Config, m: Machine, n: Machine, o: Machine)
    requires Leads(cfg, m, n) && Leads(cfg, n, o)
    ensures Leads(cfg, m, o)
  {
    var acts :| Run(cfg, m, acts, n);
    var more :| Run(cfg, n, more, o);
    RunConcat(cfg, m, acts, n, more, o);
  }

  lemma {:induction false} LeadsByStep(cfg: Config, m: Machine, a: Action)
    requires Enabled(cfg, m, a)
    ensures Leads(cfg, m, Step(cfg, m, a))
  {
    hide Step, Enabled;
    var n := Step(cfg, m, a);
    assert Run(cfg, n, [], n);
    assert [a][1..] == [];
    assert Run(cfg, m, [a], n);
  }

  // ---- Reading a history ----

  function LastState(h: History): OpState {
    match h
    case Start => Created
    case Then(past, Moved(s)) => s
    case Then(past, _) => LastState(past)
  }

  /** The states an operation in state a can be in next. */
  predicate Follows(a: OpState, b: OpState) {
    match a
    case Created => b == Validating
    case Validating => b in {WaitingResource, OpState.Resolving, ValidationFailed}
    case WaitingResource => b in {OpState.Resolving, ResourceFailed}
    case Resolving => b in {Running, ResolveFailed}
    case Running => b in {Verifying, RunFailed, Cancelled, Unknown}
    case Verifying => b in {Succeeded, VerifyFailed}
    case _ => false
  }

  /** Each state recorded follows the one before. */
  ghost predicate Path(h: History) {
    match h
    case Start => true
    case Then(past, e) => Path(past) && (e.Moved? ==> Follows(LastState(past), e.state))
  }

  predicate IsCall(e: Entry) {
    e.OpenCall? || e.InvokeCall? || e.ObserveCall? || e.RecoverCall?
  }

  /** Descriptor and device were there, and policy allowed the operation or asked for an
      approval that was on record. */
  ghost predicate Passed(h: History) {
    h.Then? && (Passed(h.past) || (h.last.Gated? && h.last.known && h.last.device && Passes(h.last.decision, h.last.approved)))
  }

  ghost predicate SawMismatch(cfg: Config, h: History) {
    h.Then? && (SawMismatch(cfg, h.past) || (h.last.ObserveCall? && h.last.seen.Some? && Mismatch(cfg.request, h.last.seen.value)))
  }

  /** A plugin is called only in RUNNING, past the gate, and never again once a device
      that answers was seen without the flash. */
  ghost predicate Disciplined(cfg: Config, h: History) {
    h.Then? ==> Disciplined(cfg, h.past) &&
                (IsCall(h.last) ==> LastState(h.past) == Running && Passed(h.past) && !SawMismatch(cfg, h.past))
  }

  /** Every Invoke found its channel READY, on the target device, with the capability. */
  ghost predicate WellAimed(cfg: Config, h: History) {
    h.Then? ==> WellAimed(cfg, h.past) &&
                (h.last.InvokeCall? ==> h.last.record.state == Ready && h.last.record.device == cfg.request.target &&
                                        cfg.request.capability in h.last.record.capabilities)
  }

  function Invokes(h: History): nat {
    if h.Start? then 0 else Invokes(h.past) + if h.last.InvokeCall? then 1 else 0
  }

  function Recovers(h: History): nat {
    if h.Start? then 0 else Recovers(h.past) + if h.last.RecoverCall? then 1 else 0
  }

  predicate HasFlag(h: History) {
    h.Then? && (h.last.Flagged? || HasFlag(h.past))
  }

  /** The Invokes that began with the cancel flag up. */
  function LateInvokes(h: History): nat {
    if h.Start? then 0 else LateInvokes(h.past) + if h.last.InvokeCall? && HasFlag(h.past) then 1 else 0
  }

  /** The last plugin call returned without error, or was an observation that showed the
      requested version. */
  ghost predicate Proven(cfg: Config, h: History) {
    h.Then? &&
    if h.last.InvokeCall? then h.last.answer.Done?
    else if h.last.ObserveCall? then h.last.seen.Some? && Shows(cfg.request, h.last.seen.value)
    else !IsCall(h.last) && Proven(cfg, h.past)
  }

  /** The evidence is what the last plugin call came back with: the Invoke's, or the facts
      of an observation that showed the requested version. */
  ghost predicate Backed(cfg: Config, h: History, evidence: seq<Evidence>) {
    h.Then? &&
    if h.last.InvokeCall? then h.last.answer == Done(evidence)
    else if h.last.ObserveCall? then h.last.seen.Some? && Shows(cfg.request, h.last.seen.value) && FactsOf(h.last.seen.value.facts, evidence)
    else !IsCall(h.last) && Backed(cfg, h.past, evidence)
  }

  /** The resolver looked, and no channel would do. */
  ghost predicate FoundNone(cfg: Config, h: History) {
    h.Then? && (FoundNone(cfg, h.past) || (h.last.Looked? && h.last.choice.None? && NoCandidate(h.last.chs, cfg.request)))
  }

  // ---- The calls a history records ----

  function AsCall(e: Entry): PluginCall
    requires IsCall(e)
  {
    match e
    case OpenCall(c) => PluginCall.Opening(c)
    case InvokeCall(c, record, moment, answer) => Invoking(c, record, moment, answer)
    case ObserveCall(seen) => Observing(seen)
    case RecoverCall(c, next) => PluginCall.Recovering(c, next)
  }

  function CallsOf(h: History): seq<PluginCall> {
    if h.Start? then [] else CallsOf(h.past) + if IsCall(h.last) then [AsCall(h.last)] else []
  }

  /** The calls that a step makes. */
  ghost function CallsBy(cfg: Config, m: Machine, a: Action): seq<PluginCall>
    requires Enabled(cfg, m, a)
  {
    match a
    case Invoke(known, opens, ready, moment, answer) =>
      var c := m.at.channel;
      (if known && m.chs[c].state != Ready then [PluginCall.Opening(c)] else [])
      + if known && opens then [Invoking(c, ready[c], moment, answer)] else []
    case Observe(seen, _) => [Observing(seen)]
    case Recover(_, alt) => [PluginCall.Recovering(m.at.channel, alt)]
    case _ => []
  }

  /** The steps of the attempt loop. */
  predicate InLoop(a: Action) {
    a.Top? || a.Invoke? || a.Observe? || a.GiveUp? || a.Recover?
  }

  lemma CallsGrowInLoop(cfg: Config, m: Machine, a: Action)
    requires Enabled(cfg, m, a) && InLoop(a)
    ensures CallsOf(Step(cfg, m, a).log) == CallsOf(m.log) + CallsBy(cfg, m, a)
  {
    hide Recovery.Usable, Grows, FactsOf, Reconcile;
    if a.Invoke? {
      var h := Then(m.log, OpenCall(m.at.channel));
      assert CallsOf(h) == CallsOf(m.log) + [PluginCall.Opening(m.at.channel)];
    }
  }

  lemma CallsGrowOutside(cfg: Config, m: Machine, a: Action)
    requires Enabled(cfg, m, a) && !InLoop(a)
    ensures CallsOf(Step(cfg, m, a).log) == CallsOf(m.log) + CallsBy(cfg, m, a)
  {
    hide Resolver.IsChoice, Grows, Verified, Passes;
    if a.Decide? || a.Pick? {
      var h := Noted(m, a);
      assert CallsOf(h) == CallsOf(m.log);
    }
  }

  lemma CallsGrow(cfg: Config, m: Machine, a: Action)
    requires Enabled(cfg, m, a)
    ensures CallsOf(Step(cfg, m, a).log) == CallsOf(m.log) + CallsBy(cfg, m, a)
  {
    hide *;
    if InLoop(a) { CallsGrowInLoop(cfg, m, a); } else { CallsGrowOutside(cfg, m, a); }
  }

  function InvokesIn(calls: seq<PluginCall>): nat {
    if calls == [] then 0 else InvokesIn(calls[..|calls| - 1]) + if calls[|calls| - 1].Invoking? then 1 else 0
  }

  function RecoversIn(calls: seq<PluginCall>): nat {
    if calls == [] then 0 else RecoversIn(calls[..|calls| - 1]) + if calls[|calls| - 1].Recovering? then 1 else 0
  }

  /** Every Invoke found its channel READY, on the target device, with the capability. */
  ghost predicate Aimed(cfg: Config, calls: seq<PluginCall>) {
    forall c :: c in calls && c.Invoking? ==>
      c.record.state == Ready && c.record.device == cfg.request.target && cfg.request.capability in c.record.capabilities
  }

  /** The last call returned without error, or was an observation that showed the
      requested version. */
  ghost predicate ProvenBy(cfg: Config, calls: seq<PluginCall>) {
    && calls != []
    && var last := calls[|calls| - 1];
       (last.Invoking? && last.answer.Done?) || (last.Observing? && last.seen.Some? && Shows(cfg.request, last.seen.value))
  }

  ghost predicate BackedBy(cfg: Config, calls: seq<PluginCall>, evidence: seq<Evidence>) {
    && calls != []
    && var last := calls[|calls| - 1];
       || (last.Invoking? && last.answer == Done(evidence))
       || (last.Observing? && last.seen.Some? && Shows(cfg.request, last.seen.value) && FactsOf(last.seen.value.facts, evidence))
  }

  ghost predicate ShowsMismatch(cfg: Config, c: PluginCall) {
    c.Observing? && c.seen.Some? && Mismatch(cfg.request, c.seen.value)
  }

  /** An observed mismatch is the last call. */
  ghost predicate NoneAfterMismatch(cfg: Config, calls: seq<PluginCall>) {
    forall i :: 0 <= i < |calls| - 1 ==> !ShowsMismatch(cfg, calls[i])
  }

  /** The last observation, if since then recovery at most failed. */
  function LastLook(calls: seq<PluginCall>): Option<Option<Observation>> {
    var n := |calls|;
    if n > 0 && calls[n - 1].Observing? then Some(calls[n - 1].seen)
    else if n > 1 && calls[n - 1].Recovering? && calls[n - 1].next.None? && calls[n - 2].Observing? then Some(calls[n - 2].seen)
    else None
  }

  /** The run ended on an observation that leaves the outcome open: the device was offline
      and proved nothing, or answered and did not have what was flashed. */
  ghost predicate Undecided(cfg: Config, calls: seq<PluginCall>) {
    && LastLook(calls).Some? && LastLook(calls).value.Some?
    && var seen := LastLook(calls).value.value;
       !Shows(cfg.request, seen) && (!seen.online || cfg.request.capability == FLASH)
  }

  /** The run broke off: the channel did not open, the observation failed, or it showed a
      device that answers and was not being flashed. */
  ghost predicate BrokeOff(cfg: Config, calls: seq<PluginCall>) {
    || (calls != [] && calls[|calls| - 1].Opening?)
    || (LastLook(calls).Some? &&
        (LastLook(calls).value.None? || (LastLook(calls).value.value.online && cfg.request.capability != FLASH)))
  }

  /** No call of an attempt was made, or none since recovery handed back a channel. */
  predicate BetweenAttempts(calls: seq<PluginCall>) {
    calls == [] || (calls[|calls| - 1].Recovering? && calls[|calls| - 1].next.Some?)
  }

  /** What is proved of the history holds of the calls. */
  lemma {:induction false} CallsSound(cfg: Config, h: History)
    requires Disciplined(cfg, h) && WellAimed(cfg, h)
    ensures InvokesIn(CallsOf(h)) == Invokes(h) && RecoversIn(CallsOf(h)) == Recovers(h)
    ensures Aimed(cfg, CallsOf(h)) && NoneAfterMismatch(cfg, CallsOf(h))
    ensures SawMismatch(cfg, h) <==> CallsOf(h) != [] && ShowsMismatch(cfg, CallsOf(h)[|CallsOf(h)| - 1])
    ensures Proven(cfg, h) <==> ProvenBy(cfg, CallsOf(h))
    ensures forall evidence :: Backed(cfg, h, evidence) <==> BackedBy(cfg, CallsOf(h), evidence)
  {
    if h.Then? {
      var calls := CallsOf(h.past);
      CallsSound(cfg, h.past);
      if IsCall(h.last) {
        var c := AsCall(h.last);
        assert CallsOf(h) == calls + [c] && (calls + [c])[..|calls|] == calls;
      } else {
        assert CallsOf(h) == calls;
      }
    }
  }

  // ---- The invariant ----

  /** State and result fit the place. */
  ghost predicate Fitting(cfg: Config, m: Machine) {
    match m.at
    case Idle => m.state == Created
    case AtGate => m.state == Validating
    case AtLocks => m.state == WaitingResource
    case AtResolver => m.state == OpState.Resolving
    case AtVerify(_) => m.state == Verifying
    case Storing(final) => Follows(m.state, final) && IsTerminal(final)
    case Ending(final) => Follows(m.state, final) && IsTerminal(final) && m.result == Some(OpResult(cfg.op, final))
    case Over => IsTerminal(m.state) && m.result == Some(OpResult(cfg.op, m.state))
    case _ => m.state == Running
  }

  /** Attempts are counted, at most maxRetries of them repeats. */
  ghost predicate Counted(cfg: Config, m: Machine) {
    var i, r := Invokes(m.log), Recovers(m.log);
    match m.at
    case Idle | AtGate | AtLocks | AtResolver => i == r == 0
    case AtTop(k, _) => i == r == k <= cfg.maxRetries
    case AtInvoke(k, _) => i == r == k <= cfg.maxRetries
    case AtObserve(k, _) => i == k + 1 && r == k <= cfg.maxRetries
    case AtRecovery(k, _, _) => i == k + 1 && r == k <= cfg.maxRetries
    case _ => i <= cfg.maxRetries + 1 && r <= cfg.maxRetries
  }

  ghost predicate Bound(cfg: Config, m: Machine) {
    match m.at
    case AtTop(_, c) => Serves(cfg, m.chs, c)
    case AtInvoke(_, c) => Serves(cfg, m.chs, c)
    case AtObserve(_, c) => Serves(cfg, m.chs, c)
    case AtRecovery(_, c, _) => Serves(cfg, m.chs, c)
    case _ => true
  }

  ghost predicate CancelSound(m: Machine) {
    && m.cancel == HasFlag(m.log) && LateInvokes(m.log) <= 1
    && (!m.cancel || m.at.AtInvoke? ==> LateInvokes(m.log) == 0)
  }

  /** The place is one that execution reaches with a terminal state in view. */
  predicate Heads(m: Machine, s: OpState) {
    m.at == Storing(s) || m.at == Ending(s) || (m.at == Over && m.state == s)
  }

  /** A run came back with a result. */
  predicate Returned(m: Machine) {
    m.at.Invoked? || m.at.AtVerify? || Heads(m, Succeeded) || Heads(m, VerifyFailed)
  }

  function Result(m: Machine): seq<Evidence> {
    if m.at.Invoked? || m.at.AtVerify? then m.at.evidence else m.evidence
  }

  ghost predicate SuccessSound(cfg: Config, m: Machine) {
    && (Returned(m) <==> Proven(cfg, m.log))
    && (Returned(m) ==> Backed(cfg, m.log, Result(m)))
    && (Heads(m, Succeeded) ==> Verified(cfg.request, m.evidence)) && (Heads(m, VerifyFailed) ==> !Verified(cfg.request, m.evidence))
    && (SawMismatch(cfg, m.log) ==> Heads(m, Unknown))
  }

  predicate Closing(p: Place) {
    p.Storing? || p.Ending? || p.Over?
  }

  /** What refuses, finds nothing or cancels an operation is on record. */
  ghost predicate CauseSound(cfg: Config, m: Machine) {
    && (m.at.Idle? || m.at.AtGate? ==> !Passed(m.log))
    && (Closing(m.at) ==> (Heads(m, ValidationFailed) <==> !Passed(m.log)))
    && (Heads(m, ResolveFailed) ==> FoundNone(cfg, m.log))
    && (Heads(m, Cancelled) ==> HasFlag(m.log))
  }

  /** A channel that could serve the operation has no plugin. */
  ghost predicate LacksPlugin(cfg: Config, chs: Channels) {
    exists c :: Serves(cfg, chs, c) && chs[c].plugin !in cfg.plugins
  }

  /** The calls fit an end in this final state. */
  ghost predicate EndsAs(cfg: Config, calls: seq<PluginCall>, final: OpState) {
    match final
    case Unknown => Undecided(cfg, calls)
    case RunFailed => BrokeOff(cfg, calls) || BetweenAttempts(calls)
    case Cancelled => BetweenAttempts(calls)
    case ValidationFailed | ResourceFailed | ResolveFailed => calls == []
    case _ => true
  }

  /** The calls fit the place. */
  ghost predicate CallsFit(cfg: Config, p: Place, state: OpState, calls: seq<PluginCall>) {
    match p
    case Idle | AtGate | AtLocks | AtResolver => calls == []
    case AtTop(_, _) => BetweenAttempts(calls)
    case AtInvoke(_, _) => BetweenAttempts(calls)
    case AtObserve(_, _) => calls != [] && calls[|calls| - 1].Invoking?
    case AtRecovery(_, _, d) =>
      calls != [] && calls[|calls| - 1].Observing? && (if d == Undetermined then Undecided(cfg, calls) else BrokeOff(cfg, calls))
    case Invoked(_) => true
    case AtVerify(_) => true
    case Storing(final) => EndsAs(cfg, calls, final)
    case Ending(final) => EndsAs(cfg, calls, final)
    case Over => EndsAs(cfg, calls, state)
  }

  /** A run that fails made a call, unless it had no plugin to call. */
  ghost predicate FailureSound(cfg: Config, m: Machine) {
    && CallsFit(cfg, m.at, m.state, CallsOf(m.log))
    && (Heads(m, RunFailed) ==> !BetweenAttempts(CallsOf(m.log)) || LacksPlugin(cfg, m.chs))
  }

  /** The state is the last recorded, on a path, and fits the place. */
  ghost predicate Flow(cfg: Config, m: Machine) {
    LastState(m.log) == m.state && Path(m.log) && Fitting(cfg, m)
  }

  predicate PastGate(p: Place) {
    !(p.Idle? || p.AtGate? || p.Storing? || p.Ending? || p.Over?)
  }

  ghost predicate Calls(cfg: Config, m: Machine) {
    Disciplined(cfg, m.log) && (PastGate(m.at) ==> Passed(m.log))
  }

  ghost predicate Aim(cfg: Config, m: Machine) {
    WellAimed(cfg, m.log) && Bound(cfg, m)
  }

  ghost predicate Inv(cfg: Config, m: Machine) {
    && Flow(cfg, m) && Calls(cfg, m) && Aim(cfg, m) && Counted(cfg, m) && CancelSound(m)
    && SuccessSound(cfg, m) && FailureSound(cfg, m) && CauseSound(cfg, m)
  }

  lemma RecordKeeps(cfg: Config, m: Machine, a: Action)
    requires Flow(cfg, m) && Enabled(cfg, m, a)
    ensures LastState(Step(cfg, m, a).log) == Step(cfg, m, a).state && Path(Step(cfg, m, a).log)
  {
    hide Resolver.IsChoice, Recovery.Usable, Grows, FactsOf, Verified, Reconcile, Passes;
    if a.Invoke? {
      var h := Then(m.log, OpenCall(m.at.channel));
      assert LastState(h) == LastState(m.log) && Path(h);
    }
    if a.Decide? || a.Pick? {
      var h := Noted(m, a);
      assert LastState(h) == LastState(m.log) && Path(h);
    }
  }

  lemma FittingInLoop(cfg: Config, m: Machine, a: Action)
    requires Fitting(cfg, m) && Enabled(cfg, m, a) && InLoop(a)
    ensures Fitting(cfg, Step(cfg, m, a))
  {
    hide Resolver.IsChoice, Recovery.Usable, Grows, FactsOf, Verified, Reconcile, Passes;
  }

  lemma FittingOutside(cfg: Config, m: Machine, a: Action)
    requires Fitting(cfg, m) && Enabled(cfg, m, a) && !InLoop(a)
    ensures Fitting(cfg, Step(cfg, m, a))
  {
    hide Resolver.IsChoice, Recovery.Usable, Grows, FactsOf, Verified, Reconcile, Passes;
  }

  lemma FittingKeeps(cfg: Config, m: Machine, a: Action)
    requires Fitting(cfg, m) && Enabled(cfg, m, a)
    ensures Fitting(cfg, Step(cfg, m, a))
  {
    hide *;
    if InLoop(a) { FittingInLoop(cfg, m, a); } else { FittingOutside(cfg, m, a); }
  }

  lemma FlowKeeps(cfg: Config, m: Machine, a: Action)
    requires Flow(cfg, m) && Enabled(cfg, m, a)
    ensures Flow(cfg, Step(cfg, m, a))
  {
    RecordKeeps(cfg, m, a);
    FittingKeeps(cfg, m, a);
  }

  lemma CallsInLoop(cfg: Config, m: Machine, a: Action)
    requires Flow(cfg, m) && Calls(cfg, m) && SuccessSound(cfg, m) && Enabled(cfg, m, a) && InLoop(a)
    ensures Calls(cfg, Step(cfg, m, a))
  {
    hide Resolver.IsChoice, Recovery.Usable, Grows, FactsOf, Verified, Proven, Path, Mismatch;
    if a.Invoke? {
      var h := Then(m.log, OpenCall(m.at.channel));
      assert LastState(h) == m.state && Passed(h) && !SawMismatch(cfg, h) && Disciplined(cfg, h);
    }
  }

  lemma CallsOutside(cfg: Config, m: Machine, a: Action)
    requires Flow(cfg, m) && Calls(cfg, m) && SuccessSound(cfg, m) && Enabled(cfg, m, a) && !InLoop(a)
    ensures Calls(cfg, Step(cfg, m, a))
  {
    hide Resolver.IsChoice, Recovery.Usable, Grows, FactsOf, Verified, Proven, Path, Mismatch;
    if a.Decide? || a.Pick? {
      var h := Noted(m, a);
      assert Disciplined(cfg, h) && LastState(h) == LastState(m.log);
      assert a.Pick? || (a.known && a.device && Passes(a.decision, a.approved)) ==> Passed(h);
    }
  }

  lemma CallsKeep(cfg: Config, m: Machine, a: Action)
    requires Flow(cfg, m) && Calls(cfg, m) && SuccessSound(cfg, m) && Enabled(cfg, m, a)
    ensures Calls(cfg, Step(cfg, m, a))
  {
    hide *;
    if InLoop(a) { CallsInLoop(cfg, m, a); } else { CallsOutside(cfg, m, a); }
  }

  lemma AimInLoop(cfg: Config, m: Machine, a: Action)
    requires Aim(cfg, m) && Enabled(cfg, m, a) && InLoop(a)
    ensures Aim(cfg, Step(cfg, m, a))
  {
    hide FactsOf, Verified, Reconcile;
    if a.Invoke? {
      var h := Then(m.log, OpenCall(m.at.channel));
      assert WellAimed(cfg, h);
    }
  }

  lemma AimOutside(cfg: Config, m: Machine, a: Action)
    requires Aim(cfg, m) && Enabled(cfg, m, a) && !InLoop(a)
    ensures Aim(cfg, Step(cfg, m, a))
  {
    hide FactsOf, Verified, Reconcile;
    if a.Decide? || a.Pick? {
      var h := Noted(m, a);
      assert WellAimed(cfg, h);
    }
  }

  lemma AimKeeps(cfg: Config, m: Machine, a: Action)
    requires Aim(cfg, m) && Enabled(cfg, m, a)
    ensures Aim(cfg, Step(cfg, m, a))
  {
    hide *;
    if InLoop(a) { AimInLoop(cfg, m, a); } else { AimOutside(cfg, m, a); }
  }

  /** Only Invoke and Recover steps move the counts. */
  lemma CountsOf(cfg: Config, m: Machine, a: Action)
    requires Enabled(cfg, m, a)
    ensures Invokes(Step(cfg, m, a).log) == Invokes(m.log) + if a.Invoke? && a.known && a.opens then 1 else 0
    ensures Recovers(Step(cfg, m, a).log) == Recovers(m.log) + if a.Recover? then 1 else 0
  {
    hide Resolver.IsChoice, Recovery.Usable, Grows, FactsOf, Verified, Reconcile, Passes;
    if a.Invoke? {
      var h := Then(m.log, OpenCall(m.at.channel));
      assert Invokes(h) == Invokes(m.log) && Recovers(h) == Recovers(m.log);
    }
    if a.Decide? || a.Pick? {
      var h := Noted(m, a);
      assert Invokes(h) == Invokes(m.log) && Recovers(h) == Recovers(m.log);
    }
  }

  lemma CountedKeeps(cfg: Config, m: Machine, a: Action)
    requires Counted(cfg, m) && Enabled(cfg, m, a)
    ensures Counted(cfg, Step(cfg, m, a))
  {
    hide Resolver.IsChoice, Recovery.Usable, Grows, FactsOf, Verified, Reconcile, Passes;
    var n := Step(cfg, m, a);
    CountsOf(cfg, m, a);
    hide Invokes, Recovers;
  }

  lemma CancelKeeps(cfg: Config, m: Machine, a: Action)
    requires CancelSound(m) && Enabled(cfg, m, a)
    ensures CancelSound(Step(cfg, m, a))
  {
    hide Resolver.IsChoice, Recovery.Usable, Grows, FactsOf, Verified, Reconcile;
    if a.Invoke? {
      var h := Then(m.log, OpenCall(m.at.channel));
      assert HasFlag(h) == HasFlag(m.log) && LateInvokes(h) == LateInvokes(m.log);
    }
    if a.Decide? || a.Pick? {
      var h := Noted(m, a);
      assert HasFlag(h) == HasFlag(m.log) && LateInvokes(h) == LateInvokes(m.log);
    }
  }

  lemma SuccessInvoke(cfg: Config, m: Machine, a: Action)
    requires Flow(cfg, m) && SuccessSound(cfg, m) && Enabled(cfg, m, a) && a.Invoke?
    ensures SuccessSound(cfg, Step(cfg, m, a))
  {
    hide Grows, FactsOf, Verified, Path, Mismatch, Shows, LastState;
    var h := Then(m.log, OpenCall(m.at.channel));
    assert SawMismatch(cfg, h) == SawMismatch(cfg, m.log);
  }

  lemma SuccessObserve(cfg: Config, m: Machine, a: Action)
    requires Flow(cfg, m) && SuccessSound(cfg, m) && Enabled(cfg, m, a) && a.Observe?
    ensures SuccessSound(cfg, Step(cfg, m, a))
  {
    if a.seen.Some? { DecisionMeans(cfg.request, a.seen.value); }
    hide FactsOf, Verified, Path, Mismatch, Shows, Reconcile, LastState;
  }

  lemma SuccessInLoop(cfg: Config, m: Machine, a: Action)
    requires Flow(cfg, m) && SuccessSound(cfg, m) && Enabled(cfg, m, a) && InLoop(a)
    ensures SuccessSound(cfg, Step(cfg, m, a))
  {
    if a.Invoke? {
      SuccessInvoke(cfg, m, a);
    } else if a.Observe? {
      SuccessObserve(cfg, m, a);
    } else {
      hide Recovery.Usable, Grows, FactsOf, Verified, Path, Mismatch, Shows, LastState;
    }
  }

  /** No call is made outside the loop. */
  lemma NoCallOutside(cfg: Config, m: Machine, a: Action, evidence: seq<Evidence>)
    requires Enabled(cfg, m, a) && !InLoop(a)
    ensures var h := Step(cfg, m, a).log;
            && SawMismatch(cfg, h) == SawMismatch(cfg, m.log) && Proven(cfg, h) == Proven(cfg, m.log)
            && Backed(cfg, h, evidence) == Backed(cfg, m.log, evidence)
  {
    hide Resolver.IsChoice, NoCandidate, Grows, FactsOf, Verified, Mismatch, Shows, Passes;
    var h := Noted(m, a);
    assert SawMismatch(cfg, h) == SawMismatch(cfg, m.log) && Proven(cfg, h) == Proven(cfg, m.log);
    assert Backed(cfg, h, evidence) == Backed(cfg, m.log, evidence);
  }

  /** Verify is where a run that came back is judged. */
  lemma VerifyJudges(cfg: Config, m: Machine)
    requires Fitting(cfg, m) && Enabled(cfg, m, Verify)
    ensures var n := Step(cfg, m, Verify);
            && Returned(m) && Returned(n) && Result(n) == n.evidence == Result(m) && !Heads(n, Unknown) && !Heads(m, Unknown)
            && (Heads(n, Succeeded) <==> Verified(cfg.request, Result(m)))
            && (Heads(n, VerifyFailed) <==> !Verified(cfg.request, Result(m)))
  {
    hide Verified;
  }

  /** Elsewhere outside the loop a result stays as it is. */
  lemma ResultStays(cfg: Config, m: Machine, a: Action)
    requires Fitting(cfg, m) && Enabled(cfg, m, a) && !InLoop(a) && !a.Verify?
    ensures var n := Step(cfg, m, a);
            (Returned(n) <==> Returned(m)) && (Returned(m) ==> Result(n) == Result(m)) && n.evidence == m.evidence
  {
    hide Resolver.IsChoice, NoCandidate, Grows, Passes, Noted, CallsOf;
  }

  /** And so does the final state a run heads for. */
  lemma HeadStays(cfg: Config, m: Machine, a: Action)
    requires Fitting(cfg, m) && Enabled(cfg, m, a) && !InLoop(a) && !a.Verify?
    ensures var n := Step(cfg, m, a);
            && (Heads(n, Unknown) <==> Heads(m, Unknown))
            && (Heads(n, Succeeded) ==> Heads(m, Succeeded)) && (Heads(n, VerifyFailed) ==> Heads(m, VerifyFailed))
  {
    hide Resolver.IsChoice, NoCandidate, Grows, Passes, Noted, Returned, Result, CallsOf;
  }

  lemma SuccessOutside(cfg: Config, m: Machine, a: Action)
    requires Flow(cfg, m) && SuccessSound(cfg, m) && Enabled(cfg, m, a) && !InLoop(a)
    ensures SuccessSound(cfg, Step(cfg, m, a))
  {
    hide Resolver.IsChoice, NoCandidate, Recovery.Usable, Grows, FactsOf, Verified, Path, Mismatch, Shows, Reconcile, Passes;
    NoCallOutside(cfg, m, a, Result(m));
    if a.Verify? {
      VerifyJudges(cfg, m);
    } else {
      ResultStays(cfg, m, a);
      HeadStays(cfg, m, a);
    }
    hide Proven, Backed, SawMismatch, LastState, Step, Enabled, Heads, Fitting;
  }

  lemma SuccessKeeps(cfg: Config, m: Machine, a: Action)
    requires Flow(cfg, m) && SuccessSound(cfg, m) && Enabled(cfg, m, a)
    ensures SuccessSound(cfg, Step(cfg, m, a))
  {
    hide *;
    if InLoop(a) { SuccessInLoop(cfg, m, a); } else { SuccessOutside(cfg, m, a); }
  }

  lemma LacksStill(cfg: Config, chs: Channels, after: Channels)
    requires LacksPlugin(cfg, chs) && Grows(chs, after)
    ensures LacksPlugin(cfg, after)
  {
    var c :| Serves(cfg, chs, c) && chs[c].plugin !in cfg.plugins;
    assert Serves(cfg, after, c);
  }

  lemma LacksNow(cfg: Config, chs: Channels, c: string)
    requires Serves(cfg, chs, c) && chs[c].plugin !in cfg.plugins
    ensures LacksPlugin(cfg, chs)
  {
  }

  lemma InvokeFits(cfg: Config, m: Machine, a: Action, calls: seq<PluginCall>)
    requires CallsFit(cfg, m.at, m.state, calls) && Enabled(cfg, m, a) && (a.Top? || a.Invoke?)
    ensures CallsFit(cfg, Step(cfg, m, a).at, Step(cfg, m, a).state, calls + CallsBy(cfg, m, a))
  {
    hide Grows, Shows;
    if a.Top? { assert calls + CallsBy(cfg, m, a) == calls; }
  }

  /** What the observation says is the decision it leads to. */
  lemma ObserveFits(cfg: Config, m: Machine, a: Action, calls: seq<PluginCall>)
    requires Enabled(cfg, m, a) && a.Observe?
    ensures CallsFit(cfg, Step(cfg, m, a).at, Step(cfg, m, a).state, calls + CallsBy(cfg, m, a))
  {
    if a.seen.Some? { DecisionMeans(cfg.request, a.seen.value); }
    hide Grows, Shows, Reconcile, FactsOf;
  }

  /** Once nothing is left to try, the final state is that of the decision. */
  lemma RecoverFits(cfg: Config, m: Machine, a: Action, calls: seq<PluginCall>)
    requires CallsFit(cfg, m.at, m.state, calls) && Enabled(cfg, m, a) && (a.GiveUp? || a.Recover?)
    ensures CallsFit(cfg, Step(cfg, m, a).at, Step(cfg, m, a).state, calls + CallsBy(cfg, m, a))
  {
    hide Grows, Shows, Recovery.Usable;
    if a.GiveUp? { assert calls + CallsBy(cfg, m, a) == calls; }
  }

  /** A run fails in the loop with a call made, unless a plugin is missing. */
  lemma FailsWith(cfg: Config, m: Machine, a: Action, calls: seq<PluginCall>)
    requires CallsFit(cfg, m.at, m.state, calls) && Enabled(cfg, m, a) && InLoop(a)
    requires a.Invoke? && !a.known ==> LacksPlugin(cfg, m.chs)
    ensures var n := Step(cfg, m, a);
            Heads(n, RunFailed) ==> !BetweenAttempts(calls + CallsBy(cfg, m, a)) || LacksPlugin(cfg, n.chs)
  {
    hide Grows, Shows, Recovery.Usable, LacksPlugin, FactsOf, Reconcile, Undecided, BrokeOff;
    if a.GiveUp? { assert calls + CallsBy(cfg, m, a) == calls; }
    if a.Observe? && a.seen.Some? { DecisionMeans(cfg.request, a.seen.value); }
  }

  lemma FailureInLoop(cfg: Config, m: Machine, a: Action)
    requires Bound(cfg, m) && FailureSound(cfg, m) && Enabled(cfg, m, a) && InLoop(a)
    ensures FailureSound(cfg, Step(cfg, m, a))
  {
    CallsGrow(cfg, m, a);
    var calls := CallsOf(m.log);
    if a.Top? || a.Invoke? {
      InvokeFits(cfg, m, a, calls);
    } else if a.Observe? {
      ObserveFits(cfg, m, a, calls);
    } else {
      RecoverFits(cfg, m, a, calls);
    }
    if a.Invoke? && !a.known { LacksNow(cfg, m.chs, m.at.channel); }
    FailsWith(cfg, m, a, calls);
    hide *;
  }

  lemma OutsideFits(cfg: Config, m: Machine, a: Action)
    requires Fitting(cfg, m) && CallsFit(cfg, m.at, m.state, CallsOf(m.log)) && Enabled(cfg, m, a) && !InLoop(a)
    ensures CallsFit(cfg, Step(cfg, m, a).at, Step(cfg, m, a).state, CallsOf(m.log))
  {
    hide Resolver.IsChoice, Grows, Verified, LastLook, Undecided, BrokeOff, Passes, CallsOf, NoCandidate;
  }

  lemma FailureOutside(cfg: Config, m: Machine, a: Action)
    requires Fitting(cfg, m) && FailureSound(cfg, m) && Enabled(cfg, m, a) && !InLoop(a)
    ensures FailureSound(cfg, Step(cfg, m, a))
  {
    hide Resolver.IsChoice, Recovery.Usable, Grows, FactsOf, Verified, Shows, Reconcile, LacksPlugin, NoCandidate, Passes;
    CallsGrow(cfg, m, a);
    OutsideFits(cfg, m, a);
    hide CallsOf, CallsFit, BetweenAttempts;
    if a.Others? && LacksPlugin(cfg, m.chs) { LacksStill(cfg, m.chs, a.after); }
  }

  lemma FailureKeeps(cfg: Config, m: Machine, a: Action)
    requires Flow(cfg, m) && Aim(cfg, m) && FailureSound(cfg, m) && Enabled(cfg, m, a)
    ensures FailureSound(cfg, Step(cfg, m, a))
  {
    hide Fitting, Bound, FailureSound, Step, Enabled, WellAimed, Path, LastState;
    if InLoop(a) { FailureInLoop(cfg, m, a); } else { FailureOutside(cfg, m, a); }
  }

  lemma CauseInLoop(cfg: Config, m: Machine, a: Action)
    requires Calls(cfg, m) && CancelSound(m) && CauseSound(cfg, m) && Enabled(cfg, m, a) && InLoop(a)
    ensures CauseSound(cfg, Step(cfg, m, a))
  {
    hide Recovery.Usable, Grows, FactsOf, Verified, Shows, Reconcile, Disciplined, NoCandidate, Passes;
    if a.Invoke? {
      var h := Then(m.log, OpenCall(m.at.channel));
      assert Passed(h) == Passed(m.log);
    }
  }

  lemma CauseNoted(cfg: Config, m: Machine, a: Action)
    requires Enabled(cfg, m, a) && !InLoop(a)
    ensures var h := Step(cfg, m, a).log;
            && (Passed(h) <==> Passed(m.log) || (a.Decide? && a.known && a.device && Passes(a.decision, a.approved)))
            && (FoundNone(cfg, m.log) || (a.Pick? && a.choice.None?) ==> FoundNone(cfg, h))
            && (HasFlag(m.log) ==> HasFlag(h))
  {
    hide Resolver.IsChoice, Grows, Verified, NoCandidate, Passes;
    var h := Noted(m, a);
    assert (Passed(h) <==> Passed(m.log) || (a.Decide? && a.known && a.device && Passes(a.decision, a.approved)));
    assert FoundNone(cfg, m.log) || (a.Pick? && a.choice.None?) ==> FoundNone(cfg, h);
    assert HasFlag(m.log) ==> HasFlag(h);
  }

  lemma CauseOutside(cfg: Config, m: Machine, a: Action)
    requires Fitting(cfg, m) && Calls(cfg, m) && CauseSound(cfg, m) && Enabled(cfg, m, a) && !InLoop(a)
    ensures CauseSound(cfg, Step(cfg, m, a))
  {
    hide Resolver.IsChoice, Grows, Verified, Disciplined, NoCandidate, Passes;
    CauseNoted(cfg, m, a);
    hide Passed, FoundNone, HasFlag;
  }

  lemma CauseKeeps(cfg: Config, m: Machine, a: Action)
    requires Flow(cfg, m) && Calls(cfg, m) && CancelSound(m) && CauseSound(cfg, m) && Enabled(cfg, m, a)
    ensures CauseSound(cfg, Step(cfg, m, a))
  {
    hide Fitting, Calls, CancelSound, CauseSound, Step, Enabled, Path, LastState;
    if InLoop(a) { CauseInLoop(cfg, m, a); } else { CauseOutside(cfg, m, a); }
  }

  lemma StepKeeps(cfg: Config, m: Machine, a: Action)
    requires Inv(cfg, m) && Enabled(cfg, m, a)
    ensures Inv(cfg, Step(cfg, m, a))
  {
    hide Enabled, Step, Flow, Calls, Aim, Counted, CancelSound, SuccessSound, FailureSound, CauseSound;
    FlowKeeps(cfg, m, a);
    CallsKeep(cfg, m, a);
    AimKeeps(cfg, m, a);
    CountedKeeps(cfg, m, a);
    CancelKeeps(cfg, m, a);
    SuccessKeeps(cfg, m, a);
    FailureKeeps(cfg, m, a);
    CauseKeeps(cfg, m, a);
  }

  lemma {:induction false} RunKeeps(cfg: Config, m: Machine, acts: seq<Action>, n: Machine)
    requires Inv(cfg, m) && Run(cfg, m, acts, n)
    ensures Inv(cfg, n)
    decreases |acts|
  {
    hide Inv, Step, Enabled;
    if acts != [] {
      StepKeeps(cfg, m, acts[0]);
      RunKeeps(cfg, Step(cfg, m, acts[0]), acts[1..], n);
    }
  }

  lemma FreshSound(cfg: Config, chs: Channels)
    ensures Inv(cfg, Fresh(chs))
  {
  }

  // ---- Over whole runs ----

  ghost predicate Reachable(cfg: Config, m: Machine) {
    exists chs, acts :: Run(cfg, Fresh(chs), acts, m)
  }

  lemma ReachableSound(cfg: Config, m: Machine)
    requires Reachable(cfg, m)
    ensures Inv(cfg, m)
  {
    hide Inv;
    var chs, acts :| Run(cfg, Fresh(chs), acts, m);
    FreshSound(cfg, chs);
    RunKeeps(cfg, Fresh(chs), acts, m);
  }

  function Stage(s: OpState): nat {
    match s
    case Created => 0
    case Validating => 1
    case WaitingResource => 2
    case Resolving => 3
    case Running => 4
    case Verifying => 5
    case _ => 6
  }

  /** The states recorded, oldest first. */
  function States(h: History): (states: seq<OpState>)
    ensures |states| > 0
  {
    if h.Start? then [Created] else States(h.past) + if h.last.Moved? then [h.last.state] else []
  }

  /** Each state in a sequence is followed by one that may come next. */
  ghost predicate Linked(s: seq<OpState>) {
    forall i :: 0 <= i < |s| - 1 ==> Follows(s[i], s[i + 1])
  }

  lemma {:induction false} PathLinks(h: History)
    requires Path(h)
    ensures States(h)[0] == Created && States(h)[|States(h)| - 1] == LastState(h) && Linked(States(h))
  {
    if h.Then? { PathLinks(h.past); }
  }

  lemma {:induction false} LinksAdvance(s: seq<OpState>, i: nat, j: nat)
    requires Linked(s) && i < j < |s|
    ensures Stage(s[i]) < Stage(s[j]) && s[j] != TimedOut
  {
    assert Follows(s[j - 1], s[j]);
    if i < j - 1 { LinksAdvance(s, i, j - 1); }
  }

  /** The states an operation goes through advance strictly from CREATED, each following
      the one before; so only the last can be terminal, and it fits the phase it left. A
      terminal state comes with a stored result of that same state. TIMEOUT is declared
      and never reached. */
  lemma LifecycleAdvances(cfg: Config, m: Machine)
    requires Reachable(cfg, m)
    ensures var states := States(m.log);
            && states[|states| - 1] == m.state
            && (forall i, j :: 0 <= i < j < |states| ==> Stage(states[i]) < Stage(states[j]))
            && states[0] == Created && Linked(states)
    ensures IsTerminal(m.state) ==> m.result == Some(OpResult(cfg.op, m.state))
    ensures m.state != TimedOut
  {
    ReachableSound(cfg, m);
    PathLinks(m.log);
    var states := States(m.log);
    forall i, j | 0 <= i < j < |states| ensures Stage(states[i]) < Stage(states[j]) { LinksAdvance(states, i, j); }
    if |states| > 1 { LinksAdvance(states, 0, |states| - 1); }
  }

  /** Plugins are called only in RUNNING and past the policy gate; every Invoke is on a
      READY channel of the target device that offers the capability; there are at most
      maxRetries+1 Invokes and maxRetries Recovers, and at most one Invoke begins once
      the cancel flag is up. */
  lemma CallsAreGoverned(cfg: Config, m: Machine)
    requires Reachable(cfg, m)
    ensures Disciplined(cfg, m.log) && WellAimed(cfg, m.log)
    ensures Invokes(m.log) <= cfg.maxRetries + 1 && Recovers(m.log) <= cfg.maxRetries
    ensures LateInvokes(m.log) <= 1
  {
    ReachableSound(cfg, m);
  }

  lemma TerminalOver(cfg: Config, m: Machine)
    requires Inv(cfg, m)
    ensures IsTerminal(m.state) <==> m.at == Over
    ensures m.at in {Storing(Unknown), Ending(Unknown)} ==> m.state == Running
  {
    hide Path, LastState, Calls, Aim, Counted, CancelSound, SuccessSound, FailureSound, CauseSound;
  }

  /** SUCCEEDED is never fabricated and never withheld: with the operation over, it is that
      or VERIFY_FAILED exactly if the last call to the plugin was an Invoke without error
      or an observation of the requested version, and SUCCEEDED exactly if moreover no
      evidence that call came back with names another version. A flash that an answering
      device does not show ends UNKNOWN. */
  lemma SuccessIsProven(cfg: Config, m: Machine)
    requires Reachable(cfg, m)
    ensures IsTerminal(m.state) ==> (m.state in {Succeeded, VerifyFailed} <==> Proven(cfg, m.log))
    ensures m.state in {Succeeded, VerifyFailed} ==> Backed(cfg, m.log, m.evidence)
    ensures m.state in {Succeeded, VerifyFailed} ==> (m.state == Succeeded <==> Verified(cfg.request, m.evidence))
    ensures SawMismatch(cfg, m.log) ==> m.state in {Running, Unknown} && (m.state == Running ==> m.at in {Storing(Unknown), Ending(Unknown)})
  {
    ReachableSound(cfg, m);
    TerminalOver(cfg, m);
    hide Reachable, Flow, Calls, Aim, Counted, CancelSound, FailureSound, CauseSound, Verified, Backed, Proven, SawMismatch;
  }

  /** The ends exclude each other. */
  lemma EndsOnce(cfg: Config, calls: seq<PluginCall>, final: OpState)
    requires IsTerminal(final) && final != TimedOut && EndsAs(cfg, calls, final)
    requires final in {Succeeded, VerifyFailed} <==> ProvenBy(cfg, calls)
    ensures final == Unknown <==> Undecided(cfg, calls)
    ensures BrokeOff(cfg, calls) ==> final == RunFailed
  {
  }

  /** What refuses, finds nothing or cancels is on record. */
  lemma CausesMet(cfg: Config, m: Machine)
    requires Reachable(cfg, m)
    ensures IsTerminal(m.state) ==> (m.state == ValidationFailed <==> !Passed(m.log))
    ensures m.state == ResolveFailed ==> FoundNone(cfg, m.log)
    ensures m.state == Cancelled ==> HasFlag(m.log)
  {
    ReachableSound(cfg, m);
    hide Reachable, Path, Calls, Aim, Counted, CancelSound, SuccessSound, FailureSound, FoundNone, HasFlag, Passed;
  }

  lemma EndFits(cfg: Config, m: Machine)
    requires Reachable(cfg, m) && IsTerminal(m.state)
    ensures EndsAs(cfg, CallsOf(m.log), m.state)
    ensures m.state == RunFailed ==> !BetweenAttempts(CallsOf(m.log)) || LacksPlugin(cfg, m.chs)
  {
    ReachableSound(cfg, m);
    TerminalOver(cfg, m);
    hide Reachable, Flow, Calls, Aim, Counted, CancelSound, SuccessSound, CauseSound, CallsOf, LacksPlugin, EndsAs, BetweenAttempts;
  }

  lemma EndProven(cfg: Config, m: Machine)
    requires Reachable(cfg, m) && IsTerminal(m.state)
    ensures m.state in {Succeeded, VerifyFailed} <==> ProvenBy(cfg, CallsOf(m.log))
  {
    hide Reachable, Disciplined, WellAimed, Proven, ProvenBy, CallsOf;
    SuccessIsProven(cfg, m);
    CallsAreGoverned(cfg, m);
    CallsSound(cfg, m.log);
  }

  lemma NeverTimedOut(cfg: Config, m: Machine)
    requires Reachable(cfg, m)
    ensures m.state != TimedOut
  {
    hide *;
    LifecycleAdvances(cfg, m);
  }

  /** Nor is failure: VALIDATION_FAILED is had exactly without a passed gate, RESOLVE_FAILED
      only when no channel would do, CANCELLED only with the flag up. UNKNOWN is had exactly
      if the run ended on an observation that leaves the outcome open, recovery then at most
      failing: of an offline device that proved nothing, or of one that answers and does not
      have what was flashed. RUN_FAILED is had whenever the channel did not open, that
      observation failed, or it showed a device that answers and was not being flashed, and
      else only between attempts, when a channel for the operation has no plugin. */
  lemma FailureIsMet(cfg: Config, m: Machine)
    requires Reachable(cfg, m)
    ensures IsTerminal(m.state) ==> (m.state == ValidationFailed <==> !Passed(m.log))
    ensures m.state == ResolveFailed ==> FoundNone(cfg, m.log)
    ensures m.state == Cancelled ==> HasFlag(m.log)
    ensures IsTerminal(m.state) ==> (m.state == Unknown <==> Undecided(cfg, CallsOf(m.log)))
    ensures IsTerminal(m.state) && BrokeOff(cfg, CallsOf(m.log)) ==> m.state == RunFailed
    ensures m.state == RunFailed ==> BrokeOff(cfg, CallsOf(m.log)) || (BetweenAttempts(CallsOf(m.log)) && LacksPlugin(cfg, m.chs))
    ensures m.state == Cancelled ==> BetweenAttempts(CallsOf(m.log))
    ensures m.state in {ValidationFailed, ResourceFailed, ResolveFailed} ==> CallsOf(m.log) == []
  {
    hide Reachable, CallsOf, Undecided, BrokeOff, BetweenAttempts, LacksPlugin, Passed, FoundNone, HasFlag, ProvenBy;
    CausesMet(cfg, m);
    NeverTimedOut(cfg, m);
    if IsTerminal(m.state) {
      EndFits(cfg, m);
      EndProven(cfg, m);
      EndsOnce(cfg, CallsOf(m.log), m.state);
    }
  }

  /** The calls end on an observation that settles nothing: it failed, or showed neither
      success nor a flash gone missing. */
  ghost predicate EndsOpen(cfg: Config, calls: seq<PluginCall>) {
    && calls != [] && calls[|calls| - 1].Observing?
    && var seen := calls[|calls| - 1].seen;
       seen.None? || !(Shows(cfg.request, seen.value) || Mismatch(cfg.request, seen.value))
  }

  /** Recoveries are counted, and given up only when they are spent. */
  ghost predicate Persists(cfg: Config, p: Place, calls: seq<PluginCall>) {
    match p
    case Idle | AtGate | AtLocks | AtResolver => calls == []
    case AtTop(k, _) => RecoversIn(calls) == k && !EndsOpen(cfg, calls)
    case AtInvoke(k, _) => RecoversIn(calls) == k && !EndsOpen(cfg, calls)
    case AtObserve(k, _) => RecoversIn(calls) == k && !EndsOpen(cfg, calls)
    case AtRecovery(k, _, _) => RecoversIn(calls) == k
    case _ => EndsOpen(cfg, calls) ==> RecoversIn(calls) >= cfg.maxRetries
  }

  lemma {:induction false} NoneOpen(cfg: Config)
    ensures !EndsOpen(cfg, []) && RecoversIn([]) == 0
  {
  }

  lemma {:induction false} OneMore(calls: seq<PluginCall>, c: PluginCall)
    ensures RecoversIn(calls + [c]) == RecoversIn(calls) + if c.Recovering? then 1 else 0
  {
    assert (calls + [c])[..|calls|] == calls;
  }

  lemma PersistsInvoke(cfg: Config, m: Machine, a: Action, calls: seq<PluginCall>)
    requires Persists(cfg, m.at, calls) && Enabled(cfg, m, a) && a.Invoke?
    ensures Persists(cfg, Step(cfg, m, a).at, calls + CallsBy(cfg, m, a))
  {
    hide Grows, Shows, Mismatch, RecoversIn;
    var c := m.at.channel;
    var before := if a.known && m.chs[c].state != Ready then calls + [PluginCall.Opening(c)] else calls;
    OneMore(calls, PluginCall.Opening(c));
    OneMore(before, Invoking(c, a.ready[c], a.moment, a.answer));
    assert calls + CallsBy(cfg, m, a) == if a.known && a.opens then before + [Invoking(c, a.ready[c], a.moment, a.answer)] else before;
  }

  lemma PersistsObserve(cfg: Config, m: Machine, a: Action, calls: seq<PluginCall>)
    requires Persists(cfg, m.at, calls) && Enabled(cfg, m, a) && a.Observe?
    ensures Persists(cfg, Step(cfg, m, a).at, calls + CallsBy(cfg, m, a))
  {
    if a.seen.Some? { DecisionMeans(cfg.request, a.seen.value); }
    hide Grows, Shows, Mismatch, RecoversIn, FactsOf, Reconcile;
    OneMore(calls, Observing(a.seen));
  }

  lemma PersistsRecover(cfg: Config, m: Machine, a: Action, calls: seq<PluginCall>)
    requires Persists(cfg, m.at, calls) && Enabled(cfg, m, a) && a.Recover?
    ensures Persists(cfg, Step(cfg, m, a).at, calls + CallsBy(cfg, m, a))
  {
    hide Grows, Shows, Mismatch, RecoversIn, Recovery.Usable;
    OneMore(calls, PluginCall.Recovering(m.at.channel, a.alt));
  }

  lemma PersistsElse(cfg: Config, m: Machine, a: Action, calls: seq<PluginCall>)
    requires Persists(cfg, m.at, calls) && Enabled(cfg, m, a) && !(a.Invoke? || a.Observe? || a.Recover?)
    ensures Persists(cfg, Step(cfg, m, a).at, calls + CallsBy(cfg, m, a))
  {
    hide Grows, RecoversIn, Resolver.IsChoice, NoCandidate, Verified, Passes, Noted, CallsOf, EndsOpen;
    NoneOpen(cfg);
    assert calls + CallsBy(cfg, m, a) == calls;
  }

  lemma PersistsKeeps(cfg: Config, m: Machine, a: Action, calls: seq<PluginCall>)
    requires Persists(cfg, m.at, calls) && Enabled(cfg, m, a)
    ensures Persists(cfg, Step(cfg, m, a).at, calls + CallsBy(cfg, m, a))
  {
    hide *;
    if a.Invoke? {
      PersistsInvoke(cfg, m, a, calls);
    } else if a.Observe? {
      PersistsObserve(cfg, m, a, calls);
    } else if a.Recover? {
      PersistsRecover(cfg, m, a, calls);
    } else {
      PersistsElse(cfg, m, a, calls);
    }
  }

  lemma {:induction false} PersistsRun(cfg: Config, m: Machine, acts: seq<Action>, n: Machine)
    requires Persists(cfg, m.at, CallsOf(m.log)) && Run(cfg, m, acts, n)
    ensures Persists(cfg, n.at, CallsOf(n.log))
    decreases |acts|
  {
    hide Persists, Step, Enabled, CallsBy, CallsOf;
    if acts != [] {
      PersistsKeeps(cfg, m, acts[0], CallsOf(m.log));
      CallsGrow(cfg, m, acts[0]);
      PersistsRun(cfg, Step(cfg, m, acts[0]), acts[1..], n);
    }
  }

  /** A run does not give up early: if its calls end on an observation that settles nothing,
      every retry was used. */
  lemma GivesUpLast(cfg: Config, m: Machine)
    requires Reachable(cfg, m) && IsTerminal(m.state)
    ensures EndsOpen(cfg, CallsOf(m.log)) ==> RecoversIn(CallsOf(m.log)) == cfg.maxRetries
  {
    hide Step, Enabled;
    ReachableSound(cfg, m);
    CallsAreGoverned(cfg, m);
    CallsSound(cfg, m.log);
    TerminalOver(cfg, m);
    var chs, acts :| Run(cfg, Fresh(chs), acts, m);
    PersistsRun(cfg, Fresh(chs), acts, m);
  }

  lemma OverIsTerminal(cfg: Config, m: Machine)
    requires Reachable(cfg, m) && m.at == Over
    ensures IsTerminal(m.state)
  {
    ReachableSound(cfg, m);
    hide Reachable;
    TerminalOver(cfg, m);
  }

  /** Execute again, once the operation is over, changes nothing: no call, no state. */
  lemma AgainChangesNothing(cfg: Config, m: Machine)
    requires Reachable(cfg, m) && m.at == Over
    ensures Step(cfg, m, Again) == m
  {
    OverIsTerminal(cfg, m);
    hide Reachable, Heads, CallsOf, InvokeStep, Move, Noted, Passes, Verified, Reconcile, FinalState, Resolver.IsChoice, NoCandidate;
    hide Grows, FactsOf, Recovery.Usable;
  }

  predicate Own(a: Action) {
    !(a.Again? || a.Cancel? || a.Others?)
  }

  function OwnSteps(acts: seq<Action>): nat {
    if acts == [] then 0 else (if Own(acts[0]) then 1 else 0) + OwnSteps(acts[1..])
  }

  /** How many steps Execute still has, at most. */
  function Left(cfg: Config, p: Place): int {
    match p
    case Over => 0
    case Ending(_) => 1
    case Storing(_) => 2
    case AtVerify(_) => 3
    case Invoked(_) => 4
    case AtRecovery(k, _, _) => 5 + 4 * (cfg.maxRetries - k)
    case AtObserve(k, _) => 6 + 4 * (cfg.maxRetries - k)
    case AtInvoke(k, _) => 7 + 4 * (cfg.maxRetries - k)
    case AtTop(k, _) => 8 + 4 * (cfg.maxRetries - k)
    case AtResolver => 9 + 4 * cfg.maxRetries
    case AtLocks => 10 + 4 * cfg.maxRetries
    case AtGate => 11 + 4 * cfg.maxRetries
    case Idle => 12 + 4 * cfg.maxRetries
  }

  lemma LeftInLoop(cfg: Config, m: Machine, a: Action)
    requires Counted(cfg, m) && Enabled(cfg, m, a) && InLoop(a)
    ensures Left(cfg, m.at) >= 0
    ensures if Own(a) then Left(cfg, Step(cfg, m, a).at) < Left(cfg, m.at) else Step(cfg, m, a).at == m.at
  {
    hide Resolver.IsChoice, Recovery.Usable, Grows, FactsOf, Verified, Reconcile, Passes, Invokes, Recovers;
  }

  lemma LeftOutside(cfg: Config, m: Machine, a: Action)
    requires Counted(cfg, m) && Enabled(cfg, m, a) && !InLoop(a)
    ensures Left(cfg, m.at) >= 0
    ensures if Own(a) then Left(cfg, Step(cfg, m, a).at) < Left(cfg, m.at) else Step(cfg, m, a).at == m.at
  {
    hide Resolver.IsChoice, Recovery.Usable, Grows, FactsOf, Verified, Reconcile, Passes, Invokes, Recovers;
  }

  lemma StepsRunOut(cfg: Config, m: Machine, a: Action)
    requires Inv(cfg, m) && Enabled(cfg, m, a)
    ensures Left(cfg, m.at) >= 0
    ensures if Own(a) then Left(cfg, Step(cfg, m, a).at) < Left(cfg, m.at) else Step(cfg, m, a).at == m.at
  {
    hide Step, Enabled, Counted, Left, Own, Flow, Calls, Aim, CancelSound, SuccessSound, FailureSound, CauseSound;
    if InLoop(a) { LeftInLoop(cfg, m, a); } else { LeftOutside(cfg, m, a); }
  }

  lemma Cancellable(cfg: Config, m: Machine)
    ensures Enabled(cfg, m, Cancel)
  {
  }

  /** In any run Execute itself takes at most 4*maxRetries+12 steps, whatever Cancels and
      other changes come between. */
  lemma {:induction false} ExecuteEnds(cfg: Config, m: Machine, acts: seq<Action>, n: Machine)
    requires Inv(cfg, m) && Run(cfg, m, acts, n)
    ensures OwnSteps(acts) + Left(cfg, n.at) <= Left(cfg, m.at) && Left(cfg, n.at) >= 0
    ensures Left(cfg, Idle) == 4 * cfg.maxRetries + 12
    decreases |acts|
  {
    hide Inv, Step, Enabled;
    if acts != [] {
      StepKeeps(cfg, m, acts[0]);
      StepsRunOut(cfg, m, acts[0]);
      ExecuteEnds(cfg, Step(cfg, m, acts[0]), acts[1..], n);
    } else {
      StepsRunOut(cfg, m, Cancel) by { Cancellable(cfg, m); }
    }
  }

  /** Short of the end Execute always has a step, and it ends in a terminal state only. */
  lemma ExecuteGoesOn(cfg: Config, m: Machine) returns (a: Action)
    requires Reachable(cfg, m)
    ensures m.at != Over ==> Own(a) && Enabled(cfg, m, a)
    ensures m.at == Over <==> IsTerminal(m.state)
  {
    ReachableSound(cfg, m);
    match m.at
    case Idle => a := Enter;
    case AtGate => a := Decide(cfg.known, false, AccessPolicy.Deny, false);
    case AtLocks => a := Lock(false);
    case AtResolver =>
      var choice := Resolver.ChoiceOrNone(m.chs, cfg.request.target, cfg.request.capability, cfg.request.channelType);
      a := Pick(choice);
    case AtTop(_, _) => a := Top;
    case AtInvoke(_, c) =>
      var known, opens := m.chs[c].plugin in cfg.plugins, m.chs[c].state == Ready;
      a := Invoke(known, opens, m.chs, Locks.Moment(map[], 0), Answer.Raised(RecoveryLadder.Other));
    case AtObserve(_, _) => a := Observe(None, []);
    case AtRecovery(k, _, _) => a := if k >= cfg.maxRetries then GiveUp else Recover(m.chs, None);
    case Invoked(_) => a := Advance;
    case AtVerify(_) => a := Verify;
    case Storing(_) => a := Store;
    case Ending(_) => a := End;
    case Over => a := Again;
  }

  // ---- The channel type asked for ----

  /** Every Invoke was on a channel of the type the request asks for, if it asks for one. */
  ghost predicate OnType(cfg: Config, h: History) {
    h.Then? ==> OnType(cfg, h.past) &&
                (h.last.InvokeCall? ==> cfg.request.channelType == "" || h.last.record.channelType == cfg.request.channelType)
  }

  ghost predicate IsType(cfg: Config, chs: Channels, c: string) {
    c in chs && (cfg.request.channelType == "" || chs[c].channelType == cfg.request.channelType)
  }

  /** So far on type, and about to stay so. */
  ghost predicate TypeSound(cfg: Config, m: Machine) {
    && OnType(cfg, m.log)
    && match m.at
       case AtTop(_, c) => IsType(cfg, m.chs, c)
       case AtInvoke(_, c) => IsType(cfg, m.chs, c)
       case _ => true
  }

  lemma TypeInLoop(cfg: Config, m: Machine, a: Action)
    requires TypeSound(cfg, m) && Aim(cfg, m) && Enabled(cfg, m, a)
    requires cfg.request.channelType == "" || cfg.maxRetries == 0
    requires InLoop(a)
    ensures TypeSound(cfg, Step(cfg, m, a))
  {
    hide FactsOf, Verified, Reconcile, WellAimed, Passes;
    AimKeeps(cfg, m, a);
    if a.Invoke? {
      var h := Then(m.log, OpenCall(m.at.channel));
      assert OnType(cfg, h);
    }
  }

  lemma TypeOutside(cfg: Config, m: Machine, a: Action)
    requires TypeSound(cfg, m) && Aim(cfg, m) && Enabled(cfg, m, a)
    requires cfg.request.channelType == "" || cfg.maxRetries == 0
    requires !InLoop(a)
    ensures TypeSound(cfg, Step(cfg, m, a))
  {
    hide FactsOf, Verified, Reconcile, WellAimed, Passes;
    AimKeeps(cfg, m, a);
    if a.Decide? || a.Pick? {
      var h := Noted(m, a);
      assert OnType(cfg, h);
    }
  }

  lemma TypeKeeps(cfg: Config, m: Machine, a: Action)
    requires TypeSound(cfg, m) && Aim(cfg, m) && Enabled(cfg, m, a)
    requires cfg.request.channelType == "" || cfg.maxRetries == 0
    ensures TypeSound(cfg, Step(cfg, m, a))
  {
    hide *;
    if InLoop(a) { TypeInLoop(cfg, m, a); } else { TypeOutside(cfg, m, a); }
  }

  lemma {:induction false} TypeRun(cfg: Config, m: Machine, acts: seq<Action>, n: Machine)
    requires TypeSound(cfg, m) && Inv(cfg, m) && Run(cfg, m, acts, n)
    requires cfg.request.channelType == "" || cfg.maxRetries == 0
    ensures TypeSound(cfg, n)
    decreases |acts|
  {
    hide Step, Enabled, TypeSound;
    if acts != [] {
      StepKeeps(cfg, m, acts[0]);
      TypeKeeps(cfg, m, acts[0]);
      TypeRun(cfg, Step(cfg, m, acts[0]), acts[1..], n);
    }
  }

  lemma {:induction false} NeverInvokesRun(cfg: Config, m: Machine, acts: seq<Action>, n: Machine)
    requires OnType(cfg, m.log) && cfg.plugins == {} && Run(cfg, m, acts, n)
    ensures OnType(cfg, n.log)
    decreases |acts|
  {
    if acts != [] {
      var a := acts[0];
      if a.Decide? || a.Pick? { assert OnType(cfg, Noted(m, a)); }
      NeverInvokesRun(cfg, Step(cfg, m, a), acts[1..], n);
    }
  }

  /** Without a descriptor the gate is never passed. */
  lemma {:induction false} NeverPasses(cfg: Config, m: Machine, acts: seq<Action>, n: Machine)
    requires OnType(cfg, m.log) && !PastGate(m.at) && !cfg.known && Run(cfg, m, acts, n)
    ensures OnType(cfg, n.log)
    decreases |acts|
  {
    if acts != [] {
      var a := acts[0];
      if a.Decide? || a.Pick? { assert OnType(cfg, Noted(m, a)); }
      NeverPasses(cfg, Step(cfg, m, a), acts[1..], n);
    }
  }

  lemma NeverInvokes(cfg: Config, m: Machine)
    requires Reachable(cfg, m) && (cfg.plugins == {} || !cfg.known)
    ensures OnType(cfg, m.log)
  {
    var chs, acts :| Run(cfg, Fresh(chs), acts, m);
    if cfg.known { NeverInvokesRun(cfg, Fresh(chs), acts, m); } else { NeverPasses(cfg, Fresh(chs), acts, m); }
  }

  lemma ReachableByStep(cfg: Config, m: Machine, a: Action)
    requires Reachable(cfg, m) && Enabled(cfg, m, a)
    ensures Reachable(cfg, Step(cfg, m, a))
  {
    hide Step, Enabled;
    var chs, acts :| Run(cfg, Fresh(chs), acts, m);
    LeadsByStep(cfg, m, a);
    var more :| Run(cfg, m, more, Step(cfg, m, a));
    RunConcat(cfg, Fresh(chs), acts, m, more, Step(cfg, m, a));
  }

  /** The run up to the first attempt, on the channel that the resolver picks. */
  lemma AtFirst(cfg: Config, chs: Channels, c: string) returns (m: Machine)
    requires cfg.known && Resolver.IsChoice(chs, c, cfg.request.target, cfg.request.capability, cfg.request.channelType)
    ensures Reachable(cfg, m) && m.at == AtTop(0, c) && m.chs == chs && !m.cancel
  {
    hide Resolver.IsChoice;
    m := Fresh(chs);
    assert Run(cfg, m, [], m);
    ReachableByStep(cfg, m, Enter);
    m := Step(cfg, m, Enter);
    var pass := Decide(true, true, AccessPolicy.Allow, false);
    ReachableByStep(cfg, m, pass);
    m := Step(cfg, m, pass);
    if cfg.locks {
      ReachableByStep(cfg, m, Lock(true));
      m := Step(cfg, m, Lock(true));
    }
    ReachableByStep(cfg, m, Pick(Some(c)));
    m := Step(cfg, m, Pick(Some(c)));
  }

  /** An attempt on a READY channel that fails, and no observation. */
  lemma FailsOn(cfg: Config, m: Machine, k: nat, c: string) returns (n: Machine)
    requires Reachable(cfg, m) && m.at == AtTop(k, c) && !m.cancel && c in m.chs && m.chs[c].state == Ready && m.chs[c].plugin in cfg.plugins
    ensures Reachable(cfg, n) && n.at == AtRecovery(k, c, Retry) && n.chs == m.chs && !n.cancel
    ensures n.log == Then(Then(m.log, InvokeCall(c, m.chs[c], Locks.Moment(map[], 0), Answer.Raised(RecoveryLadder.Other))), ObserveCall(None))
  {
    ReachableByStep(cfg, m, Top);
    n := Step(cfg, m, Top);
    var a := Invoke(true, true, m.chs, Locks.Moment(map[], 0), Answer.Raised(RecoveryLadder.Other));
    ReachableByStep(cfg, n, a);
    n := Step(cfg, n, a);
    ReachableByStep(cfg, n, Observe(None, []));
    n := Step(cfg, n, Observe(None, []));
  }

  lemma FailsOnBoth(cfg: Config, chs: Channels, c: string, alt: string) returns (m: Machine)
    requires cfg.known && cfg.maxRetries > 0 && c in chs && chs[c].state == Ready && chs[c].plugin in cfg.plugins
    requires alt in chs && chs[alt].state == Ready && chs[alt].plugin in cfg.plugins
    requires Resolver.IsChoice(chs, c, cfg.request.target, cfg.request.capability, cfg.request.channelType)
    requires Recovery.Usable(chs, chs, c, cfg.request.capability, alt)
    ensures Reachable(cfg, m) && m.log.Then? && m.log.past.Then?
    ensures m.log.past.last == InvokeCall(alt, chs[alt], Locks.Moment(map[], 0), Answer.Raised(RecoveryLadder.Other))
  {
    hide Resolver.IsChoice, Recovery.Usable, Reachable;
    m := AtFirst(cfg, chs, c);
    m := FailsOn(cfg, m, 0, c);
    var a := Recover(chs, Some(alt));
    ReachableByStep(cfg, m, a);
    m := FailsOn(cfg, Step(cfg, m, a), 1, alt);
  }

  /** A run with a retry that goes on a channel of another type: recovery does not ask
      for the type. */
  lemma ReboundToAnotherType(cfg: Config) returns (m: Machine)
    requires cfg.request.channelType != "" && cfg.maxRetries > 0 && cfg.plugins != {} && cfg.known
    ensures Reachable(cfg, m) && !OnType(cfg, m.log)
  {
    var plugin :| plugin in cfg.plugins;
    var r := cfg.request;
    var first := Channel(plugin, r.channelType, "e", r.target, Ready, true, 0, {r.capability});
    var other := first.(channelType := r.channelType + "x");
    var chs := map["a" := first, "b" := other];
    assert Resolver.IsChoice(chs, "a", r.target, r.capability, r.channelType);
    assert Recovery.Usable(chs, chs, "a", r.capability, "b");
    m := FailsOnBoth(cfg, chs, "a", "b");
  }

  /** Every Invoke of every run is on a channel of the type asked for if and only if none
      is asked for, or nothing is retried, or no plugin is there to invoke. */
  lemma ChannelTypeExactly(cfg: Config)
    ensures (forall m :: Reachable(cfg, m) ==> OnType(cfg, m.log)) <==>
              (cfg.request.channelType == "" || cfg.maxRetries == 0 || cfg.plugins == {} || !cfg.known)
  {
    if cfg.plugins == {} || !cfg.known {
      forall m | Reachable(cfg, m) ensures OnType(cfg, m.log) { NeverInvokes(cfg, m); }
    } else if cfg.request.channelType == "" || cfg.maxRetries == 0 {
      forall m | Reachable(cfg, m) ensures OnType(cfg, m.log) {
        var chs, acts :| Run(cfg, Fresh(chs), acts, m);
        FreshSound(cfg, chs);
        TypeRun(cfg, Fresh(chs), acts, m);
      }
    } else {
      var m := ReboundToAnotherType(cfg);
    }
  }
}

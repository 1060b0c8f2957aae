/** core/recovery/recovery.go: the manager that runs the ladder on a failed channel. What
    a plugin answers and does to the channel's state is arbitrary, save that a recovery
    it reports as done leaves the channel READY. */
module Recovery {
  import opened RegistryStore
  import opened Results
  import opened RecoveryLadder
  import Resolver
  import Scan = Discovery

  datatype RecoveryState = Recovered | RecoveryFailed | Manual

  /** No level stands for manual intervention. */
  datatype Outcome = Outcome(state: RecoveryState, recovered: bool, level: Option<Level>, channel: ID)

  datatype Event = Started(channel: ID) | Step(channel: ID, level: Level) | Completed(channel: ID) | Exhausted(channel: ID)

  function Steps(channel: ID, levels: seq<Level>): seq<Event> {
    seq(|levels|, i requires 0 <= i < |levels| => Step(channel, levels[i]))
  }

  /** What recovery does about a channel: a plugin's Recover called, with its answer, the
      channel resolved anew, with the choice, and the endpoints discovered anew. */
  datatype Deed = Asked(channel: ID, ok: bool) | Resolved(channel: ID, alt: Option<ID>) | Rediscovered

  /** A level tried, with the channel it came to if it worked. */
  function DeedsOf(channel: ID, l: Level, alt: Option<ID>): seq<Deed> {
    match l
    case L2Reconnect | L5DeviceRecovery => [Asked(channel, alt.Some?)]
    case L3ReResolve => [Resolved(channel, alt)]
    case L4Rediscover => [Rediscovered, Resolved(channel, alt)]
  }

  function AllFailed(channel: ID, levels: seq<Level>): seq<Deed> {
    if levels == [] then [] else AllFailed(channel, levels[..|levels| - 1]) + DeedsOf(channel, levels[|levels| - 1], None)
  }

  /** All that one call does: the levels tried, the last of them with success if one works. */
  ghost function Performed(channel: ID, used: ID, plan: seq<Level>, works: set<Level>): seq<Deed> {
    var tried := Tried(plan, works);
    var n := |tried| - 1;
    if Worked(plan, works) && tried != [] then AllFailed(channel, tried[..n]) + DeedsOf(channel, tried[n], Some(used))
    else AllFailed(channel, tried)
  }

  /** What the manager knows and has done, as far as one channel is concerned. */
  datatype Ledger = Ledger(st: AttemptState, published: seq<Event>, deeds: seq<Deed>)

  /** No READY channel of the device but this one offers the capability. */
  ghost predicate NoOther(chs: map<ID, Channel>, c: ID, device: ID, cap: string) {
    forall x :: x != c ==> !Offers(chs, x, device, cap)
  }

  /** A level's action: asking the plugin concerns the failed channel alone, resolving finds
      the best other channel that will do, or there is none. */
  ghost predicate Acted(before: map<ID, Channel>, after: map<ID, Channel>, c: ID, cap: string, l: Level, alt: Option<ID>)
    requires c in before
  {
    match l
    case L2Reconnect | L5DeviceRecovery => c in after && after == before[c := after[c]] && (alt.Some? ==> alt.value == c)
    case _ =>
      if alt.Some? then alt.value != c && Resolver.IsChoice(after, alt.value, before[c].device, cap, "")
      else NoOther(after, c, before[c].device, cap)
  }

  /** The channel recovery hands back: the failed one, READY again, or another READY one
      of the same device that offers the capability. */
  ghost predicate Usable(before: map<ID, Channel>, after: map<ID, Channel>, failed: ID, cap: string, c: ID)
    requires failed in before
  {
    if c == failed then c in after && after[c].state == Ready
    else Offers(after, c, before[failed].device, cap)
  }

  /** Where a climb starts: the channel's account, the channels, the events and the
      accounts of other channels, the devices and what was done before. */
  datatype Foot = Foot(channel: ID, cap: string, st: AttemptState, chs: map<ID, Channel>, devices: set<ID>,
                       pub: seq<Event>, deeds: seq<Deed>, looks: seq<map<ID, Channel>>, others: map<ID, AttemptState>)

  /** The level asks the resolver. */
  predicate Asks(l: Level) {
    l == L3ReResolve || l == L4Rediscover
  }

  /** How many of these levels do. */
  function Lookups(levels: seq<Level>): nat {
    if levels == [] then 0 else Lookups(levels[..|levels| - 1]) + if Asks(levels[|levels| - 1]) then 1 else 0
  }

  /** The resolver was asked that many times since, and each time there was no other channel
      that would do among those there were then. */
  ghost predicate NoneThen(before: seq<map<ID, Channel>>, after: seq<map<ID, Channel>>, n: nat, c: ID, device: ID, cap: string) {
    before <= after && |after| == |before| + n && forall k :: |before| <= k < |after| ==> NoOther(after[k], c, device, cap)
  }

  /** Another channel was looked for by each level that looks for one, and there was none. */
  ghost predicate Exhaustive(s: Foot, failed: seq<Level>, looks: seq<map<ID, Channel>>) {
    s.channel in s.chs && NoneThen(s.looks, looks, Lookups(failed), s.channel, s.chs[s.channel].device, s.cap)
  }

  lemma LookupsStep(levels: seq<Level>, l: Level)
    ensures Lookups(levels + [l]) == Lookups(levels) + if Asks(l) then 1 else 0
  {
  }

  lemma ExhaustiveStep(s: Foot, failed: seq<Level>, l: Level, looks: seq<map<ID, Channel>>, mid: map<ID, Channel>, after: map<ID, Channel>)
    requires Exhaustive(s, failed, looks) && s.channel in mid && Grows(s.chs, mid) && Acted(mid, after, s.channel, s.cap, l, None)
    ensures Exhaustive(s, failed + [l], looks + if Asks(l) then [after] else [])
  {
    LookupsStep(failed, l);
    assert s.channel in s.chs && SameChannel(s.chs[s.channel], mid[s.channel]);
    hide NoOther;
  }

  lemma HandedBack(s: Foot, mid: map<ID, Channel>, after: map<ID, Channel>, l: Level, alt: ID)
    requires s.channel in s.chs && s.channel in mid && Grows(s.chs, mid) && Acted(mid, after, s.channel, s.cap, l, Some(alt))
    ensures alt == s.channel <==> l == L2Reconnect || l == L5DeviceRecovery
    ensures alt != s.channel ==> Resolver.IsChoice(after, alt, s.chs[s.channel].device, s.cap, "")
  {
  }

  /** The budget a channel has spent: an absent entry is a fresh one. */
  function SpentOn(attempts: map<ID, AttemptState>, c: ID): AttemptState {
    if c in attempts then attempts[c] else FRESH
  }

  /** A level that may be tried after these failed. */
  ghost predicate Above(failed: seq<Level>, l: Level) {
    |failed| <= 3 && l !in failed
  }

  /** The levels so far, and the next if it is planned. */
  function Next(levels: seq<Level>, planned: bool, l: Level): seq<Level> {
    if planned then levels + [l] else levels
  }

  /** The levels that leave devices and endpoints alone. */
  function LowRungs(resolver: bool, err: Error): seq<Level> {
    Next(Next([], CanReconnect(err), L2Reconnect), resolver && CanReResolve(err), L3ReResolve)
  }

  lemma LowRungsClimb(resolver: bool, err: Error, p: seq<Level>)
    requires p == Next([], CanReconnect(err), L2Reconnect)
    ensures LowRungs(resolver, err) == Next(p, resolver && CanReResolve(err), L3ReResolve) && p <= LowRungs(resolver, err)
    ensures Above([], L2Reconnect) && Above(p, L3ReResolve)
  {
  }

  lemma PlanClimbs(b: Budget, resolver: bool, discovery: bool, st: AttemptState, err: Error, r: seq<Level>, plan: seq<Level>)
    requires st.attempts < b.maxAttempts && r == Next(LowRungs(resolver, err), discovery && CanRediscover(err), L4Rediscover)
    requires plan == Next(r, CanDeviceRecover(err) && st.deviceResets < b.maxDeviceResets, L5DeviceRecovery)
    ensures plan == Plan(b, resolver, discovery, st, err) && LowRungs(resolver, err) <= r <= plan
    ensures Above(LowRungs(resolver, err), L4Rediscover) && Above(r, L5DeviceRecovery)
  {
  }

  lemma LowBegins(b: Budget, resolver: bool, discovery: bool, st: AttemptState, err: Error)
    requires st.attempts < b.maxAttempts
    ensures LowRungs(resolver, err) <= Plan(b, resolver, discovery, st, err)
  {
  }

  /** The failed levels and the one that worked begin the plan. */
  lemma Begins(failed: seq<Level>, planned: bool, l: Level, next: seq<Level>, plan: seq<Level>)
    requires planned && next == Next(failed, planned, l) && next <= plan && Above(failed, l)
    ensures failed + [l] <= plan && l !in failed
  {
  }

  lemma NoPlan(b: Budget, resolver: bool, discovery: bool, st: AttemptState, err: Error)
    requires st.attempts >= b.maxAttempts
    ensures Plan(b, resolver, discovery, st, err) == []
  {
  }

  /** The budget once these levels failed. */
  function Climbed(st: AttemptState, levels: seq<Level>): AttemptState {
    AttemptState(st.attempts + |levels|, st.deviceResets + if L5DeviceRecovery in levels then 1 else 0)
  }

  function More(st: AttemptState, level: Level): AttemptState {
    AttemptState(st.attempts + 1, st.deviceResets + if level == L5DeviceRecovery then 1 else 0)
  }

  lemma ClimbedStep(channel: ID, st: AttemptState, levels: seq<Level>, l: Level)
    requires l !in levels
    ensures Climbed(st, levels + [l]) == More(Climbed(st, levels), l)
    ensures Steps(channel, levels + [l]) == Steps(channel, levels) + [Step(channel, l)]
    ensures AllFailed(channel, levels + [l]) == AllFailed(channel, levels) + DeedsOf(channel, l, None)
  {
  }

  /** The events of one call, in order. */
  ghost function Announced(b: Budget, st: AttemptState, channel: ID, used: ID, plan: seq<Level>, works: set<Level>): seq<Event> {
    if st.attempts >= b.maxAttempts then []
    else [Started(channel)] + Steps(channel, Tried(plan, works)) + [if Worked(plan, works) then Completed(used) else Exhausted(channel)]
  }

  /** The outcome names the level that worked, or none: with the budget spent before the
      call recovery has failed, otherwise a human has to act. */
  ghost predicate Reports(r: Outcome, b: Budget, st: AttemptState, channel: ID, plan: seq<Level>, works: set<Level>) {
    var tried := Tried(plan, works);
    && r.state == (if Worked(plan, works) then Recovered else if st.attempts >= b.maxAttempts then RecoveryFailed else Manual)
    && (r.recovered <==> Worked(plan, works))
    && (r.recovered ==> tried != [] && r.level == Some(tried[|tried| - 1]))
    && (!r.recovered ==> r.level == None && r.channel == channel)
  }

  /** From one ledger to the next by one call for this error: spent, reported, announced and
      done is what the ladder says for the levels that worked. */
  ghost predicate Called(b: Budget, resolver: bool, discovery: bool, channel: ID, err: Error, before: Ledger, after: Ledger, r: Outcome,
                         works: set<Level>) {
    var plan := Plan(b, resolver, discovery, before.st, err);
    && after.st == Spent(b, before.st, plan, works) && Reports(r, b, before.st, channel, plan, works)
    && after.published == before.published + Announced(b, before.st, channel, r.channel, plan, works)
    && after.deeds == before.deeds + Performed(channel, r.channel, plan, works)
  }

  lemma StepIn(channel: ID, levels: seq<Level>, l: Level)
    ensures Step(channel, l) in Steps(channel, levels) <==> l in levels
  {
    assert forall i :: 0 <= i < |levels| ==> Steps(channel, levels)[i] == Step(channel, levels[i]);
  }

  /** What was done for levels that failed: the plugin asked for L2 and L5, endpoints
      discovered for L4. */
  lemma {:induction false} FailedDeeds(channel: ID, levels: seq<Level>)
    ensures var deeds := AllFailed(channel, levels);
            && (Asked(channel, false) in deeds <==> L2Reconnect in levels || L5DeviceRecovery in levels)
            && Asked(channel, true) !in deeds
            && (Rediscovered in deeds <==> L4Rediscover in levels)
  {
    if levels != [] { FailedDeeds(channel, levels[..|levels| - 1]); }
  }

  /** The level that worked ends what was tried, and no level is tried twice. */
  lemma TriedMeans(plan: seq<Level>, works: set<Level>, l: Level, last: Level)
    requires forall i, j :: 0 <= i < j < |plan| ==> Rank(plan[i]) < Rank(plan[j])
    requires Tried(plan, works) != [] && Tried(plan, works)[|Tried(plan, works)| - 1] == last
    ensures l in Tried(plan, works) <==> l in plan && Rank(l) <= Rank(last)
  {
    TriedIsPrefix(plan, works);
    var n := |Tried(plan, works)|;
    assert forall i :: 0 <= i < n ==> Tried(plan, works)[i] == plan[i];
  }

  lemma {:induction false} AllTried(plan: seq<Level>, works: set<Level>)
    ensures Tried(plan, works) == plan || Worked(plan, works)
  {
    TriedIsPrefix(plan, works);
    var t := Tried(plan, works);
    if t != plan { assert plan[|t| - 1] in plan; }
  }

  /** A call tries the levels of its plan up to the one that worked, or all. */
  lemma LevelsTried(b: Budget, resolver: bool, discovery: bool, channel: ID, err: Error, st: AttemptState, r: Outcome, works: set<Level>, l: Level)
    requires Reports(r, b, st, channel, Plan(b, resolver, discovery, st, err), works)
    ensures var plan := Plan(b, resolver, discovery, st, err);
            l in Tried(plan, works) <==> l in plan && (r.level.Some? ==> Rank(l) <= Rank(r.level.value))
  {
    var plan := Plan(b, resolver, discovery, st, err);
    PlanAscends(b, resolver, discovery, st, err);
    hide Plan;
    if r.recovered { TriedMeans(plan, works, l, r.level.value); } else { AllTried(plan, works); }
  }

  /** The events of one call have a step for exactly the levels tried. */
  lemma {:induction false} StepsTold(b: Budget, st: AttemptState, channel: ID, used: ID, plan: seq<Level>, works: set<Level>, l: Level)
    requires st.attempts >= b.maxAttempts ==> plan == []
    ensures Step(channel, l) in Announced(b, st, channel, used, plan, works) <==> l in Tried(plan, works)
  {
    StepIn(channel, Tried(plan, works), l);
  }

  /** And its deeds are asking the plugin for L2 and L5, and discovering for L4. */
  lemma {:induction false} DeedsTold(channel: ID, used: ID, plan: seq<Level>, works: set<Level>)
    ensures var deeds, tried := Performed(channel, used, plan, works), Tried(plan, works);
            && (Asked(channel, true) in deeds || Asked(channel, false) in deeds <==> L2Reconnect in tried || L5DeviceRecovery in tried)
            && (Rediscovered in deeds <==> L4Rediscover in tried)
  {
    var tried := Tried(plan, works);
    FailedDeeds(channel, tried);
    if tried != [] {
      var n := |tried| - 1;
      FailedDeeds(channel, tried[..n]);
      assert tried == tried[..n] + [tried[n]];
    }
  }

  lemma NoPlanLeft(b: Budget, resolver: bool, discovery: bool, st: AttemptState, err: Error)
    ensures st.attempts >= b.maxAttempts ==> Plan(b, resolver, discovery, st, err) == []
  {
  }

  lemma CalledStep(b: Budget, resolver: bool, discovery: bool, channel: ID, err: Error, before: Ledger, after: Ledger, r: Outcome,
                   works: set<Level>, l: Level)
    requires Called(b, resolver, discovery, channel, err, before, after, r, works)
    ensures before.published <= after.published && before.deeds <= after.deeds
    ensures var plan, news := Plan(b, resolver, discovery, before.st, err), after.published[|before.published|..];
            && (Step(channel, l) in news <==> l in plan && (r.level.Some? ==> Rank(l) <= Rank(r.level.value)))
            && (Step(channel, l) in news <==> l in Tried(plan, works))
  {
    var plan := Plan(b, resolver, discovery, before.st, err);
    assert after.published[|before.published|..] == Announced(b, before.st, channel, r.channel, plan, works);
    LevelsTried(b, resolver, discovery, channel, err, before.st, r, works, l);
    NoPlanLeft(b, resolver, discovery, before.st, err);
    hide Plan, Reports, Tried, Spent, Performed, Announced;
    StepsTold(b, before.st, channel, r.channel, plan, works, l);
  }

  /** The outcome and the account after it. */
  lemma OutcomeMeans(b: Budget, resolver: bool, discovery: bool, channel: ID, err: Error, before: Ledger, after: Ledger, r: Outcome,
                     works: set<Level>)
    requires Called(b, resolver, discovery, channel, err, before, after, r, works)
    ensures if r.recovered then r.state == Recovered && r.level.Some? && after.st == AttemptState(0, 0)
            else r.channel == channel && r.level.None? && r.state == if before.st.attempts >= b.maxAttempts then RecoveryFailed else Manual
  {
    hide Plan, Tried, Announced, Performed;
  }

  lemma UsableMeans(before: map<ID, Channel>, after: map<ID, Channel>, failed: ID, cap: string, c: ID)
    requires failed in before && Usable(before, after, failed, cap, c)
    ensures c in after && after[c].state == Ready
    ensures c != failed ==> after[c].device == before[failed].device && cap in after[c].capabilities
  {
  }

  /** So by the error: which steps a call announced. */
  lemma CalledMeans(b: Budget, resolver: bool, discovery: bool, channel: ID, err: Error, before: Ledger, after: Ledger, r: Outcome,
                    works: set<Level>)
    requires Called(b, resolver, discovery, channel, err, before, after, r, works)
    ensures before.published <= after.published
    ensures var news, left := after.published[|before.published|..], before.st.attempts < b.maxAttempts;
            && (Step(channel, L2Reconnect) in news <==> left && (err.recoverable || err.category in {Connection, DeviceState}))
            && (Step(channel, L3ReResolve) in news <==>
                  left && resolver && (err.recoverable || err.category in {Connection, DeviceState, Protocol}) && r.level != Some(L2Reconnect))
            && (Step(channel, L4Rediscover) in news <==>
                  left && discovery && err.category in {Connection, DeviceState, Category.Discovery} &&
                  r.level !in {Some(L2Reconnect), Some(L3ReResolve)})
            && (Step(channel, L5DeviceRecovery) in news <==>
                  left && before.st.deviceResets < b.maxDeviceResets && err.category in {Connection, DeviceState} &&
                  r.level in {None, Some(L5DeviceRecovery)})
  {
    hide Called, Plan, Tried;
    PlanMeans(b, resolver, discovery, before.st, err);
    CalledStep(b, resolver, discovery, channel, err, before, after, r, works, L2Reconnect);
    CalledStep(b, resolver, discovery, channel, err, before, after, r, works, L3ReResolve);
    CalledStep(b, resolver, discovery, channel, err, before, after, r, works, L4Rediscover);
    CalledStep(b, resolver, discovery, channel, err, before, after, r, works, L5DeviceRecovery);
  }

  /** And what it did: the plugin was asked to recover exactly for L2 and L5, endpoints were
      discovered exactly for L4. */
  lemma DeedsMean(b: Budget, resolver: bool, discovery: bool, channel: ID, err: Error, before: Ledger, after: Ledger, r: Outcome,
                  works: set<Level>)
    requires Called(b, resolver, discovery, channel, err, before, after, r, works)
    ensures before.published <= after.published && before.deeds <= after.deeds
    ensures var news, done := after.published[|before.published|..], after.deeds[|before.deeds|..];
            && (Asked(channel, true) in done || Asked(channel, false) in done <==>
                  Step(channel, L2Reconnect) in news || Step(channel, L5DeviceRecovery) in news)
            && (Rediscovered in done <==> Step(channel, L4Rediscover) in news)
  {
    var plan := Plan(b, resolver, discovery, before.st, err);
    assert after.deeds[|before.deeds|..] == Performed(channel, r.channel, plan, works);
    hide Called, Plan, Tried, Performed;
    DeedsTold(channel, r.channel, plan, works);
    CalledStep(b, resolver, discovery, channel, err, before, after, r, works, L2Reconnect);
    CalledStep(b, resolver, discovery, channel, err, before, after, r, works, L4Rediscover);
    CalledStep(b, resolver, discovery, channel, err, before, after, r, works, L5DeviceRecovery);
  }

  lemma {:induction false} Succeeds(b: Budget, st: AttemptState, channel: ID, alt: ID, failed: seq<Level>, l: Level, plan: seq<Level>)
    requires failed + [l] <= plan && l !in failed && st.attempts < b.maxAttempts
    ensures Spent(b, st, plan, {l}) == FRESH && Reports(Outcome(Recovered, true, Some(l), alt), b, st, channel, plan, {l})
    ensures Performed(channel, alt, plan, {l}) == AllFailed(channel, failed) + DeedsOf(channel, l, Some(alt))
    ensures Announced(b, st, channel, alt, plan, {l}) == [Started(channel)] + Steps(channel, failed) + [Step(channel, l)] + [Completed(alt)]
  {
    var rest := plan[|failed| + 1..];
    assert plan == failed + [l] + rest;
    TriedUpTo(failed, l, rest);
    assert l in plan && Worked(plan, {l});
    ClimbedStep(channel, st, failed, l);
    hide Tried, Worked, Steps, AllFailed, DeedsOf, Climbed;
    assert [Started(channel)] + (Steps(channel, failed) + [Step(channel, l)]) == [Started(channel)] + Steps(channel, failed) + [Step(channel, l)];
    assert (failed + [l])[..|failed|] == failed;
  }

  lemma {:induction false} NoneWorks(plan: seq<Level>)
    ensures Tried(plan, {}) == plan
  {
    if plan != [] { NoneWorks(plan[1..]); }
  }

  lemma Exhausts(b: Budget, st: AttemptState, channel: ID, plan: seq<Level>)
    requires st.attempts >= b.maxAttempts ==> plan == []
    ensures Spent(b, st, plan, {}) == Climbed(st, plan)
    ensures var state := if st.attempts >= b.maxAttempts then RecoveryFailed else Manual;
            Reports(Outcome(state, false, None, channel), b, st, channel, plan, {})
    ensures Performed(channel, channel, plan, {}) == AllFailed(channel, plan) && AllFailed(channel, []) == []
    ensures Announced(b, st, channel, channel, plan, {}) ==
              if st.attempts >= b.maxAttempts then [] else [Started(channel)] + Steps(channel, plan) + [Exhausted(channel)]
  {
    NoneWorks(plan);
  }

  lemma StillUsable(before: map<ID, Channel>, mid: map<ID, Channel>, after: map<ID, Channel>, failed: ID, cap: string, c: ID)
    requires Grows(before, mid) && Grows(mid, after) && failed in before && failed in mid && Usable(mid, after, failed, cap, c)
    ensures Grows(before, after) && Usable(before, after, failed, cap, c)
  {
  }

  ghost predicate WithinBudget(b: Budget, st: AttemptState, time: nat) {
    && st.attempts <= b.maxAttempts + 3
    && st.deviceResets <= (if b.maxDeviceResets > 0 then b.maxDeviceResets else 0)
    && time == TotalSlept(b.baseBackoff, st.attempts)
  }

  /** Every channel's account is within the budget, and the time slept fits it. */
  ghost predicate Accounted(b: Budget, attempts: map<ID, AttemptState>, slept: map<ID, nat>) {
    slept.Keys == attempts.Keys && forall c :: c in attempts ==> WithinBudget(b, attempts[c], slept[c])
  }

  lemma {:induction false} AccountedStep(b: Budget, attempts: map<ID, AttemptState>, slept: map<ID, nat>, c: ID, level: Level)
    requires Accounted(b, attempts, slept) && b.maxAttempts > 0 && b.baseBackoff > 0
    requires c in attempts && attempts[c].attempts < b.maxAttempts + 3
    requires level == L5DeviceRecovery ==> attempts[c].deviceResets < b.maxDeviceResets
    ensures c in slept
    ensures var st := More(attempts[c], level);
            Accounted(b, attempts[c := st], slept[c := slept[c] + Slept(b.baseBackoff, st.attempts)])
  {
    hide Slept;
  }

  class Manager {
    const reg: Registry
    const resolver: bool
    const discovery: Option<Scan.Service>
    const budget: Budget
    var attempts: map<ID, AttemptState>
    var published: seq<Event>
    ghost var deeds: seq<Deed>      // oldest first
    ghost var looks: seq<map<ID, Channel>>   // the channels each time the resolver was asked
    ghost var slept: map<ID, nat>   // time slept on a channel since its entry was made

    ghost predicate Valid()
      reads this, reg
    {
      && reg.Valid()
      && budget.maxAttempts > 0 && budget.baseBackoff > 0
      && (discovery.Some? ==> resolver && discovery.value.reg == reg)
      && Accounted(budget, attempts, slept)
    }

    ghost function LedgerOf(c: ID): Ledger
      reads this
    {
      Ledger(SpentOn(attempts, c), published, deeds)
    }

    ghost function Footprint(): set<object> {
      {this, reg} + if discovery.Some? then {discovery.value} else {}
    }

    constructor (reg: Registry, budget: Budget, resolver: bool, discovery: Option<Scan.Service>)
      requires reg.Valid() && (discovery.Some? ==> resolver && discovery.value.reg == reg)
      ensures Valid() && this.reg == reg && this.budget == WithDefaults(budget)
      ensures this.budget == Budget(if budget.maxAttempts <= 0 then 3 else budget.maxAttempts, budget.maxDeviceResets,
                                    if budget.baseBackoff <= 0 then 10_000_000 else budget.baseBackoff)
      ensures this.resolver == resolver && this.discovery == discovery
      ensures attempts == map[] && published == [] && deeds == [] && looks == []
    {
      this.reg, this.budget, this.resolver, this.discovery := reg, WithDefaults(budget), resolver, discovery;
      attempts, published, slept, deeds, looks := map[], [], map[], [], [];
    }

    method Emit(e: Event)
      requires Valid()
      modifies this`published
      ensures Valid() && published == old(published) + [e]
    {
      published := published + [e];
    }

    method StateFor(c: ID) returns (st: AttemptState)
      requires Valid()
      modifies this`attempts, this`slept
      ensures Valid() && st == SpentOn(attempts, c) == old(SpentOn(attempts, c)) && c in attempts
      ensures attempts - {c} == old(attempts) - {c}
    {
      hide Registry.Valid;
      if c !in attempts {
        attempts := attempts[c := FRESH];
        slept := slept[c := 0];
      }
      st := attempts[c];
    }

    method Reset(c: ID)
      requires Valid()
      modifies this`attempts, this`slept
      ensures Valid() && SpentOn(attempts, c) == FRESH
      ensures attempts - {c} == old(attempts) - {c}
    {
      hide Registry.Valid, WithinBudget;
      attempts, slept := attempts - {c}, slept - {c};
    }

    /** One ladder step begins: the reset count of a device recovery, the event, and the
        backoff, whose sleep is added to the channel's account. */
    method BeginStep(c: ID, level: Level)
      requires Valid() && c in attempts && attempts[c].attempts < budget.maxAttempts + 3
      requires level == L5DeviceRecovery ==> attempts[c].deviceResets < budget.maxDeviceResets
      modifies this`attempts, this`slept, this`published
      ensures Valid() && c in attempts && published == old(published) + [Step(c, level)]
      ensures attempts[c] == More(old(attempts)[c], level)
      ensures attempts - {c} == old(attempts) - {c}
    {
      hide Registry.Valid, Accounted, Slept, TotalSlept;
      Emit(Step(c, level));
      AccountedStep(budget, attempts, slept, c, level);
      attempts := attempts[c := More(attempts[c], level)];
      slept := slept[c := slept[c] + Slept(budget.baseBackoff, attempts[c].attempts)];
    }

    /** plugin.Recover, or the lookup of the plugin failing. */
    method RecoverVia(c: ID) returns (ok: bool)
      requires reg.Valid() && c in reg.channels
      modifies reg`channels, this`deeds
      ensures reg.Valid() && Grows(old(reg.channels), reg.channels)
      ensures c in reg.channels && reg.channels == old(reg.channels)[c := reg.channels[c]] && (ok ==> reg.channels[c].state == Ready)
      ensures deeds == old(deeds) + [Asked(c, ok)]
    {
      ok := *;
      var state: ChannelState, healthy: bool := *, *;
      reg.SetChannelState(c, if ok then Ready else state, healthy);
      deeds := deeds + [Asked(c, ok)];
    }

    /** discovery.Discover, whatever the scanners see. */
    method Rediscover()
      requires reg.Valid() && discovery.Some? && discovery.value.reg == reg
      modifies reg, discovery.value, this`deeds
      ensures reg.Valid() && Grows(old(reg.channels), reg.channels) && old(reg.devices.Keys) <= reg.devices.Keys
      ensures deeds == old(deeds) + [Rediscovered]
    {
      hide Registry.Valid, Grows, Scan.ReadyAvailable, Scan.ReadyOnlyAt, Scan.Brought, Scan.OnlyAt, Scan.Opens;
      var scan: seq<Scan.Sighting> := *;
      var found := discovery.value.Discover(scan);
      deeds := deeds + [Rediscovered];
    }

    /** The failed channel, if READY, is degraded; then any other READY channel of the
        device will do. The operation's channel type is not asked for. */
    method ReResolve(failed: ID, cap: string) returns (alt: Option<ID>)
      requires reg.Valid() && failed in reg.channels
      modifies reg`channels, this`deeds, this`looks
      ensures reg.Valid() && Grows(old(reg.channels), reg.channels) && deeds == old(deeds) + [Resolved(failed, alt)]
      ensures looks == old(looks) + [reg.channels]
      ensures failed in reg.channels && reg.channels[failed].state != Ready
      ensures var was := old(reg.channels);
              reg.channels == if was[failed].state == Ready then was[failed := was[failed].(state := Degraded, healthy := false)] else was
      ensures alt.Some? ==> alt.value != failed && Resolver.IsChoice(reg.channels, alt.value, reg.channels[failed].device, cap, "")
      ensures alt.None? ==> forall c :: !Offers(reg.channels, c, reg.channels[failed].device, cap)
    {
      if reg.channels[failed].state == Ready {
        reg.SetChannelState(failed, Degraded, false);
      }
      looks := looks + [reg.channels];
      alt := Resolver.ResolveChannel(reg, reg.channels[failed].device, cap, "");
      if alt.None? {
        forall c ensures !Offers(reg.channels, c, reg.channels[failed].device, cap) {
          assert !Resolver.Candidate(reg.channels, c, reg.channels[failed].device, cap, "");
        }
      }
      deeds := deeds + [Resolved(failed, alt)];
    }

    /** A level's action on the channels. */
    method Act(c: ID, level: Level, cap: string) returns (alt: Option<ID>)
      requires reg.Valid() && c in reg.channels && (discovery.Some? ==> discovery.value.reg == reg)
      requires level == L4Rediscover ==> discovery.Some?
      modifies Footprint() - {this}, this`deeds, this`looks
      ensures reg.Valid() && Grows(old(reg.channels), reg.channels) && c in reg.channels && old(reg.devices.Keys) <= reg.devices.Keys
      ensures alt.Some? ==> Usable(old(reg.channels), reg.channels, c, cap, alt.value)
      ensures Acted(old(reg.channels), reg.channels, c, cap, level, alt) && deeds == old(deeds) + DeedsOf(c, level, alt)
      ensures looks == old(looks) + if Asks(level) then [reg.channels] else []
    {
      hide Registry.Valid, Resolver.Better;
      match level {
        case L2Reconnect | L5DeviceRecovery => {
          var ok := RecoverVia(c);
          alt := if ok then Some(c) else None;
        }
        case L3ReResolve =>
          alt := ReResolve(c, cap);
        case L4Rediscover => {
          Rediscover();
          alt := ReResolve(c, cap);
        }
      }
    }

    /** While recovery sleeps, scans change devices and channels, and so do operations on
        other channels. */
    method Asleep()
      requires Valid()
      modifies Footprint() - {this}
      ensures Valid() && Grows(old(reg.channels), reg.channels) && old(reg.devices.Keys) <= reg.devices.Keys
    {
      hide Accounted, Grows, Scan.ReadyAvailable, Scan.ReadyOnlyAt, Scan.Brought, Scan.OnlyAt, Scan.Opens, Registry.Valid;
      ghost var chs, devs := reg.channels, reg.devices.Keys;
      Scan.GrowsRefl(chs);
      var n: nat := *;
      while n > 0
        invariant Valid() && Grows(chs, reg.channels) && devs <= reg.devices.Keys
      {
        ghost var mid := reg.channels;
        var c: ID, state: ChannelState, healthy: bool := *, *, *;
        if c in reg.channels {
          reg.SetChannelState(c, state, healthy);
        } else if discovery.Some? {
          var scan: seq<Scan.Sighting> := *;
          var added, removed := discovery.value.Refresh(scan);
        } else {
          Scan.GrowsRefl(mid);
        }
        Scan.GrowsTrans(chs, mid, reg.channels);
        n := n - 1;
      }
    }

    /** One level: its step, its action some sleep later, and if that works the reset and
        the event. */
    method TryLevel(c: ID, level: Level, cap: string) returns (alt: Option<ID>, ghost mid: map<ID, Channel>)
      requires Valid() && c in reg.channels && c in attempts && attempts[c].attempts < budget.maxAttempts + 3
      requires level == L5DeviceRecovery ==> attempts[c].deviceResets < budget.maxDeviceResets
      requires level == L4Rediscover ==> discovery.Some?
      modifies Footprint()
      ensures Valid() && Grows(old(reg.channels), mid) && Grows(mid, reg.channels) && c in mid && c in reg.channels
      ensures old(reg.devices.Keys) <= reg.devices.Keys
      ensures published == old(published) + [Step(c, level)] + (if alt.Some? then [Completed(alt.value)] else [])
      ensures SpentOn(attempts, c) == if alt.Some? then FRESH else More(old(SpentOn(attempts, c)), level)
      ensures alt.None? ==> c in attempts
      ensures attempts - {c} == old(attempts) - {c}
      ensures alt.Some? ==> Usable(mid, reg.channels, c, cap, alt.value)
      ensures Acted(mid, reg.channels, c, cap, level, alt) && deeds == old(deeds) + DeedsOf(c, level, alt)
      ensures looks == old(looks) + if Asks(level) then [reg.channels] else []
    {
      hide Registry.Valid, Accounted, Usable, Acted, DeedsOf, Asks;
      BeginStep(c, level);
      Asleep();
      mid := reg.channels;
      hide Grows;
      alt := Act(c, level, cap);
      if alt.Some? {
        Reset(c);
        Emit(Completed(alt.value));
      }
    }

    /** After these levels failed, starting from s. */
    ghost predicate AtRung(s: Foot, failed: seq<Level>)
      reads this, reg
    {
      && Valid() && s.channel in attempts && s.channel in reg.channels && Grows(s.chs, reg.channels)
      && attempts[s.channel] == Climbed(s.st, failed) && published == s.pub + Steps(s.channel, failed)
      && attempts - {s.channel} == s.others && s.channel in s.chs && s.st.attempts < budget.maxAttempts
      && s.devices <= reg.devices.Keys && deeds == s.deeds + AllFailed(s.channel, failed)
      && Exhaustive(s, failed, looks)
    }

    /** After these levels failed and the next one worked. */
    ghost predicate Off(s: Foot, failed: seq<Level>, l: Level, alt: ID)
      reads this, reg
    {
      && Valid() && Grows(s.chs, reg.channels) && SpentOn(attempts, s.channel) == FRESH
      && published == s.pub + Steps(s.channel, failed) + [Step(s.channel, l)] + [Completed(alt)]
      && attempts - {s.channel} == s.others && s.channel in s.chs && Usable(s.chs, reg.channels, s.channel, s.cap, alt)
      && s.devices <= reg.devices.Keys && deeds == s.deeds + AllFailed(s.channel, failed) + DeedsOf(s.channel, l, Some(alt))
      && (alt == s.channel <==> l == L2Reconnect || l == L5DeviceRecovery)
      && (alt != s.channel ==> Resolver.IsChoice(reg.channels, alt, s.chs[s.channel].device, s.cap, ""))
    }

    /** There is what the level needs. */
    ghost predicate Allowed(channel: ID, l: Level)
      reads this
    {
      && (l == L5DeviceRecovery ==> SpentOn(attempts, channel).deviceResets < budget.maxDeviceResets)
      && (l == L4Rediscover ==> discovery.Some?)
    }

    method TryNext(l: Level, channel: ID, cap: string, ghost s: Foot, ghost failed: seq<Level>) returns (alt: Option<ID>)
      requires channel == s.channel && cap == s.cap && AtRung(s, failed) && Above(failed, l) && Allowed(channel, l)
      modifies Footprint()
      ensures if alt.None? then AtRung(s, failed + [l]) else Off(s, failed, l, alt.value)
    {
      hide Valid, Usable, Grows, Steps, Acted, Exhaustive, AllFailed, DeedsOf;
      ghost var was, before := reg.channels, looks;
      ClimbedStep(channel, s.st, failed, l);
      ghost var mid;
      alt, mid := TryLevel(channel, l, cap);
      Scan.GrowsTrans(s.chs, was, mid);
      Scan.GrowsTrans(s.chs, mid, reg.channels);
      if alt.Some? {
        StillUsable(s.chs, mid, reg.channels, channel, cap, alt.value);
        HandedBack(s, mid, reg.channels, l, alt.value);
      } else {
        ExhaustiveStep(s, failed, l, before, mid, reg.channels);
      }
    }

    /** The level, if it is in the plan. */
    method TryIf(planned: bool, l: Level, channel: ID, cap: string, ghost s: Foot, ghost failed: seq<Level>) returns (alt: Option<ID>)
      requires channel == s.channel && cap == s.cap && AtRung(s, failed) && Above(failed, l) && (planned ==> Allowed(channel, l))
      modifies Footprint()
      ensures if alt.None? then AtRung(s, Next(failed, planned, l)) else planned && Off(s, failed, l, alt.value)
    {
      hide AtRung, Off, Above, Allowed;
      alt := None;
      if planned {
        alt := TryNext(l, channel, cap, s, failed);
      }
    }

    lemma SameResets(s: Foot, failed: seq<Level>)
      requires AtRung(s, failed) && Above(failed, L5DeviceRecovery)
      ensures s.channel in attempts && attempts[s.channel].deviceResets == s.st.deviceResets
      ensures s.st.deviceResets < budget.maxDeviceResets ==> Allowed(s.channel, L5DeviceRecovery)
    {
    }

    lemma AllowedLow(channel: ID)
      ensures Allowed(channel, L2Reconnect) && Allowed(channel, L3ReResolve)
    {
    }

    /** Reconnect, then re-resolve, as far as planned. */
    method ClimbLow(channel: ID, cap: string, err: Error, ghost s: Foot) returns (l: Level, alt: Option<ID>, ghost failed: seq<Level>)
      requires channel == s.channel && cap == s.cap && AtRung(s, [])
      modifies Footprint()
      ensures alt.None? ==> failed == LowRungs(resolver, err) && AtRung(s, failed)
      ensures alt.Some? ==> failed + [l] <= LowRungs(resolver, err) && l !in failed && Off(s, failed, l, alt.value)
    {
      ghost var p, low := Next([], CanReconnect(err), L2Reconnect), LowRungs(resolver, err);
      LowRungsClimb(resolver, err, p);
      AllowedLow(channel);
      hide LowRungs, AtRung, Off, Next, Above, CanReconnect, CanReResolve, Allowed;
      l, failed := L2Reconnect, [];
      alt := TryIf(CanReconnect(err), l, channel, cap, s, failed);
      if alt.Some? {
        Begins(failed, true, l, p, low);
        return;
      }
      l, failed := L3ReResolve, p;
      alt := TryIf(resolver && CanReResolve(err), l, channel, cap, s, failed);
      if alt.Some? {
        Begins(failed, true, l, low, low);
      } else {
        failed := low;
      }
    }

    lemma UnderBudget(s: Foot, failed: seq<Level>)
      requires AtRung(s, failed)
      ensures s.st.attempts < budget.maxAttempts
    {
    }

    /** Rediscover, then recover the device, as far as planned. */
    method ClimbHigh(channel: ID, cap: string, err: Error, ghost s: Foot) returns (l: Level, alt: Option<ID>, ghost failed: seq<Level>)
      requires channel == s.channel && cap == s.cap && AtRung(s, LowRungs(resolver, err))
      modifies Footprint()
      ensures alt.None? ==> failed == Plan(budget, resolver, discovery.Some?, s.st, err) && AtRung(s, failed)
      ensures alt.Some? ==> failed + [l] <= Plan(budget, resolver, discovery.Some?, s.st, err) && l !in failed && Off(s, failed, l, alt.value)
    {
      ghost var low := LowRungs(resolver, err);
      ghost var r := Next(low, discovery.Some? && CanRediscover(err), L4Rediscover);
      ghost var plan := Next(r, CanDeviceRecover(err) && s.st.deviceResets < budget.maxDeviceResets, L5DeviceRecovery);
      UnderBudget(s, low);
      PlanClimbs(budget, resolver, discovery.Some?, s.st, err, r, plan);
      hide LowRungs, Plan, AtRung, Off, Next, Above, CanRediscover, CanDeviceRecover;
      l, failed := L4Rediscover, low;
      alt := TryIf(discovery.Some? && CanRediscover(err), l, channel, cap, s, failed);
      if alt.Some? {
        Begins(failed, true, l, r, plan);
        return;
      }
      SameResets(s, r);
      hide Allowed;
      l, failed := L5DeviceRecovery, r;
      alt := TryIf(CanDeviceRecover(err) && attempts[channel].deviceResets < budget.maxDeviceResets, l, channel, cap, s, failed);
      if alt.Some? {
        Begins(failed, true, l, plan, plan);
      } else {
        failed := plan;
      }
    }

    /** The levels of the plan in turn until one works. */
    method Climb(channel: ID, cap: string, err: Error, ghost s: Foot) returns (l: Level, alt: Option<ID>, ghost failed: seq<Level>)
      requires channel == s.channel && cap == s.cap && AtRung(s, [])
      modifies Footprint()
      ensures alt.None? ==> failed == Plan(budget, resolver, discovery.Some?, s.st, err) && AtRung(s, failed)
      ensures alt.Some? ==> failed + [l] <= Plan(budget, resolver, discovery.Some?, s.st, err) && l !in failed && Off(s, failed, l, alt.value)
    {
      UnderBudget(s, []);
      LowBegins(budget, resolver, discovery.Some?, s.st, err);
      hide LowRungs, Plan, AtRung, Off;
      l, alt, failed := ClimbLow(channel, cap, err, s);
      if alt.None? {
        l, alt, failed := ClimbHigh(channel, cap, err, s);
      }
    }

    lemma OnGround(s: Foot)
      requires Valid() && s.channel in attempts && attempts[s.channel] == s.st && s.channel in reg.channels && s.chs == reg.channels
      requires s.devices == reg.devices.Keys && deeds == s.deeds && looks == s.looks && published == s.pub && attempts - {s.channel} == s.others
      requires s.st.attempts < budget.maxAttempts
      ensures AtRung(s, [])
    {
      Scan.GrowsRefl(reg.channels);
      assert Steps(s.channel, []) == [];
    }

    /** The ladder, with budget left: from the first event to the outcome. */
    method Ascend(channel: ID, cap: string, err: Error, ghost st: AttemptState) returns (r: Outcome, ghost works: set<Level>)
      requires Valid() && channel in reg.channels && channel in attempts && attempts[channel] == st && st.attempts < budget.maxAttempts
      modifies Footprint()
      ensures Valid() && Grows(old(reg.channels), reg.channels)
      ensures var plan := Plan(budget, resolver, discovery.Some?, st, err);
              && SpentOn(attempts, channel) == Spent(budget, st, plan, works)
              && Reports(r, budget, st, channel, plan, works)
              && published == old(published) + Announced(budget, st, channel, r.channel, plan, works)
      ensures attempts - {channel} == old(attempts) - {channel}
      ensures r.recovered ==> Usable(old(reg.channels), reg.channels, channel, cap, r.channel)
      ensures r.recovered ==> (r.channel == channel <==> r.level == Some(L2Reconnect) || r.level == Some(L5DeviceRecovery))
      ensures old(reg.devices.Keys) <= reg.devices.Keys && old(published) <= published
      ensures r.recovered && r.channel != channel ==>
                Resolver.IsChoice(reg.channels, r.channel, old(reg.channels)[channel].device, cap, "")
      ensures var plan := Plan(budget, resolver, discovery.Some?, st, err);
              && deeds == old(deeds) + Performed(channel, r.channel, plan, works)
              && (!r.recovered ==> NoneThen(old(looks), looks, Lookups(plan), channel, old(reg.channels)[channel].device, cap))
      ensures old(published) < published
    {
      hide Plan, Tried, Spent, Announced, Worked, Reports, Steps, Grows, Usable, Valid, Performed, AllFailed, NoneThen, Lookups, Resolver.IsChoice;
      ghost var plan := Plan(budget, resolver, discovery.Some?, st, err);
      Emit(Started(channel));
      ghost var s := Foot(channel, cap, st, reg.channels, reg.devices.Keys, published, deeds, looks, attempts - {channel});
      OnGround(s);
      var l, alt; ghost var failed;
      l, alt, failed := Climb(channel, cap, err, s);
      if alt.Some? {
        Succeeds(budget, st, channel, alt.value, failed, l, plan);
        r, works := Outcome(Recovered, true, Some(l), alt.value), {l};
      } else {
        Exhausts(budget, st, channel, plan);
        Emit(Exhausted(channel));
        r, works := Outcome(Manual, false, None, channel), {};
      }
    }

    /** Recover: the budget, and the ladder if some is left. */
    method RecoverCalled(channel: ID, cap: string, err: Error) returns (r: Outcome, ghost works: set<Level>)
      requires Valid() && channel in reg.channels
      modifies Footprint()
      ensures Valid() && Grows(old(reg.channels), reg.channels)
      ensures Called(budget, resolver, discovery.Some?, channel, err, old(LedgerOf(channel)), LedgerOf(channel), r, works)
      ensures attempts - {channel} == old(attempts) - {channel}
      ensures r.recovered ==> Usable(old(reg.channels), reg.channels, channel, cap, r.channel)
      ensures r.recovered ==> (r.channel == channel <==> r.level == Some(L2Reconnect) || r.level == Some(L5DeviceRecovery))
      ensures old(SpentOn(attempts, channel)).attempts >= budget.maxAttempts ==> reg.channels == old(reg.channels)
      ensures old(reg.devices.Keys) <= reg.devices.Keys && old(published) <= published
      ensures r.recovered && r.channel != channel ==>
                Resolver.IsChoice(reg.channels, r.channel, old(reg.channels)[channel].device, cap, "")
      ensures var plan := Plan(budget, resolver, discovery.Some?, old(SpentOn(attempts, channel)), err);
              !r.recovered ==> NoneThen(old(looks), looks, Lookups(plan), channel, old(reg.channels)[channel].device, cap)
      ensures published == old(published) ==> reg.channels == old(reg.channels) && reg.devices == old(reg.devices)
    {
      hide Plan, Tried, Spent, Announced, Worked, Reports, Steps, Grows, Usable, Valid, Performed, AllFailed, NoOther, Resolver.IsChoice;
      ghost var chs := reg.channels;
      Scan.GrowsRefl(chs);
      var st := StateFor(channel);
      ghost var plan := Plan(budget, resolver, discovery.Some?, st, err);
      if st.attempts >= budget.maxAttempts {
        NoPlan(budget, resolver, discovery.Some?, st, err);
        Exhausts(budget, st, channel, plan);
        return Outcome(RecoveryFailed, false, None, channel), {};
      }
      r, works := Ascend(channel, cap, err, st);
    }

    /** Recover: what it spends, reports, announces and does is what the ladder says for the
        levels that worked, that is, by the error: reconnecting for a recoverable error or
        one of the connection or the device, another channel for these and errors of the
        protocol, rediscovery for those of connection, device and discovery, and device
        recovery for those of connection and device while resets are left; each unless a
        level before it worked. The channel it hands back is usable. */
    method Recover(channel: ID, cap: string, err: Error) returns (r: Outcome, ghost works: set<Level>)
      requires Valid() && channel in reg.channels
      modifies Footprint()
      ensures Valid() && Grows(old(reg.channels), reg.channels)
      ensures Called(budget, resolver, discovery.Some?, channel, err, old(LedgerOf(channel)), LedgerOf(channel), r, works)
      ensures attempts - {channel} == old(attempts) - {channel}
      ensures r.recovered ==> Usable(old(reg.channels), reg.channels, channel, cap, r.channel)
      ensures r.recovered ==> (r.channel == channel <==> r.level == Some(L2Reconnect) || r.level == Some(L5DeviceRecovery))
      ensures r.recovered ==> r.channel in reg.channels && reg.channels[r.channel].state == Ready && SpentOn(attempts, channel) == AttemptState(0, 0)
      ensures r.recovered && r.channel != channel ==>
                reg.channels[r.channel].device == old(reg.channels)[channel].device && cap in reg.channels[r.channel].capabilities
      ensures if r.recovered then r.state == Recovered && r.level.Some?
              else r.channel == channel && r.level.None? &&
                   r.state == if old(SpentOn(attempts, channel)).attempts >= budget.maxAttempts then RecoveryFailed else Manual
      ensures old(SpentOn(attempts, channel)).attempts >= budget.maxAttempts ==> reg.channels == old(reg.channels)
      ensures old(reg.devices.Keys) <= reg.devices.Keys && old(published) <= published
      ensures r.recovered && r.channel != channel ==>
                Resolver.IsChoice(reg.channels, r.channel, old(reg.channels)[channel].device, cap, "")
      ensures var plan := Plan(budget, resolver, discovery.Some?, old(SpentOn(attempts, channel)), err);
              !r.recovered ==> NoneThen(old(looks), looks, Lookups(plan), channel, old(reg.channels)[channel].device, cap)
      ensures published == old(published) ==> reg.channels == old(reg.channels) && reg.devices == old(reg.devices)
      ensures var news, st := published[|old(published)|..], old(SpentOn(attempts, channel)); var left := st.attempts < budget.maxAttempts;
              && (Step(channel, L2Reconnect) in news <==> left && (err.recoverable || err.category in {Connection, DeviceState}))
              && (Step(channel, L3ReResolve) in news <==>
                    left && resolver && (err.recoverable || err.category in {Connection, DeviceState, Protocol}) && r.level != Some(L2Reconnect))
              && (Step(channel, L4Rediscover) in news <==>
                    left && discovery.Some? && err.category in {Connection, DeviceState, Category.Discovery} &&
                    r.level !in {Some(L2Reconnect), Some(L3ReResolve)})
              && (Step(channel, L5DeviceRecovery) in news <==>
                    left && st.deviceResets < budget.maxDeviceResets && err.category in {Connection, DeviceState} &&
                    r.level in {None, Some(L5DeviceRecovery)})
      ensures old(deeds) <= deeds
      ensures var news, done := published[|old(published)|..], deeds[|old(deeds)|..];
              && (Asked(channel, true) in done || Asked(channel, false) in done <==>
                    Step(channel, L2Reconnect) in news || Step(channel, L5DeviceRecovery) in news)
              && (Rediscovered in done <==> Step(channel, L4Rediscover) in news)
    {
      hide Called, Grows, Usable, Valid, NoneThen, Resolver.IsChoice, Plan;
      ghost var before := LedgerOf(channel);
      r, works := RecoverCalled(channel, cap, err);
      if r.recovered { UsableMeans(old(reg.channels), reg.channels, channel, cap, r.channel); }
      OutcomeMeans(budget, resolver, discovery.Some?, channel, err, before, LedgerOf(channel), r, works);
      CalledMeans(budget, resolver, discovery.Some?, channel, err, before, LedgerOf(channel), r, works);
      DeedsMean(budget, resolver, discovery.Some?, channel, err, before, LedgerOf(channel), r, works);
    }
  }
}

/** core/recovery: error classification, the recovery ladder as a function of what its
    steps answer, the budget it spends per channel, and its backoff. */
module RecoveryLadder {
  datatype Category =
    | Validation | Authorization | Resource | Discovery | Connection | Protocol | DeviceState
    | Execution | Verification | Timeout | Cancellation | Internal | Unknown

  datatype Error = Error(code: string, category: Category, recoverable: bool)

  /** An arbitrary error: one that wraps a normalized error, or not. */
  datatype Raised = Normalized(error: Error) | DeadlineExceeded | ContextCanceled | Other

  function Classify(e: Raised): Error {
    match e
    case Normalized(error) => error
    case DeadlineExceeded => Error("TIMEOUT", Timeout, false)
    case ContextCanceled => Error("UNKNOWN", Cancellation, false)
    case Other => Error("UNKNOWN", Unknown, false)
  }

  datatype Level = L2Reconnect | L3ReResolve | L4Rediscover | L5DeviceRecovery

  function Rank(l: Level): nat {
    match l
    case L2Reconnect => 2
    case L3ReResolve => 3
    case L4Rediscover => 4
    case L5DeviceRecovery => 5
  }

  predicate CanReconnect(e: Error) {
    e.recoverable || e.category == Connection || e.category == DeviceState
  }

  predicate CanReResolve(e: Error) {
    e.recoverable || e.category == Connection || e.category == DeviceState || e.category == Protocol
  }

  predicate CanRediscover(e: Error) {
    e.category == Connection || e.category == DeviceState || e.category == Discovery
  }

  predicate CanDeviceRecover(e: Error) {
    e.category == DeviceState || e.category == Connection
  }

  datatype Budget = Budget(maxAttempts: int, maxDeviceResets: int, baseBackoff: int)

  /** NewManager's defaults for budgets left at zero. */
  function WithDefaults(b: Budget): Budget {
    Budget(if b.maxAttempts <= 0 then 3 else b.maxAttempts,
           b.maxDeviceResets,
           if b.baseBackoff <= 0 then 10_000_000 else b.baseBackoff)
  }

  datatype AttemptState = AttemptState(attempts: nat, deviceResets: nat)

  const FRESH := AttemptState(0, 0)

  /** The levels that apply to a failure, lowest first. */
  function Plan(b: Budget, resolver: bool, discovery: bool, st: AttemptState, e: Error): seq<Level> {
    if st.attempts >= b.maxAttempts then []
    else
      (if CanReconnect(e) then [L2Reconnect] else []) +
      (if resolver && CanReResolve(e) then [L3ReResolve] else []) +
      (if discovery && CanRediscover(e) then [L4Rediscover] else []) +
      (if CanDeviceRecover(e) && st.deviceResets < b.maxDeviceResets then [L5DeviceRecovery] else [])
  }

  /** The levels in the plan up to and including the first that succeeds. */
  function Tried(plan: seq<Level>, works: set<Level>): seq<Level> {
    if plan == [] then []
    else if plan[0] in works then [plan[0]]
    else [plan[0]] + Tried(plan[1..], works)
  }

  ghost predicate Worked(plan: seq<Level>, works: set<Level>) {
    exists l :: l in plan && l in works
  }

  /** What one call leaves of the channel's budget: nothing spent if a level worked. */
  ghost function Spent(b: Budget, st: AttemptState, plan: seq<Level>, works: set<Level>): AttemptState {
    var tried := Tried(plan, works);
    if Worked(plan, works) then FRESH
    else AttemptState(st.attempts + |tried|, st.deviceResets + if L5DeviceRecovery in tried then 1 else 0)
  }

  /** Levels are tried in strictly increasing order, each at most once, and a level is
      tried only when all before it failed. */
  lemma PlanAscends(b: Budget, resolver: bool, discovery: bool, st: AttemptState, e: Error)
    ensures var plan := Plan(b, resolver, discovery, st, e);
            |plan| <= 4 && forall i, j :: 0 <= i < j < |plan| ==> Rank(plan[i]) < Rank(plan[j])
  {
  }

  /** Which levels apply, by the error's category and what is wired and left. */
  lemma PlanMeans(b: Budget, resolver: bool, discovery: bool, st: AttemptState, e: Error)
    ensures var plan := Plan(b, resolver, discovery, st, e); var left := st.attempts < b.maxAttempts;
            && (L2Reconnect in plan <==> left && (e.recoverable || e.category in {Connection, DeviceState}))
            && (L3ReResolve in plan <==> left && resolver && (e.recoverable || e.category in {Connection, DeviceState, Protocol}))
            && (L4Rediscover in plan <==> left && discovery && e.category in {Connection, DeviceState, Category.Discovery})
            && (L5DeviceRecovery in plan <==> left && st.deviceResets < b.maxDeviceResets && e.category in {Connection, DeviceState})
  {
  }

  lemma {:induction false} TriedIsPrefix(plan: seq<Level>, works: set<Level>)
    ensures Tried(plan, works) <= plan
    ensures forall i :: 0 <= i < |Tried(plan, works)| - 1 ==> plan[i] !in works
    ensures Tried(plan, works) == plan || (|Tried(plan, works)| > 0 && plan[|Tried(plan, works)| - 1] in works)
  {
    if plan != [] && plan[0] !in works {
      var rest := plan[1..];
      TriedIsPrefix(rest, works);
      assert forall i :: 0 <= i < |rest| ==> rest[i] == plan[i + 1];
    }
  }

  /** The level that worked ends the climb; if none did, all were tried. */
  lemma {:induction false} TriedUpTo(failed: seq<Level>, l: Level, rest: seq<Level>)
    requires l !in failed
    ensures Tried(failed + [l] + rest, {l}) == failed + [l]
  {
    var plan := failed + [l] + rest;
    if failed != [] {
      assert plan[0] == failed[0] && plan[1..] == failed[1..] + [l] + rest;
      TriedUpTo(failed[1..], l, rest);
    }
  }

  /** An error that no layer normalized gets no recovery step at all. */
  lemma UnclassifiedIsNotRecovered(b: Budget, resolver: bool, discovery: bool, st: AttemptState, raised: Raised)
    requires !raised.Normalized?
    ensures Plan(b, resolver, discovery, st, Classify(raised)) == []
    ensures Classify(raised).category == (match raised case DeadlineExceeded => Timeout case ContextCanceled => Cancellation case _ => Unknown)
    ensures forall e :: Classify(Normalized(e)) == e
  {
  }

  // ---- Calls on one channel ----

  datatype Call = Call(error: Error, works: set<Level>)

  /** The channel's budget after a sequence of failures, each met by one Recover. */
  ghost function AfterCalls(b: Budget, resolver: bool, discovery: bool, calls: seq<Call>): AttemptState {
    if calls == [] then FRESH
    else
      var st := AfterCalls(b, resolver, discovery, calls[..|calls| - 1]);
      var c := calls[|calls| - 1];
      Spent(b, st, Plan(b, resolver, discovery, st, c.error), c.works)
  }

  /** Since the channel last recovered, it has seen at most MaxAttempts+3 ladder steps
      and MaxDeviceResets device resets, whatever the failures and answers. */
  lemma {:induction false} BudgetHolds(b: Budget, resolver: bool, discovery: bool, calls: seq<Call>)
    requires b.maxAttempts > 0
    ensures var st := AfterCalls(b, resolver, discovery, calls);
            st.attempts <= b.maxAttempts + 3 && st.deviceResets <= if b.maxDeviceResets > 0 then b.maxDeviceResets else 0
  {
    if calls != [] {
      BudgetHolds(b, resolver, discovery, calls[..|calls| - 1]);
      var st := AfterCalls(b, resolver, discovery, calls[..|calls| - 1]);
      var c := calls[|calls| - 1];
      TriedIsPrefix(Plan(b, resolver, discovery, st, c.error), c.works);
      PlanAscends(b, resolver, discovery, st, c.error);
    }
  }

  lemma ExhaustedCall(b: Budget, resolver: bool, discovery: bool, st: AttemptState, c: Call)
    requires st.attempts >= b.maxAttempts
    ensures Plan(b, resolver, discovery, st, c.error) == []
    ensures Spent(b, st, Plan(b, resolver, discovery, st, c.error), c.works) == st
  {
  }

  /** An exhausted channel stays exhausted: no later failure tries any level. */
  lemma {:induction false} ExhaustedForGood(b: Budget, resolver: bool, discovery: bool, calls: seq<Call>, more: seq<Call>, next: Call)
    requires AfterCalls(b, resolver, discovery, calls).attempts >= b.maxAttempts
    ensures AfterCalls(b, resolver, discovery, calls + more) == AfterCalls(b, resolver, discovery, calls)
    ensures Plan(b, resolver, discovery, AfterCalls(b, resolver, discovery, calls + more), next.error) == []
  {
    hide Plan, Spent;
    var st := AfterCalls(b, resolver, discovery, calls);
    ExhaustedCall(b, resolver, discovery, st, next);
    if more == [] {
      assert calls + more == calls;
    } else {
      var n := |more| - 1;
      ExhaustedForGood(b, resolver, discovery, calls, more[..n], next);
      var all := calls + more;
      assert all[..|all| - 1] == calls + more[..n] && all[|all| - 1] == more[n];
      ExhaustedCall(b, resolver, discovery, st, more[n]);
    }
  }

  /** A channel that keeps failing on errors the ladder applies to is exhausted after
      MaxAttempts calls. */
  lemma {:induction false} FailuresExhaust(b: Budget, resolver: bool, discovery: bool, calls: seq<Call>)
    requires b.maxAttempts > 0 && forall c :: c in calls ==> CanReconnect(c.error) && c.works == {}
    ensures AfterCalls(b, resolver, discovery, calls).attempts >= if |calls| < b.maxAttempts then |calls| else b.maxAttempts
  {
    if calls != [] {
      var n := |calls| - 1;
      FailuresExhaust(b, resolver, discovery, calls[..n]);
      var st := AfterCalls(b, resolver, discovery, calls[..n]);
      TriedIsPrefix(Plan(b, resolver, discovery, st, calls[n].error), calls[n].works);
      assert calls[n] in calls;
    }
  }

  // ---- Backoff ----

  const SECOND := 1_000_000_000
  const WORD := 0x1_0000_0000_0000_0000

  function Pow2(n: nat): (p: nat)
    ensures p > 0
  {
    if n == 0 then 1 else 2 * Pow2(n - 1)
  }

  /** The value of a 64-bit signed integer with these low bits. */
  function Wrap(x: int): int {
    (x + WORD / 2) % WORD - WORD / 2
  }

  /** The delay before the k-th step: a 64-bit shift, capped. The first has none, and
      a negative delay does not sleep. */
  function Backoff(base: int, k: nat): int {
    if k <= 1 then 0
    else
      var d := Wrap(base * Pow2(k - 1));
      if d > SECOND then SECOND else d
  }

  function Slept(base: int, k: nat): nat {
    if Backoff(base, k) < 0 then 0 else Backoff(base, k)
  }

  function Min(a: int, b: int): int {
    if a < b then a else b
  }

  function Doubled(base: nat, k: nat): nat
  {
    base * Pow2(k)
  }

  lemma {:induction false} DoubledGrows(base: nat, j: nat, k: nat)
    requires j <= k
    ensures Doubled(base, j) <= Doubled(base, k)
  {
    if j < k {
      DoubledGrows(base, j, k - 1);
      assert Doubled(base, k) == 2 * Doubled(base, k - 1);
    }
  }

  lemma DoubledStep(base: nat, k: nat)
    ensures k > 0 ==> Doubled(base, k) == 2 * Doubled(base, k - 1)
    ensures Doubled(base, 0) == base
  {
  }

  /** If the largest shift fits in 63 bits, every delay is the doubling one, capped. */
  lemma BackoffDoubles(base: nat, k: nat, last: nat)
    requires 2 <= k <= last && Doubled(base, last - 1) < WORD / 2
    ensures Slept(base, k) == if Doubled(base, k - 1) < 1_000_000_000 then Doubled(base, k - 1) else 1_000_000_000
    ensures Doubled(base, k - 1) == 2 * Doubled(base, k - 2) && Doubled(base, 0) == base && Slept(base, 0) == Slept(base, 1) == 0
  {
    DoubledGrows(base, k - 1, last - 1);
    DoubledStep(base, k - 1);
  }

  /** Exactly when a sleep is the doubling one, capped: the shift fits in 63 bits, or its
      low 64 bits happen to stand for a second or more. */
  lemma BackoffExactly(base: nat, k: nat)
    requires k >= 2
    ensures Slept(base, k) == Min(Doubled(base, k - 1), SECOND) <==>
              (Doubled(base, k - 1) < 0x8000_0000_0000_0000 || Wrap(Doubled(base, k - 1)) >= 1_000_000_000)
  {
  }

  function TotalSlept(base: int, n: nat): nat {
    if n == 0 then 0 else TotalSlept(base, n - 1) + Slept(base, n)
  }

  lemma {:induction false} TotalBounded(base: nat, n: nat, last: nat)
    requires 1 <= n <= last && Doubled(base, last - 1) < WORD / 2
    ensures TotalSlept(base, n) <= Doubled(base, n) - 2 * base
    ensures TotalSlept(base, n) <= (n - 1) * SECOND
  {
    DoubledStep(base, n);
    if n == 1 {
      assert TotalSlept(base, 1) == TotalSlept(base, 0) + Slept(base, 1);
      DoubledStep(base, 0);
    } else {
      hide Pow2, Slept, Doubled;
      TotalBounded(base, n - 1, last);
      BackoffDoubles(base, n, last);
    }
  }

  lemma Distributes(base: int, p: int)
    ensures base * (p - 2) == base * p - 2 * base
  {
  }

  /** Over any calls since the last success the channel sleeps at most
      Base*(2^(MaxAttempts+3)-2), if Base*2^(MaxAttempts+2) fits in 63 bits. */
  lemma SleepBudget(b: Budget, resolver: bool, discovery: bool, calls: seq<Call>)
    requires b.maxAttempts > 0 && b.baseBackoff > 0 && Doubled(b.baseBackoff, b.maxAttempts + 2) < WORD / 2
    ensures TotalSlept(b.baseBackoff, AfterCalls(b, resolver, discovery, calls).attempts)
              <= b.baseBackoff * (Pow2(b.maxAttempts + 3) - 2)
  {
    BudgetHolds(b, resolver, discovery, calls);
    var n := AfterCalls(b, resolver, discovery, calls).attempts;
    if n > 0 {
      TotalBounded(b.baseBackoff, n, b.maxAttempts + 3);
      DoubledGrows(b.baseBackoff, n, b.maxAttempts + 3);
    }
    assert Pow2(b.maxAttempts + 3) >= 2 by { assert Pow2(b.maxAttempts + 3) == 2 * Pow2(b.maxAttempts + 2); }
    Distributes(b.baseBackoff, Pow2(b.maxAttempts + 3));
  }

  lemma {:induction false} Pow2Adds(a: nat, b: nat)
    ensures Pow2(a + b) == Pow2(a) * Pow2(b)
  {
    if b > 0 {
      Pow2Adds(a, b - 1);
      assert Pow2(a + b) == 2 * Pow2(a + (b - 1));
    }
  }

  lemma Pow2Is40()
    ensures Pow2(40) == 0x100_0000_0000
  {
    assert Pow2(10) == 1024;
    Pow2Adds(10, 10);
    Pow2Adds(20, 20);
  }

  lemma MultipleOfWord(k: nat)
    requires k >= 64
    ensures exists q: nat :: Pow2(k) == WORD * q
  {
    Pow2Is40();
    assert Pow2(8) == 256;
    hide Pow2;
    Pow2Adds(8, 8);
    Pow2Adds(8, 16);
    Pow2Adds(40, 24);
    Pow2Adds(64, k - 64);
    assert Pow2(k) == WORD * Pow2(k - 64);
  }

  lemma WrapMultiple(base: int, q: int)
    ensures Wrap(base * (WORD * q)) == 0
  {
    var m := base * q;
    assert base * (WORD * q) == WORD * m;
    assert (WORD * m + WORD / 2) % WORD == WORD / 2;
  }

  /** The shift is not checked: the default base of 10 ms, shifted by 40, is negative
      and does not sleep at all, and a shift by 64 or more leaves nothing of any base. */
  lemma ShiftOverflows(base: int, k: nat)
    ensures Backoff(10_000_000, 41) < 0 && Slept(10_000_000, 41) == 0
    ensures k > 64 ==> Backoff(base, k) == 0
  {
    Pow2Is40();
    if k > 64 {
      MultipleOfWord(k - 1);
      var q :| Pow2(k - 1) == WORD * q;
      WrapMultiple(base, q);
    }
  }
}

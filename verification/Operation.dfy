/** domain/operation.go: the runtime record of one operation, its state, result and
    cancel flag. */
module OperationRecord {
  import opened Results
  import Locks
  import RecoveryLadder
  import RegistryStore

  type ID = string

  datatype OpState =
    | Created | Validating | WaitingResource | Resolving | Running | Verifying
    | Succeeded
    | ValidationFailed | ResourceFailed | ResolveFailed | RunFailed | VerifyFailed | Cancelled | TimedOut | Unknown

  predicate IsTerminal(s: OpState) {
    match s
    case Created | Validating | WaitingResource | Resolving | Running | Verifying => false
    case _ => true
  }

  predicate IsFailure(s: OpState) {
    match s
    case ValidationFailed | ResourceFailed | ResolveFailed | RunFailed | VerifyFailed | Cancelled | TimedOut | Unknown => true
    case _ => false
  }

  /** The terminal states are success and the failures, which exclude each other. */
  lemma TerminalSplit(s: OpState)
    ensures IsTerminal(s) <==> s == Succeeded || IsFailure(s)
    ensures IsFailure(s) ==> s != Succeeded
    ensures !IsTerminal(s) <==> s in {Created, Validating, WaitingResource, Resolving, Running, Verifying}
  {
  }

  /** The unified request: CapabilityFlash is the one capability treated specially. */
  datatype Request = Request(capability: string, target: ID, parameters: map<string, string>,
                             session: string, idempotencyKey: string, channelType: string)

  const FLASH := "device.flash"

  /** A missing key of a Go map reads as the empty string. */
  function Value(m: map<string, string>, key: string): string {
    if key in m then m[key] else ""
  }

  /** A plugin's read-only look at the device. */
  datatype Observation = Observation(online: bool, facts: map<string, string>)

  datatype Evidence = Evidence(name: string, value: string)

  /** What an Invoke comes back with. */
  datatype Answer = Done(evidence: seq<Evidence>) | Raised(error: RecoveryLadder.Raised)

  /** A call made to a plugin, or to recovery, for an operation: an Invoke with its channel
      and the lease table as they were then, the time and the answer, an Observe with what
      it saw, a Recover with the channel it handed back. */
  datatype PluginCall =
    | Opening(channel: ID)
    | Invoking(channel: ID, record: RegistryStore.Channel, moment: Locks.Moment, answer: Answer)
    | Observing(seen: Option<Observation>)
    | Recovering(channel: ID, next: Option<ID>)

  datatype OpResult = OpResult(op: ID, state: OpState)

  /** Transition's effect on the state. */
  function Next(s: OpState, next: OpState): OpState {
    if IsTerminal(s) && next != s then s else next
  }

  function After(s: OpState, nexts: seq<OpState>): OpState
    decreases |nexts|
  {
    if nexts == [] then s else After(Next(s, nexts[0]), nexts[1..])
  }

  lemma {:induction false} TerminalStays(s: OpState, nexts: seq<OpState>)
    requires IsTerminal(s)
    ensures After(s, nexts) == s
    decreases |nexts|
  {
    if nexts != [] { TerminalStays(s, nexts[1..]); }
  }

  /** Whatever transitions are asked for, in whatever order, by whomever: the state ends
      up at the first terminal one. */
  lemma {:induction false} FirstTerminalWins(s: OpState, nexts: seq<OpState>, k: nat)
    requires !IsTerminal(s) && k < |nexts| && IsTerminal(nexts[k])
    requires forall j :: 0 <= j < k ==> !IsTerminal(nexts[j])
    ensures After(s, nexts) == nexts[k]
    decreases |nexts|
  {
    if k == 0 {
      TerminalStays(nexts[0], nexts[1..]);
    } else {
      FirstTerminalWins(nexts[0], nexts[1..], k - 1);
    }
  }

  class Operation {
    const id: ID
    const request: Request
    var channel: Option<ID>
    var state: OpState
    var result: Option<OpResult>
    var cancelRequested: bool
    ghost var calls: seq<PluginCall>   // made for this operation, oldest first
    ghost var notices: seq<ID>         // channels whose plugins were told of a cancel

    constructor (id: ID, request: Request)
      ensures this.id == id && this.request == request && channel == None
      ensures state == Created && result == None && !cancelRequested && calls == [] && notices == []
    {
      this.id, this.request, channel := id, request, None;
      state, result, cancelRequested := Created, None, false;
      calls, notices := [], [];
    }

    method Transition(next: OpState) returns (ok: bool)
      modifies this`state
      ensures state == Next(old(state), next) && (ok <==> state == next)
      ensures ok <==> old(state) in {Created, Validating, WaitingResource, Resolving, Running, Verifying} || next == old(state)
      ensures state == if ok then next else old(state)
    {
      if IsTerminal(state) && next != state {
        return false;
      }
      state := next;
      ok := true;
    }

    method SetResult(r: OpResult)
      modifies this`result
      ensures result == Some(r)
    {
      result := Some(r);
    }

    method RequestCancel()
      modifies this`cancelRequested
      ensures cancelRequested
    {
      cancelRequested := true;
    }
  }
}

/** core/security/policy.go: deny-by-default grants, risk-gated approval. */
module AccessPolicy {
  datatype Risk = Low | Medium | High | Critical
  datatype Decision = Allow | Deny | RequireApproval

  const ALL_DEVICES := "*"

  /** A configuration call. */
  datatype Call =
    | GrantScope(principal: string, cap: string, device: string)
    | PreApprove(principal: string, cap: string)

  /** The decision the calls made so far entitle a request to, read off the history
      and not off the nested maps. */
  ghost function Entitled(calls: seq<Call>, principal: string, cap: string, target: string, risk: Risk): Decision {
    if GrantScope(principal, cap, ALL_DEVICES) !in calls && GrantScope(principal, cap, target) !in calls then Deny
    else if (risk == High || risk == Critical) && PreApprove(principal, cap) !in calls then RequireApproval
    else Allow
  }

  /** Denied without a grant for the device or all devices; with one, an operation of high or
      critical risk needs an approval unless it was approved beforehand. */
  lemma EntitledMeans(calls: seq<Call>, principal: string, cap: string, target: string, risk: Risk)
    ensures var d, granted := Entitled(calls, principal, cap, target, risk),
                              GrantScope(principal, cap, "*") in calls || GrantScope(principal, cap, target) in calls;
            && (d == Deny <==> !granted)
            && (d == Allow <==> granted && (risk in {Low, Medium} || PreApprove(principal, cap) in calls))
            && (d == RequireApproval <==> granted && risk in {High, Critical} && PreApprove(principal, cap) !in calls)
  {
  }

  /** Calls in another order, or repeated, entitle to the same. */
  lemma EntitledByTheSet(a: seq<Call>, b: seq<Call>, principal: string, cap: string, target: string, risk: Risk)
    requires forall c :: c in a <==> c in b
    ensures Entitled(a, principal, cap, target, risk) == Entitled(b, principal, cap, target, risk)
  {
  }

  /** Further calls never turn an allowed request away. */
  lemma EntitledMonotone(calls: seq<Call>, more: seq<Call>, principal: string, cap: string, target: string, risk: Risk)
    ensures Entitled(calls, principal, cap, target, risk) == Allow ==>
              Entitled(calls + more, principal, cap, target, risk) == Allow
    ensures Entitled([], principal, cap, target, risk) == Deny
  {
  }

  class Policy {
    var grants: map<string, map<string, set<string>>>   // principal, capability, device IDs
    var approved: map<string, set<string>>              // principal, capabilities
    ghost var history: seq<Call>

    ghost predicate Valid()
      reads this
    {
      && (forall p, c, d :: GrantScope(p, c, d) in history <==> p in grants && c in grants[p] && d in grants[p][c])
      && (forall p, c :: PreApprove(p, c) in history <==> p in approved && c in approved[p])
    }

    constructor ()
      ensures Valid() && history == []
    {
      grants, approved, history := map[], map[], [];
    }

    method GrantDevice(principal: string, cap: string, device: string)
      requires Valid()
      modifies this
      ensures Valid() && history == old(history) + [GrantScope(principal, cap, device)]
    {
      if principal !in grants {
        grants := grants[principal := map[]];
      }
      if cap !in grants[principal] {
        grants := grants[principal := grants[principal][cap := {}]];
      }
      grants := grants[principal := grants[principal][cap := grants[principal][cap] + {device}]];
      history := history + [GrantScope(principal, cap, device)];
    }

    method Grant(principal: string, cap: string)
      requires Valid()
      modifies this
      ensures Valid() && history == old(history) + [GrantScope(principal, cap, ALL_DEVICES)]
    {
      GrantDevice(principal, cap, ALL_DEVICES);
    }

    method PreApproveAll(principal: string, cap: string)
      requires Valid()
      modifies this
      ensures Valid() && history == old(history) + [PreApprove(principal, cap)]
    {
      if principal !in approved {
        approved := approved[principal := {}];
      }
      approved := approved[principal := approved[principal] + {cap}];
      history := history + [PreApprove(principal, cap)];
    }

    method Evaluate(principal: string, cap: string, target: string, risk: Risk) returns (d: Decision)
      requires Valid()
      ensures d == Entitled(history, principal, cap, target, risk)
    {
      if principal !in grants || cap !in grants[principal] {
        return Deny;
      }
      var devices := grants[principal][cap];
      if ALL_DEVICES !in devices && target !in devices {
        return Deny;
      }
      if (risk == High || risk == Critical) && (principal !in approved || cap !in approved[principal]) {
        return RequireApproval;
      }
      d := Allow;
    }
  }

  class ApprovalService {
    var approvals: set<string>

    constructor ()
      ensures approvals == {}
    {
      approvals := {};
    }

    method Approve(op: string)
      modifies this
      ensures approvals == old(approvals) + {op}
    {
      approvals := approvals + {op};
    }

    method IsApproved(op: string) returns (yes: bool)
      ensures yes <==> op in approvals
    {
      yes := op in approvals;
    }
  }
}

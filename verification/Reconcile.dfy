/** core/recovery/reconcile.go: what an observation of the device says about an operation
    whose outcome was lost. */
module Reconciliation {
  import opened OperationRecord

  datatype Decision = Success | Retry | Undetermined | Manual

  const VERSION := "flash.version"

  function Wanted(r: Request): string {
    Value(r.parameters, "version")
  }

  function Reconcile(r: Request, obs: Observation): Decision {
    if r.capability == FLASH then
      var got := Value(obs.facts, VERSION);
      if Wanted(r) != "" && got == Wanted(r) then Success
      else if obs.online then Manual
      else Undetermined
    else if obs.online then Retry else Undetermined
  }

  /** The observation proves the operation's postcondition. */
  ghost predicate Shows(r: Request, obs: Observation) {
    r.capability == FLASH && Wanted(r) != "" && VERSION in obs.facts && obs.facts[VERSION] == Wanted(r)
  }

  /** The device answers, and does not have what the flash was to leave. */
  ghost predicate Mismatch(r: Request, obs: Observation) {
    r.capability == FLASH && obs.online && !Shows(r, obs)
  }

  /** Success needs proof and a flash is never replayed on a device that answers; an
      offline device without proof leaves the outcome undetermined, whatever the facts. */
  lemma DecisionMeans(r: Request, obs: Observation)
    ensures Reconcile(r, obs) == Success <==> Shows(r, obs)
    ensures Reconcile(r, obs) == Manual <==> Mismatch(r, obs)
    ensures Reconcile(r, obs) == Undetermined <==> !obs.online && !Shows(r, obs)
    ensures Reconcile(r, obs) == Retry <==> obs.online && r.capability != "device.flash"
    ensures Shows(r, obs) <==>
              && r.capability == "device.flash" && "version" in r.parameters && r.parameters["version"] != ""
              && "flash.version" in obs.facts && obs.facts["flash.version"] == r.parameters["version"]
    ensures Mismatch(r, obs) <==> r.capability == "device.flash" && obs.online && !Shows(r, obs)
  {
  }
}

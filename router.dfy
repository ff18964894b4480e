/** The router of the agent workflow: from the status of the last analysis to
    the next step. It is defined beside the graph but no edge of the graph
    calls it. */
module Router {
  import opened Values
  import opened Messages
  import ToolDispatch

  /** `state.get('analysis_result', {}).get('status')`: `None` when the slot is
      absent or the result has no status. */
  function Status(slot: AnalysisSlot): Value
    requires slot.Present? ==> slot.value.Dict?
  {
    match slot
    case Absent => NoneValue
    case Present(result) => Get(result.fields, "status")
  }

  /** The statuses that send the workflow straight to the fraud report. */
  predicate Escalates(status: Value) {
    status in [Str("potential_fraud"), Str("image_quality_failure")]
  }

  /** `router`: the duplicate check after a successful analysis, the fraud
      report after a suspected fraud or a failed quality check, and the
      reasoner otherwise. A present result that is not a dictionary (`None`
      included) makes `.get` raise, so it is excluded. */
  function Route(slot: AnalysisSlot): (next: string)
    requires slot.Present? ==> slot.value.Dict?
    ensures next == "check_duplicate_nik_tool" <==> Status(slot) == Str("success")
    ensures next == "notify_fraud_tool" <==>
      Status(slot) == Str("potential_fraud") || Status(slot) == Str("image_quality_failure")
    ensures next == "agent" <==> !Status(slot).Str? || Status(slot).s !in {"success", "potential_fraud", "image_quality_failure"}
  {
    var status := Status(slot);
    if status == Str("success") then "check_duplicate_nik_tool"
    else if Escalates(status) then "notify_fraud_tool"
    else "agent"
  }

  /** The two tool steps the router picks are names the tools node resolves:
      the duplicate check and the fraud notification. */
  lemma RouteTargetsResolve(slot: AnalysisSlot)
    requires slot.Present? ==> slot.value.Dict?
    ensures Route(slot) != "agent" ==> ToolDispatch.Resolve(Route(slot)).Some?
    ensures Route(slot) == ToolDispatch.Name(ToolDispatch.CheckDuplicateNik) <==> Status(slot) == Str("success")
    ensures Route(slot) == ToolDispatch.Name(ToolDispatch.NotifyFraud) <==> Escalates(Status(slot))
  {
  }

  /** Before any analysis the slot is absent and the router continues the loop;
      so does a result without a status. */
  lemma NoStatusContinues(slot: AnalysisSlot)
    requires slot.Absent? || (slot.value.Dict? && "status" !in slot.value.fields)
    ensures Route(slot) == "agent"
  {
  }
}

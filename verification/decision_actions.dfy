/** `_decision_action`: what a signed lifecycle decision says about a document. */
module DecisionActions {
  import opened Records

  datatype Action = Retain | LegalHold | DisposalEligible | DisposalExecuted

  function DecisionAction(m: Document): Action {
    if m.purgeStatus == Purged then DisposalExecuted
    else if m.purgeStartedAt.Some? then DisposalExecuted
    else if m.holdStatus == Active then LegalHold
    else if m.purgeStatus == Eligible then DisposalEligible
    else Retain
  }

  function DecisionReason(m: Document): string {
    if m.purgeStatus == Purged then "purge_executed"
    else if m.purgeStartedAt.Some? then "purge_in_progress"
    else if m.holdStatus == Active then "legal_hold_active"
    else if m.purgeStatus == Eligible then "retention_elapsed"
    else "retention_period_active"
  }

  /** Destruction, completed or begun, is stated before anything else; then a hold, then a
      retention date passed, then retention. Each action and each reason has its condition. */
  ghost predicate States(m: Document, action: Action, reason: string) {
    var destroyed := m.purgeStatus == Purged || m.purgeStartedAt.Some?;
    var held := m.holdStatus == Active;
    && (action == DisposalExecuted <==> destroyed)
    && (action == LegalHold <==> !destroyed && held)
    && (action == DisposalEligible <==> !destroyed && !held && m.purgeStatus == Eligible)
    && (action == Retain <==> !destroyed && !held && m.purgeStatus == NotEligible)
    && (reason == "purge_executed" <==> m.purgeStatus == Purged)
    && (reason == "purge_in_progress" <==> m.purgeStatus != Purged && m.purgeStartedAt.Some?)
    && (reason == "legal_hold_active" <==> action == LegalHold)
    && (reason == "retention_elapsed" <==> action == DisposalEligible)
    && (reason == "retention_period_active" <==> action == Retain)
  }

  lemma ActionsAreExact(m: Document)
    ensures States(m, DecisionAction(m), DecisionReason(m))
  {
  }
}

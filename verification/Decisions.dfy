/**
 * Human decisions, field by field: when an approval launches its act, and what a decision or a resubmission leaves on
 * the item, its action and the audit log.
 */
module Decisions {
  import opened Domain
  import opened ActionModel
  import opened Admission

  /** The item, its action and the action's account are there. */
  predicate OnFile(w: World, approvalId: Id) {
    && approvalId in w.approvals && w.approvals[approvalId].actionId in w.actions
    && w.actions[w.approvals[approvalId].actionId].accountId in w.accounts
  }

  /** The draft that an action was made from, as it is now. */
  function CurrentDraft(w: World, a: Action): Option<ContentDraft> {
    if a.draftId.Some? && a.draftId.value in w.drafts then Some(w.drafts[a.draftId.value]) else None
  }

  predicate DraftKnown(w: World, a: Action) { a.draftId.Some? ==> a.draftId.value in w.drafts }

  /** The item's time is up. */
  predicate Late(item: Approval, now: Time) { item.expiresAt.Some? && item.expiresAt.value < now }

  /** The draft is not the revision that the item was made for. */
  predicate Changed(item: Approval, draft: Option<ContentDraft>) {
    draft.Some? && item.pinnedRevision.Some? && item.pinnedRevision != Some(draft.value.revision)
  }

  /** The item with a decision on it: action, account, pin and lifetime stay, and the reason without a new one. */
  function Decided(item: Approval, review: ReviewState, actor: string, reason: Option<string>, now: Time): Approval {
    Approval(item.id, item.actionId, item.accountId, review, item.pinnedRevision, Some(actor), Some(now),
             if reason.Some? then reason else item.reason, item.expiresAt)
  }

  /** The item goes back for changes and the action is refused, with this code in its event. */
  ghost predicate TurnsDown(w: World, b: Block, item: Approval, a: Action, actor: string, reason: string,
                            code: DenialCode) {
    b == Block(w.(approvals := w.approvals[item.id := Decided(item, ChangesRequested, actor, Some(reason), w.now)]),
               Settling(a, Refused, actor, Deny, Some(code)))
  }

  /** What an approval must come to: expiry, draft, revision and eligibility are looked at in this order. */
  ghost predicate Approves(w: World, b: Block, client: nat, item: Approval, a: Action, account: Account, actor: string,
                           reason: Option<string>) {
    var draft := CurrentDraft(w, a);
    if Late(item, w.now) then TurnsDown(w, b, item, a, actor, "approval expired", ApprovalStale)
    else if !DraftKnown(w, a) then b == Block(w, Stop)
    else if Changed(item, draft) then TurnsDown(w, b, item, a, actor, "draft changed after approval", ApprovalStale)
    else if account.status == Active && Consented(account.authorization, a.verb)
    then b == Block(w.(approvals := w.approvals[item.id := Decided(item, Approved, actor, reason, w.now)]),
                    Launching(client, Execution(a, account, draft, a.target, a.reactKind, actor, ApprovedBy(item.id))))
    else TurnsDown(w, b, item, a, actor, "account no longer eligible", NotAuthorized)
  }

  /** The three decisions; an item that is not on file changes nothing, and nothing asks for the item's review state. */
  lemma DecisionByFields(w: World, c: Command)
    requires Enabled(w, c) && c.DecideApproval?
    ensures var v, b := w.(now := c.now), BlockOf(w, c);
            if !OnFile(w, c.approvalId) then b == Block(v, Stop)
            else
              var item := w.approvals[c.approvalId];
              var a := w.actions[item.actionId];
              match c.decision
              case RequestChanges =>
                var asked := Decided(item, ChangesRequested, c.actor, c.reason, c.now);
                b == Block(v.(approvals := w.approvals[item.id := asked]), Stop)
              case Reject =>
                var why := if c.reason.None? || c.reason.value == "" then "rejected" else c.reason.value;
                TurnsDown(v, b, item, a, c.actor, why, ApprovalRequired)
              case Approve => Approves(v, b, c.client, item, a, w.accounts[a.accountId], c.actor, c.reason)
  {
  }

  /**
   * An approval launches its act if and only if item, action, account and draft are on file, the item's time is not up,
   * the draft is still the pinned revision, the account is active, and the owner's consent stands and covers the verb.
   */
  lemma ApprovalLaunchesExactlyWhen(w: World, c: Command)
    requires Enabled(w, c) && c.DecideApproval? && c.decision == Approve
    ensures BlockOf(w, c).ending.Launching? <==>
      && c.approvalId in w.approvals && w.approvals[c.approvalId].actionId in w.actions
      && var item := w.approvals[c.approvalId];
         var a := w.actions[item.actionId];
         && a.accountId in w.accounts && (a.draftId.Some? ==> a.draftId.value in w.drafts)
         && (item.expiresAt.Some? ==> c.now <= item.expiresAt.value)
         && (a.draftId.Some? && item.pinnedRevision.Some? ==>
               w.drafts[a.draftId.value].revision == item.pinnedRevision.value)
         && var account := w.accounts[a.accountId];
            && account.status == Active && account.authorization.authorized && account.authorization.revokedAt.None?
            && (if a.verb == Publish then MayPublish else if a.verb == Comment then MayComment
                else if a.verb == React then MayReact else MayRead) in account.authorization.consentScope
  {
    DecisionByFields(w, c);
  }

  /** A resubmission reopens the item at the current revision, forgets the decision, and restarts the lifetime. */
  lemma ResubmissionByFields(w: World, c: Command)
    requires Enabled(w, c) && c.ResubmitApproval?
    ensures var v, b := w.(now := c.now), BlockOf(w, c);
            if !OnFile(w, c.approvalId) || !DraftKnown(w, w.actions[w.approvals[c.approvalId].actionId])
            then b == Block(v, Stop)
            else
              var item := w.approvals[c.approvalId];
              var a := w.actions[item.actionId];
              var draft := CurrentDraft(w, a);
              var expiry := if w.config.approvalTtl > 0 then Some(c.now + w.config.approvalTtl) else None;
              var reopened := Approval(item.id, item.actionId, item.accountId, Open,
                                       if draft.Some? then Some(draft.value.revision) else None,
                                       None, None, None, expiry);
              var waiting := exists k :: k in w.tasks && w.tasks[k].Running? && w.tasks[k].x.action.id == a.id;
              && b.ending == Settling(a, NeedsApproval, c.caller, Route, Some(ApprovalRequired))
              && b.world == v.(approvals := w.approvals[item.id := reopened], seen := w.seen.(
                   pins := w.seen.pins[item.id := Pin(a.verb, a.target, a.reactKind, draft)],
                   reopenedInFlight := w.seen.reopenedInFlight + if waiting then {a.id} else {}))
  {
  }
}

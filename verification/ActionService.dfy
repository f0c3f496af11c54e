/**
 * The acting service over its mutable tables, queue and trackers. Each method is one synchronous block of the
 * service; `model` is the world it stands for, and every block is proved to be the step that `ActionModel` takes.
 * The locals of a suspended call are handed back to the block that resumes it.
 */
module Service {
  import opened Domain
  import opened Ids
  import opened Policies
  import opened Trackers
  import opened Guards
  import opened Approvals
  import opened ActionModel
  import opened Admission
  import opened Decisions
  import opened Effects

  /** What a call comes back with: an action, a suspension of `_execute` or of a read, or an error. */
  datatype Answer = Returned(action: Action) | Waiting(x: Execution) | WaitingForTarget(r: Request) | NotFound | Raised

  /** What a launched execution answers: a suspension where the adapter is called, else its finished action. */
  function LaunchAnswer(x: Execution): Answer {
    if GoesLive(x.action.verb, x.account.platform) then Waiting(x.(action := x.action.(state := Executing)))
    else Returned(x.action.(state := if Acts(x.action.verb) then Done else Failed))
  }

  /** What a submission whose key is free answers. */
  function SubmissionAnswer(w: World, r: Request, target: Option<TargetRef>, actionId: Id): Answer {
    var a := Asked(r, target, actionId);
    if Refusal(w, r, target).Some? then Returned(a.(state := Refused))
    else if SelfApproved(r.account, r.verb, target)
    then LaunchAnswer(Execution(a, r.account, r.draft, target, r.kind, r.caller, Submitted))
    else Returned(a.(state := NeedsApproval))
  }

  function ReadAnswer(w: World, r: Request, target: Option<TargetRef>, actionId: Id): Answer {
    var a := Asked(r, target, actionId);
    if Refusal(w, r, target).Some? then Returned(a.(state := Refused))
    else Waiting(Execution(a.(state := Executing), r.account, None, target, None, r.caller, Submitted))
  }

  function ApprovalAnswer(w: World, item: Approval, a: Action, account: Account, actor: string): Answer {
    if Late(item, w.now) then Returned(a.(state := Refused))
    else if !DraftKnown(w, a) then NotFound
    else if !Changed(item, CurrentDraft(w, a)) && MayStill(account, a.verb)
    then LaunchAnswer(Execution(a, account, CurrentDraft(w, a), a.target, a.reactKind, actor, ApprovedBy(item.id)))
    else Returned(a.(state := Refused))
  }

  /** The account is active and the owner's consent covers the verb. */
  predicate MayStill(account: Account, verb: Verb) {
    account.status == Active && Consented(account.authorization, verb)
  }

  lemma EligibleMayStill(account: Account, a: Action)
    ensures MayStill(account, a.verb)
       <==> account.IsActive() && account.authorization.Permits(ConsentFor(a.verb))
  {
  }

  function DecisionAnswer(w: World, approvalId: Id, decision: ReviewDecision, actor: string): Answer {
    if !OnFile(w, approvalId) then NotFound
    else
      var item := w.approvals[approvalId];
      var a := w.actions[item.actionId];
      match decision
      case RequestChanges => Returned(a)
      case Reject => Returned(a.(state := Refused))
      case Approve => ApprovalAnswer(w, item, a, w.accounts[a.accountId], actor)
  }

  /** A known key answers with the stored action that has it. */
  predicate Replays(answer: Answer, actions: map<Id, Action>, key: Option<string>) {
    && answer.Returned? && answer.action.key == key
    && answer.action.id in actions && actions[answer.action.id] == answer.action
  }

  /** What each verdict answers, and so what the judged request does. */
  function VerdictAnswer(verdict: Outcome, r: Request, target: Option<TargetRef>, a: Action): Answer {
    match verdict
    case Deny => Returned(a.(state := Refused))
    case Route => Returned(a.(state := NeedsApproval))
    case Allow => LaunchAnswer(Execution(a, r.account, r.draft, target, r.kind, r.caller, Submitted))
  }

  lemma VerdictIsAnswered(w: World, r: Request, target: Option<TargetRef>, actionId: Id)
    requires Acts(r.verb)
    ensures VerdictAnswer(Judge(w, r, target).outcome, r, target, Asked(r, target, actionId))
         == SubmissionAnswer(w, r, target, actionId)
  {
    JudgedByFields(w, r, target);
  }

  /** The step of a publish: a submission of the stored records, or nothing but the clock. */
  lemma PublishStep(w: World, c: Command)
    requires Enabled(w, c) && c.SubmitPublish?
    ensures var v := w.(now := c.now);
            Step(w, c) == if c.accountId !in w.accounts || c.draftId !in w.drafts then v
                          else Close(SubmitWrite(v, c.client, PublishRequest(w, c), None, c.actionId, c.approvalId))
  {
  }

  /** The step of a resubmission: the item reopened and its action waiting, or nothing but the clock. */
  lemma ResubmissionStep(w: World, c: Command)
    requires Enabled(w, c) && c.ResubmitApproval?
    ensures var v := w.(now := c.now);
            if !OnFile(w, c.approvalId) || !DraftKnown(w, w.actions[w.approvals[c.approvalId].actionId])
            then Step(w, c) == v
            else
              var item := w.approvals[c.approvalId];
              var a := w.actions[item.actionId];
              var draft := DraftOf(w, a);
              var flagged := if InFlight(w.tasks, a.id) then {a.id} else {};
              var u := v.(seen := v.seen.(reopenedInFlight := v.seen.reopenedInFlight + flagged));
              Step(w, c)
              == Settle(Pinned(u, Reopened(item, RevisionOf(draft), c.now, w.config.approvalTtl), a, draft), a,
                        NeedsApproval, c.caller, Route, Some(ApprovalRequired))
  {
  }

  /** The step of a resolved target: a submission or a read by the captured request. */
  lemma ResolvedStep(w: World, c: Command)
    requires Enabled(w, c) && c.TargetResolved?
    ensures var v, r := w.(now := c.now, tasks := w.tasks - {c.client}), w.tasks[c.client].request;
            Step(w, c) == Close(if Acts(r.verb)
                                then SubmitWrite(v, c.client, r, Some(c.target), c.actionId, c.approvalId)
                                else ActionModel.RunRead(v, c.client, r, Some(c.target), c.actionId))
  {
  }

  /** The step of an approval in time and with its draft on file. */
  lemma CurrentApproval(w: World, client: nat, item: Approval, a: Action, account: Account, actor: string,
                        reason: Option<string>)
    requires !Late(item, w.now) && DraftKnown(w, a)
    ensures var draft := CurrentDraft(w, a);
            ApproveItem(w, client, item, a, account, actor, reason)
            == if Changed(item, draft) then TurnDown(w, item, a, actor, "draft changed after approval", ApprovalStale)
               else if !MayStill(account, a.verb)
               then TurnDown(w, item, a, actor, "account no longer eligible", NotAuthorized)
               else Block(
                 WithApproval(w, Reviewed(item, Approved, actor, reason, w.now)),
                 Launching(client, Execution(a, account, draft, a.target, a.reactKind, actor, ApprovedBy(item.id))))
  {
  }

  /** The step of an edit, spelled out. */
  lemma EditStep(w: World, now: Time, draftId: Id, body: Option<string>, title: Option<string>,
                 media: Option<seq<string>>, disclosure: Option<string>)
    requires w.now <= now
    ensures var v := w.(now := now);
            Step(w, UpdateDraft(now, draftId, body, title, media, disclosure))
            == if draftId in w.drafts then StoreDraft(v, Edited(w.drafts[draftId], body, title, media, disclosure, now))
               else v
  {
  }

  class ActionService {
    const config: Config
    const queue: ApprovalQueue
    const engine: PolicyEngine
    const rate: RateLimiter
    const coordination: CoordinationTracker
    const ledger: SelfPromoLedger
    var accounts: map<Id, Account>
    var drafts: map<Id, ContentDraft>
    var actions: map<Id, Action>
    var audit: seq<AuditEvent>
    ghost var model: World

    ghost function Repr(): set<object> { {this, queue, rate, coordination, ledger} }

    ghost predicate Valid()
      reads Repr()
    {
      && model.config == config
      && accounts == model.accounts && drafts == model.drafts && actions == model.actions && audit == model.audit
      && queue.Valid() && queue.Items() == model.approvals && queue.ttl == config.approvalTtl
      && TrackersValid()
      && forall id :: id in actions ==> actions[id].id == id
    }

    /** The action is on file exactly so. */
    ghost predicate Filed(a: Action)
      reads this
    {
      a.id in actions && actions[a.id] == a
    }

    /** A returned action is the stored one, and a suspension left its locals behind. */
    ghost predicate Truthful(client: nat, answer: Answer)
      reads this
    {
      match answer
      case Returned(a) => Filed(a)
      case Waiting(x) => client in model.tasks
        && (model.tasks[client] == Running(x) || model.tasks[client] == Reading(x))
      case WaitingForTarget(r) => client in model.tasks && model.tasks[client] == Resolving(r)
      case _ => true
    }

    ghost predicate TrackersValid()
      reads Repr()
    {
      && PolicyEngine.Shows(rate, coordination, ledger, model.trackers)
      && rate.Last <= model.now && coordination.Last <= model.now
      && coordination.window == COORDINATION_WINDOW && coordination.max == config.maxDistinctAccounts
      && engine.guards == DEFAULT_GUARDS
    }

    constructor (settings: Config, ghost start: Time)
      ensures Valid() && fresh(Repr()) && model == Initial(settings, start)
    {
      config := settings;
      queue := new ApprovalQueue(settings.approvalTtl);
      engine := new PolicyEngine(DEFAULT_GUARDS);
      rate := new RateLimiter(start);
      coordination := new CoordinationTracker(COORDINATION_WINDOW, settings.maxDistinctAccounts, start);
      ledger := new SelfPromoLedger();
      accounts, drafts, actions, audit := map[], map[], map[], [];
      model := Initial(settings, start);
    }

    // ---- building blocks ----

    /** The state is set, the action upserted and the event appended. */
    method Store(a: Action, s: ActionState, actor: string, outcome: Outcome, code: Option<DenialCode>)
      returns (stored: Action)
      requires Valid()
      modifies this
      ensures Valid() && model == Settle(old(model), a, s, actor, outcome, code)
      ensures stored == a.(state := s) && Filed(stored)
    {
      stored := a.(state := s);
      actions := actions[stored.id := stored];
      audit := audit + [AuditEvent(actor, VerbName(stored.verb), outcome, stored.accountId, Some(stored.id), code)];
      model := Settle(model, a, s, actor, outcome, code);
    }

    method ConsumeRate(x: Execution, now: Time)
      requires Valid() && model.now == now
      modifies this`model, rate
      ensures Valid() && model == old(model).(trackers := old(model).trackers.(
        rate := old(model).trackers.rate.Add(RateKey(x.account.id, x.action.verb), Hit("", now))))
    {
      rate.Consume(RateKey(x.account.id, x.action.verb), now);
      model := model.(trackers := model.trackers.(
        rate := model.trackers.rate.Add(RateKey(x.account.id, x.action.verb), Hit("", now))));
    }

    method RecordTarget(x: Execution, now: Time)
      requires Valid() && model.now == now
      modifies this`model, coordination
      ensures Valid() && model == old(model).(trackers := old(model).trackers.(
        coordination := if HitKey(x).Some?
                        then old(model).trackers.coordination.Add(HitKey(x).value, Hit(x.account.id, now))
                        else old(model).trackers.coordination))
    {
      if x.target.Some? && (x.action.verb == Comment || x.action.verb == React) {
        var key := TargetKey(x.account.platform, x.target.value);
        assert |key| > 0;
        coordination.Record(key, x.account.id, now);
        model := model.(trackers := model.trackers.(
          coordination := model.trackers.coordination.Add(key, Hit(x.account.id, now))));
      }
    }

    method RecordPromotion(x: Execution)
      requires Valid()
      modifies this`model, ledger
      ensures Valid() && model == old(model).(trackers := old(model).trackers.(
        promo := if PromoMark(config, x).Some?
                 then old(model).trackers.promo[x.account.id :=
                        old(model).trackers.PromoOf(x.account.id).Add(PromoMark(config, x).value)]
                 else old(model).trackers.promo))
    {
      if x.draft.Some? && (x.action.verb == Publish || x.action.verb == Comment) {
        var promotional := config.isPromotional(x.draft.value, x.account);
        ledger.Record(x.account.id, promotional);
        ghost var t := model.trackers;
        model := model.(trackers := t.(promo := t.promo[x.account.id := t.PromoOf(x.account.id).Add(promotional)]));
      }
    }

    /** The three tracker updates of a success. */
    method UpdateTrackers(x: Execution, now: Time)
      requires Valid() && model.now == now
      modifies this`model, rate, coordination, ledger
      ensures Valid() && model == old(model).(trackers := Track(config, old(model).trackers, x, now))
    {
      ConsumeRate(x, now);
      RecordTarget(x, now);
      RecordPromotion(x);
    }

    method Complete(x: Execution, now: Time) returns (stored: Action)
      requires Valid() && model.now == now
      modifies Repr()
      ensures Valid() && model == Succeed(old(model), x) && stored == x.action.(state := Done) && Filed(stored)
    {
      ghost var before := model;
      UpdateTrackers(x, now);
      model := model.(seen := before.seen.(executed := before.seen.executed + [ExecutedBy(before, x)]));
      stored := Store(x.action, Done, x.actor, Allow, None);
    }

    /** The branches of `_dispatch`: which adapter call is made, or none. */
    method Dispatching(x: Execution) returns (t: Transport)
      ensures t == TransportOf(x)
    {
      if x.action.verb == Publish {
        var policy := ResolvePolicy(x.account);
        if policy.publishMode == DraftOnly || policy.publishMode == Manual {
          return Staged;
        }
        return Live;
      }
      if x.action.verb == Comment {
        return Live;
      }
      if x.action.verb == React {
        return Live;
      }
      t := Unsupported;
    }

    /** The adapter is called; the rest of the call waits for its answer. */
    method Await(client: nat, x: Execution) returns (answer: Answer)
      requires Valid()
      modifies this`model
      ensures Valid() && answer == Waiting(x)
      ensures model == old(model).(tasks := old(model).tasks[client := Running(x)],
                                   seen := old(model).seen.(sent := old(model).seen.sent + [DispatchOf(old(model), x)]))
      ensures Truthful(client, answer)
    {
      answer := Waiting(x);
      model := model.(tasks := model.tasks[client := Running(x)],
                      seen := model.seen.(sent := model.seen.sent + [DispatchOf(model, x)]));
    }

    /** `_execute` up to its await, if its dispatch has anything to await. */
    method Start(client: nat, x: Execution, now: Time) returns (answer: Answer)
      requires Valid() && model.now == now
      modifies Repr()
      ensures Valid() && model == Execute(old(model), client, x)
      ensures Truthful(client, answer) && answer == LaunchAnswer(x)
    {
      LiveByPlatform(x);
      var y := x.(action := x.action.(state := Executing));
      actions := actions[y.action.id := y.action];
      model := WithAction(model, y.action);
      var transport := Dispatching(y);
      match transport {
        case Staged =>
          var stored := Complete(y, now);
          answer := Returned(stored);
        case Unsupported =>
          var stored := Store(y.action, Failed, y.actor, Deny, Some(CapabilityUnsupported));
          answer := Returned(stored);
        case Live =>
          answer := Await(client, y);
      }
    }

    /** `_execute` from its await on. */
    method Resume(client: nat, x: Execution, result: AdapterResult, now: Time) returns (answer: Answer)
      requires Valid() && model.now == now
      modifies Repr()
      ensures Valid() && model == Finish(old(model), client, x, result)
      ensures Truthful(client, answer)
      ensures answer == if result == RaisedOther then Raised
                        else Returned(x.action.(state := if result == Succeeded then Done else Failed))
    {
      model := model.(tasks := model.tasks - {client});
      var stored := x.action;
      match result {
        case RaisedInvalid => stored := Store(x.action, Failed, x.actor, Deny, Some(ContentInvalid));
        case RaisedUnsupported => stored := Store(x.action, Failed, x.actor, Deny, Some(CapabilityUnsupported));
        case Rejected => stored := Store(x.action, Failed, x.actor, Deny, None);
        case Succeeded => stored := Complete(x, now);
        case RaisedOther =>
          model := model.(seen := model.seen.(crashed := model.seen.crashed + {x.action.id}));
          return Raised;
      }
      answer := Returned(stored);
    }

    /** `_build_ctx` and the engine's verdict: a dry check that changes no outcome. */
    method Assess(r: Request, target: Option<TargetRef>, now: Time) returns (verdict: PolicyResult)
      requires Valid() && model.now == now
      modifies rate, coordination
      ensures Valid() && verdict == Judge(model, r, target)
    {
      var policy := ResolvePolicy(r.account);
      var c := GuardContext(r.account, r.verb, policy, r.caller, r.lockToken, r.draft, target, r.kind, now, config);
      verdict := engine.Run(c, rate, coordination, ledger, model.trackers);
    }

    method FindByKey(key: Option<string>) returns (found: Option<Action>)
      requires Valid()
      ensures found.Some? <==> KeyTaken(actions, key)
      ensures found.Some? ==> found.value.key == key && Filed(found.value)
    {
      found := None;
      if key.Some? && key.value != "" {
        if id :| id in actions && actions[id].key == key {
          found := Some(actions[id]);
        }
      }
    }

    // ---- records ----

    /** A commit by the account services, with their event if they record one. */
    method AccountSaved(account: Account, audited: Option<string>, now: Time)
      requires Valid() && Enabled(model, SaveAccount(now, account, audited))
      modifies this
      ensures Valid() && model == Step(old(model), SaveAccount(now, account, audited))
    {
      accounts := accounts[account.id := account];
      if audited.Some? {
        audit := audit + [AuditEvent("", audited.value, Allow, account.id, None, None)];
      }
      model := model.(now := now, accounts := accounts, audit := audit);
    }

    method SaveDraft(d: ContentDraft)
      requires Valid()
      modifies this`drafts, this`model
      ensures Valid() && model == StoreDraft(old(model), d)
    {
      drafts := drafts[d.id := d];
      model := StoreDraft(model, d);
    }

    method CreateDraft(draft: ContentDraft, now: Time) returns (found: bool)
      requires Valid() && Enabled(model, Command.CreateDraft(now, draft))
      modifies this`drafts, this`model
      ensures Valid() && model == Step(old(model), Command.CreateDraft(now, draft))
      ensures found <==> draft.accountId in accounts
    {
      model := model.(now := now);
      found := draft.accountId in accounts;
      if found {
        SaveDraft(draft);
      }
    }

    /** The assignments of an edit: every one of them is followed by a bump of the revision. */
    static method EditDraft(d: ContentDraft, body: Option<string>, title: Option<string>, media: Option<seq<string>>,
                            disclosure: Option<string>, now: Time) returns (draft: ContentDraft)
      ensures draft == Edited(d, body, title, media, disclosure, now)
      ensures draft.id == d.id && draft.accountId == d.accountId
      ensures draft.body == if body == None then d.body else body.value
      ensures draft.title == if title == None then d.title else title
      ensures draft.media == if media == None then d.media else media.value
      ensures draft.disclosure == if disclosure == None then d.disclosure else disclosure
      ensures draft.revision == d.revision + 1 && draft.updatedAt == now
    {
      draft := d;
      if body.Some? {
        draft := draft.(body := body.value);
      }
      if title.Some? {
        draft := draft.(title := title);
      }
      if media.Some? {
        draft := draft.(media := media.value);
      }
      if disclosure.Some? {
        draft := draft.(disclosure := disclosure);
      }
      draft := draft.(revision := draft.revision + 1);
      draft := draft.(updatedAt := now);
    }

    method UpdateDraft(draftId: Id, body: Option<string>, title: Option<string>, media: Option<seq<string>>,
                       disclosure: Option<string>, now: Time) returns (found: bool)
      requires Valid() && model.now <= now
      modifies this`drafts, this`model
      ensures Valid() && model == Step(old(model), Command.UpdateDraft(now, draftId, body, title, media, disclosure))
      ensures found <==> draftId in old(drafts)
    {
      EditStep(model, now, draftId, body, title, media, disclosure);
      model := model.(now := now);
      found := draftId in drafts;
      if found {
        var draft := EditDraft(drafts[draftId], body, title, media, disclosure, now);
        SaveDraft(draft);
      }
    }

    // ---- writes ----

    method Queue(r: Request, a: Action, approvalId: Id, now: Time) returns (stored: Action)
      requires Valid() && model.now == now
      modifies Repr()
      ensures Valid() && stored == a.(state := NeedsApproval) && Filed(stored)
      ensures model == Settle(Pinned(old(model), NewItem(approvalId, a, RevisionOf(r.draft), now, config.approvalTtl),
                                     a, r.draft),
                              a, NeedsApproval, r.caller, Route, Some(ApprovalRequired))
    {
      var pinned := if r.draft.Some? then Some(r.draft.value.revision) else None;
      var item := queue.Submit(approvalId, a, pinned, now);
      model := Pinned(model, item, a, r.draft);
      stored := Store(a, NeedsApproval, r.caller, Route, Some(ApprovalRequired));
    }

    /** Refused, queued or executed, as the engine said. */
    method Act(client: nat, r: Request, target: Option<TargetRef>, a: Action, approvalId: Id, verdict: PolicyResult,
               now: Time)
      returns (answer: Answer)
      requires Valid() && model.now == now
      modifies Repr()
      ensures Valid() && model == Close(Dispose(old(model), client, r, target, a, approvalId, verdict))
      ensures Truthful(client, answer)
      ensures answer == VerdictAnswer(verdict.outcome, r, target, a)
    {
      match verdict.outcome {
        case Deny =>
          var stored := Store(a, Refused, r.caller, Deny, verdict.code);
          answer := Returned(stored);
        case Route =>
          var stored := Queue(r, a, approvalId, now);
          answer := Returned(stored);
        case Allow =>
          answer := Start(client, Execution(a, r.account, r.draft, target, r.kind, r.caller, Submitted), now);
      }
    }

    /** `_submit_write`. A known key answers with the stored action and touches nothing. */
    method Submit(client: nat, r: Request, target: Option<TargetRef>, actionId: Id, approvalId: Id, now: Time)
      returns (answer: Answer)
      requires Valid() && model.now == now
      modifies Repr()
      ensures Valid() && model == Close(SubmitWrite(old(model), client, r, target, actionId, approvalId))
      ensures KeyOnFile(old(model), r.key) ==> model == old(model) && Replays(answer, old(actions), r.key)
      ensures !KeyOnFile(old(model), r.key) && Acts(r.verb) ==>
        answer == SubmissionAnswer(old(model), r, target, actionId)
      ensures Truthful(client, answer)
    {
      if Acts(r.verb) {
        VerdictIsAnswered(model, r, target, actionId);
      }
      var existing := FindByKey(r.key);
      if existing.Some? {
        return Returned(existing.value);
      }
      var verdict := Assess(r, target, now);
      model := model.(used := model.used + {actionId, approvalId});
      var a := Action(actionId, r.account.id, r.verb, target, if r.draft.Some? then Some(r.draft.value.id) else None,
                      r.kind, r.caller, r.key, Pending);
      answer := Act(client, r, target, a, approvalId, verdict, now);
    }

    /** `publish`. */
    method PublishDraft(client: nat, caller: string, accountId: Id, lockToken: string, draftId: Id, key: Option<string>,
                   actionId: Id, approvalId: Id, now: Time) returns (answer: Answer)
      requires Valid()
      requires
        Enabled(model, SubmitPublish(now, client, caller, accountId, lockToken, draftId, key, actionId, approvalId))
      modifies Repr()
      ensures Valid()
      ensures model ==
        Step(old(model), SubmitPublish(now, client, caller, accountId, lockToken, draftId, key, actionId, approvalId))
      ensures answer == NotFound <==> accountId !in old(accounts) || draftId !in old(drafts)
      ensures answer != NotFound ==>
        var r := Request(caller, old(accounts)[accountId], Publish, Some(lockToken), Some(old(drafts)[draftId]), None,
                         key);
        if KeyOnFile(old(model), key) then Replays(answer, old(actions), key)
        else answer == SubmissionAnswer(old(model).(now := now), r, None, actionId)
      ensures Truthful(client, answer)
    {
      PublishStep(model, SubmitPublish(now, client, caller, accountId, lockToken, draftId, key, actionId, approvalId));
      model := model.(now := now);
      if accountId !in accounts || draftId !in drafts {
        return NotFound;
      }
      var r := Request(caller, accounts[accountId], Publish, Some(lockToken), Some(drafts[draftId]), None, key);
      answer := Submit(client, r, None, actionId, approvalId, now);
    }

    /** `comment` up to its await: account and draft are read now, and judged later as they were now. */
    method BeginComment(client: nat, caller: string, accountId: Id, lockToken: string, draftId: Id,
                        key: Option<string>, now: Time)
      returns (answer: Answer)
      requires Valid()
      requires Enabled(model, BeginTargeted(now, client, caller, accountId, Comment, lockToken, draftId, "", key))
      modifies this`model
      ensures Valid() && model ==
        Step(old(model), BeginTargeted(now, client, caller, accountId, Comment, lockToken, draftId, "", key))
      ensures Truthful(client, answer)
      ensures answer == if accountId !in old(accounts) || draftId !in old(drafts) then NotFound
                        else WaitingForTarget(Request(caller, old(accounts)[accountId], Comment, Some(lockToken),
                                                      Some(old(drafts)[draftId]), None, key))
    {
      model := model.(now := now);
      if accountId !in accounts || draftId !in drafts {
        return NotFound;
      }
      var r := Request(caller, accounts[accountId], Comment, Some(lockToken), Some(drafts[draftId]), None, key);
      model := model.(tasks := model.tasks[client := Resolving(r)]);
      answer := WaitingForTarget(r);
    }

    /** `react` up to its await. */
    method BeginReact(client: nat, caller: string, accountId: Id, lockToken: string, kind: string, key: Option<string>,
                      now: Time)
      returns (answer: Answer)
      requires Valid() && Enabled(model, BeginTargeted(now, client, caller, accountId, React, lockToken, "", kind, key))
      modifies this`model
      ensures Valid() && model ==
        Step(old(model), BeginTargeted(now, client, caller, accountId, React, lockToken, "", kind, key))
      ensures Truthful(client, answer)
      ensures answer == if accountId !in old(accounts) then NotFound
                        else WaitingForTarget(Request(caller, old(accounts)[accountId], React, Some(lockToken), None,
                                                      Some(kind), key))
    {
      model := model.(now := now);
      if accountId !in accounts {
        return NotFound;
      }
      var r := Request(caller, accounts[accountId], React, Some(lockToken), None, Some(kind), key);
      model := model.(tasks := model.tasks[client := Resolving(r)]);
      answer := WaitingForTarget(r);
    }

    /** `comment`, `react` and `read` once their target is resolved. */
    method ResumeWithTarget(client: nat, r: Request, target: TargetRef, actionId: Id, approvalId: Id, now: Time)
      returns (answer: Answer)
      requires Valid() && Enabled(model, TargetResolved(now, client, target, actionId, approvalId))
      requires model.tasks[client] == Resolving(r)
      modifies Repr()
      ensures Valid() && model == Step(old(model), TargetResolved(now, client, target, actionId, approvalId))
      ensures Truthful(client, answer)
      ensures var w := old(model).(now := now, tasks := old(model).tasks - {client});
              if !Acts(r.verb) then answer == ReadAnswer(w, r, Some(target), actionId)
              else if KeyOnFile(w, r.key) then Replays(answer, old(actions), r.key)
              else answer == SubmissionAnswer(w, r, Some(target), actionId)
    {
      ResolvedStep(model, TargetResolved(now, client, target, actionId, approvalId));
      model := model.(now := now, tasks := model.tasks - {client});
      if IsWrite(r.verb) {
        answer := Submit(client, r, Some(target), actionId, approvalId, now);
      } else {
        answer := RunRead(client, r, Some(target), actionId, now);
      }
    }

    /** A failing resolution escapes the call. */
    method AbandonTarget(client: nat, now: Time)
      requires Valid() && Enabled(model, TargetFailed(now, client))
      modifies this`model
      ensures Valid() && model == Step(old(model), TargetFailed(now, client))
    {
      model := model.(now := now, tasks := model.tasks - {client});
    }

    /** The adapter answered a write. */
    method ResumeWrite(client: nat, x: Execution, result: AdapterResult, now: Time) returns (answer: Answer)
      requires Valid() && Enabled(model, AdapterReturned(now, client, result)) && model.tasks[client] == Running(x)
      modifies Repr()
      ensures Valid() && model == Step(old(model), AdapterReturned(now, client, result))
      ensures Truthful(client, answer)
      ensures answer.Raised? <==> result == RaisedOther
      ensures !answer.Raised? ==>
        && answer.Returned? && answer.action.id == x.action.id
        && answer.action == x.action.(state := if result == Succeeded then Done else Failed)
    {
      model := model.(now := now);
      answer := Resume(client, x, result, now);
    }

    // ---- reads ----

    /** A read that is not denied waits without having been stored. */
    method AdmitRead(client: nat, r: Request, target: Option<TargetRef>, a: Action, verdict: PolicyResult, now: Time)
      returns (answer: Answer)
      requires Valid() && model.now == now
      modifies this
      ensures Valid() && model == Close(Admit(old(model), client, r, target, a, verdict))
      ensures Truthful(client, answer)
      ensures answer == if verdict.outcome == Deny then Returned(a.(state := Refused))
                        else Waiting(Execution(a.(state := Executing), r.account, None, target, None, r.caller,
                                               Submitted))
    {
      if verdict.outcome == Deny {
        var stored := Store(a, Refused, r.caller, Deny, verdict.code);
        return Returned(stored);
      }
      var x := Execution(a.(state := Executing), r.account, None, target, None, r.caller, Submitted);
      model := model.(tasks := model.tasks[client := Reading(x)]);
      answer := Waiting(x);
    }

    /** `_run_read` up to its await. */
    method RunRead(client: nat, r: Request, target: Option<TargetRef>, actionId: Id, now: Time) returns (answer: Answer)
      requires Valid() && model.now == now
      modifies Repr()
      ensures Valid() && model == Close(ActionModel.RunRead(old(model), client, r, target, actionId))
      ensures Truthful(client, answer) && answer == ReadAnswer(old(model), r, target, actionId)
    {
      JudgedByFields(model, r, target);
      var verdict := Assess(r, target, now);
      model := model.(used := model.used + {actionId});
      var a := Action(actionId, r.account.id, r.verb, target, if r.draft.Some? then Some(r.draft.value.id) else None,
                      r.kind, r.caller, r.key, Pending);
      answer := AdmitRead(client, r, target, a, verdict, now);
    }

    /** `read` up to its await. */
    method StartRead(client: nat, caller: string, accountId: Id, now: Time) returns (answer: Answer)
      requires Valid() && Enabled(model, BeginRead(now, client, caller, accountId))
      modifies this`model
      ensures Valid() && model == Step(old(model), BeginRead(now, client, caller, accountId))
      ensures Truthful(client, answer)
      ensures answer == if accountId !in old(accounts) then NotFound
                        else WaitingForTarget(Request(caller, old(accounts)[accountId], Read, None, None, None, None))
    {
      model := model.(now := now);
      if accountId !in accounts {
        return NotFound;
      }
      var r := Request(caller, accounts[accountId], Read, None, None, None, None);
      model := model.(tasks := model.tasks[client := Resolving(r)]);
      answer := WaitingForTarget(r);
    }

    /** `search`, which has no target to resolve. */
    method StartSearch(client: nat, caller: string, accountId: Id, actionId: Id, now: Time) returns (answer: Answer)
      requires Valid() && Enabled(model, BeginSearch(now, client, caller, accountId, actionId))
      modifies Repr()
      ensures Valid() && model == Step(old(model), BeginSearch(now, client, caller, accountId, actionId))
      ensures Truthful(client, answer)
      ensures answer == if accountId !in old(accounts) then NotFound
                        else
                          var r := Request(caller, old(accounts)[accountId], Search, None, None, None, None);
                          ReadAnswer(old(model).(now := now), r, None, actionId)
    {
      model := model.(now := now);
      if accountId !in accounts {
        return NotFound;
      }
      answer := RunRead(client, Request(caller, accounts[accountId], Search, None, None, None, None), None, actionId,
                        now);
    }

    method CompleteRead(client: nat, x: Execution, now: Time) returns (answer: Answer)
      requires Valid() && model.now == now
      modifies Repr()
      ensures Valid() && model == FinishRead(old(model), client, x) && answer == Returned(x.action.(state := Done))
      ensures Filed(answer.action)
      ensures Truthful(client, answer)
    {
      model := model.(tasks := model.tasks - {client});
      ConsumeRate(x, now);
      model := model.(seen := model.seen.(executed := model.seen.executed +
        [Executed(x.account.id, x.action.verb, now, Submitted, None, false, None)]));
      var stored := Store(x.action, Done, x.actor, Allow, None);
      answer := Returned(stored);
    }

    /** `_run_read` from its await on; an exception escapes it. */
    method ResumeRead(client: nat, x: Execution, ok: bool, now: Time) returns (answer: Answer)
      requires Valid() && Enabled(model, ReadReturned(now, client, ok)) && model.tasks[client] == Reading(x)
      modifies Repr()
      ensures Valid() && model == Step(old(model), ReadReturned(now, client, ok))
      ensures answer == if ok then Returned(x.action.(state := Done)) else Raised
      ensures Truthful(client, answer)
    {
      model := model.(now := now);
      if !ok {
        model := model.(tasks := model.tasks - {client});
        return Raised;
      }
      answer := CompleteRead(client, x, now);
    }

    /** `validate` once its target is known: whatever it answers, no later answer depends on it. */
    method Validate(r: Request, target: Option<TargetRef>, now: Time) returns (verdict: PolicyResult)
      requires Valid() && model.now <= now
      modifies this`model, rate, coordination
      ensures Valid() && model == old(model).(now := now)
      ensures verdict == Judge(model, r, target)
      ensures var refusal := Refusal(old(model).(now := now), r, target);
              && (verdict.outcome == Deny <==> refusal.Some?) && (refusal.Some? ==> verdict.code == refusal)
              && (verdict.outcome == Route
                  <==> refusal.None? && Acts(r.verb) && !SelfApproved(r.account, r.verb, target))
    {
      model := model.(now := now);
      JudgedByFields(model, r, target);
      verdict := Assess(r, target, now);
    }

    // ---- approvals ----

    /** An item with its action, if both are on file, and the action's account too. */
    method FindItem(approvalId: Id) returns (found: Option<(Approval, Action)>)
      requires Valid()
      ensures found.Some? <==>
        && approvalId in model.approvals && model.approvals[approvalId].actionId in actions
        && actions[model.approvals[approvalId].actionId].accountId in accounts
      ensures found.Some? ==>
        found.value == (model.approvals[approvalId], actions[model.approvals[approvalId].actionId])
    {
      var item := queue.Get(approvalId);
      if item.None? || item.value.actionId !in actions {
        return None;
      }
      var a := actions[item.value.actionId];
      found := if a.accountId in accounts then Some((item.value, a)) else None;
    }

    /** The draft an action was made from; an action without one is fine. */
    method FindDraft(a: Action) returns (known: bool, draft: Option<ContentDraft>)
      requires Valid()
      ensures known <==> (a.draftId.Some? ==> a.draftId.value in drafts)
      ensures known ==> draft == DraftOf(model, a)
    {
      known, draft := true, None;
      if a.draftId.Some? {
        known := a.draftId.value in drafts;
        if known {
          draft := Some(drafts[a.draftId.value]);
        }
      }
    }

    /** A refusal: the item asks for changes, the action is refused, one event says why. */
    method TurnItemDown(item: Approval, a: Action, actor: string, reason: string, code: DenialCode, now: Time)
      returns (answer: Answer)
      requires Valid() && model.now == now
      modifies Repr()
      ensures Valid() && model == Close(TurnDown(old(model), item, a, actor, reason, code))
      ensures answer == Returned(a.(state := Refused)) && Filed(answer.action)
    {
      var reviewed := queue.SetState(item, ChangesRequested, actor, Some(reason), now);
      model := WithApproval(model, reviewed);
      var stored := Store(a, Refused, actor, Deny, Some(code));
      answer := Returned(stored);
    }

    method StartApproved(client: nat, item: Approval, x: Execution, reason: Option<string>, now: Time)
      returns (answer: Answer)
      requires Valid() && model.now == now
      modifies Repr()
      ensures Valid() && model == Execute(WithApproval(old(model), Reviewed(item, Approved, x.actor, reason, now)),
                                          client, x)
      ensures Truthful(client, answer) && answer == LaunchAnswer(x)
    {
      var reviewed := queue.SetState(item, Approved, x.actor, reason, now);
      model := WithApproval(model, reviewed);
      answer := Start(client, x, now);
    }

    /** Staleness and eligibility are checked again; rate, coordination and promotion are not. */
    method ApproveCurrent(client: nat, item: Approval, a: Action, account: Account, draft: Option<ContentDraft>,
                          actor: string, reason: Option<string>, now: Time) returns (answer: Answer)
      requires Valid() && model.now == now
      modifies Repr()
      ensures Valid() && Truthful(client, answer)
      ensures answer == if Changed(item, draft) || !MayStill(account, a.verb) then Returned(a.(state := Refused))
                        else LaunchAnswer(Execution(a, account, draft, a.target, a.reactKind, actor,
                                                    ApprovedBy(item.id)))
      ensures Changed(item, draft) ==>
        model == Close(TurnDown(old(model), item, a, actor, "draft changed after approval", ApprovalStale))
      ensures !Changed(item, draft) && !MayStill(account, a.verb) ==>
        model == Close(TurnDown(old(model), item, a, actor, "account no longer eligible", NotAuthorized))
      ensures !Changed(item, draft) && MayStill(account, a.verb) ==>
        model == Execute(WithApproval(old(model), Reviewed(item, Approved, actor, reason, now)), client,
                         Execution(a, account, draft, a.target, a.reactKind, actor, ApprovedBy(item.id)))
    {
      if draft.Some? && item.pinnedRevision.Some? && draft.value.revision != item.pinnedRevision.value {
        answer := TurnItemDown(item, a, actor, "draft changed after approval", ApprovalStale, now);
        return;
      }
      EligibleMayStill(account, a);
      if !account.IsActive() || !account.authorization.Permits(ConsentFor(a.verb)) {
        answer := TurnItemDown(item, a, actor, "account no longer eligible", NotAuthorized, now);
        return;
      }
      var x := Execution(a, account, draft, a.target, a.reactKind, actor, ApprovedBy(item.id));
      answer := StartApproved(client, item, x, reason, now);
    }

    /** The `approve` branch: an item past its lifetime is turned down before anything else is looked at. */
    method ApproveOne(client: nat, item: Approval, a: Action, account: Account, actor: string, reason: Option<string>,
                      now: Time)
      returns (answer: Answer)
      requires Valid() && model.now == now
      modifies Repr()
      ensures Valid() && model == Close(ApproveItem(old(model), client, item, a, account, actor, reason))
      ensures Truthful(client, answer) && answer == ApprovalAnswer(old(model), item, a, account, actor)
    {
      ghost var w := model;
      if item.expiresAt.Some? && now > item.expiresAt.value {
        answer := TurnItemDown(item, a, actor, "approval expired", ApprovalStale, now);
        return;
      }
      var known, draft := FindDraft(a);
      if !known {
        return NotFound;
      }
      assert draft == CurrentDraft(w, a);
      answer := ApproveCurrent(client, item, a, account, draft, actor, reason, now);
      CurrentApproval(w, client, item, a, account, actor, reason);
    }

    /** The three decisions. */
    method ReviewItem(client: nat, item: Approval, a: Action, decision: ReviewDecision, actor: string,
                      reason: Option<string>, now: Time) returns (answer: Answer)
      requires Valid() && model.now == now && Filed(a) && a.accountId in accounts
      modifies Repr()
      ensures Valid() && Truthful(client, answer)
      ensures answer == match decision
                        case RequestChanges => Returned(a)
                        case Reject => Returned(a.(state := Refused))
                        case Approve => ApprovalAnswer(old(model), item, a, old(accounts)[a.accountId], actor)
      ensures decision == RequestChanges ==>
        model == WithApproval(old(model), Reviewed(item, ChangesRequested, actor, reason, now))
      ensures decision == Reject ==>
        var why := if reason.Some? && reason.value != "" then reason.value else "rejected";
        model == Close(TurnDown(old(model), item, a, actor, why, ApprovalRequired))
      ensures decision == Approve ==>
        model == Close(ApproveItem(old(model), client, item, a, old(accounts)[a.accountId], actor, reason))
    {
      match decision {
        case RequestChanges =>
          var reviewed := queue.SetState(item, ChangesRequested, actor, reason, now);
          model := WithApproval(model, reviewed);
          answer := Returned(a);
        case Reject =>
          var why := if reason.Some? && reason.value != "" then reason.value else "rejected";
          answer := TurnItemDown(item, a, actor, why, ApprovalRequired, now);
        case Approve =>
          answer := ApproveOne(client, item, a, accounts[a.accountId], actor, reason, now);
      }
    }

    /** `decide_approval`. The item's review state is never consulted. */
    method DecideItem(client: nat, approvalId: Id, decision: ReviewDecision, actor: string, reason: Option<string>,
                      now: Time)
      returns (answer: Answer)
      requires Valid() && Enabled(model, DecideApproval(now, client, approvalId, decision, actor, reason))
      modifies Repr()
      ensures Valid() && model == Step(old(model), DecideApproval(now, client, approvalId, decision, actor, reason))
      ensures Truthful(client, answer) && answer == DecisionAnswer(old(model).(now := now), approvalId, decision, actor)
    {
      model := model.(now := now);
      var found := FindItem(approvalId);
      if found.None? {
        return NotFound;
      }
      var (item, a) := found.value;
      answer := ReviewItem(client, item, a, decision, actor, reason, now);
    }

    /** Notes whether an execution of the action is still waiting. */
    ghost method Observe(actionId: Id)
      requires Valid()
      modifies this`model
      ensures Valid()
      ensures var flagged := if InFlight(old(model).tasks, actionId) then {actionId} else {};
              model == old(model).(seen := old(model).seen.(
                reopenedInFlight := old(model).seen.reopenedInFlight + flagged))
    {
      var flagged := if InFlight(model.tasks, actionId) then {actionId} else {};
      model := model.(seen := model.seen.(reopenedInFlight := model.seen.reopenedInFlight + flagged));
    }

    /** The item is reopened against the latest revision and the action waits for review again. */
    method Reopen(caller: string, item: Approval, a: Action, draft: Option<ContentDraft>, now: Time)
      returns (answer: Answer)
      requires Valid() && model.now == now
      modifies Repr()
      ensures Valid() && answer == Returned(a.(state := NeedsApproval)) && Filed(answer.action)
      ensures var flagged := if InFlight(old(model).tasks, a.id) then {a.id} else {};
              var w := old(model).(seen := old(model).seen.(
                reopenedInFlight := old(model).seen.reopenedInFlight + flagged));
              model == Settle(Pinned(w, Reopened(item, RevisionOf(draft), now, config.approvalTtl), a, draft),
                              a, NeedsApproval, caller, Route, Some(ApprovalRequired))
    {
      Observe(a.id);
      var reopened := queue.Reopen(item, if draft.Some? then Some(draft.value.revision) else None, now);
      model := Pinned(model, reopened, a, draft);
      var stored := Store(a, NeedsApproval, caller, Route, Some(ApprovalRequired));
      answer := Returned(stored);
    }

    /** The records a resubmission needs: the item, its action, and the action's account and draft, if any. */
    ghost predicate Resubmittable(approvalId: Id)
      reads Repr()
    {
      && approvalId in queue.Items() && queue.Items()[approvalId].actionId in actions
      && var a := actions[queue.Items()[approvalId].actionId];
         a.accountId in accounts && (a.draftId.Some? ==> a.draftId.value in drafts)
    }

    /** `resubmit_approval`. Neither the item's nor the action's state is consulted. */
    method ResubmitItem(caller: string, approvalId: Id, now: Time) returns (answer: Answer)
      requires Valid() && Enabled(model, ResubmitApproval(now, caller, approvalId))
      modifies Repr()
      ensures Valid() && model == Step(old(model), ResubmitApproval(now, caller, approvalId))
      ensures if old(Resubmittable(approvalId))
              then answer == Returned(old(actions)[old(queue.Items())[approvalId].actionId].(state := NeedsApproval))
                   && Filed(answer.action)
              else answer == NotFound
    {
      ResubmissionStep(model, ResubmitApproval(now, caller, approvalId));
      model := model.(now := now);
      var found := FindItem(approvalId);
      if found.None? {
        return NotFound;
      }
      var (item, a) := found.value;
      var known, draft := FindDraft(a);
      if !known {
        return NotFound;
      }
      answer := Reopen(caller, item, a, draft, now);
    }
  }
}

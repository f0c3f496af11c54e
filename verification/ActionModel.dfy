/**
 * The acting state machine as a step system. A command is one synchronous block of the service: it runs
 * from a call or a resumption to the next adapter await. Blocks of any number of callers interleave.
 */
module ActionModel {
  import opened Domain
  import opened Ids
  import opened Policies
  import opened Trackers
  import opened Guards
  import opened Approvals

  /** How an execution came about. */
  datatype Via = Submitted | ApprovedBy(approval: Id)

  /** The locals of a suspended `_execute`: its own copies of action, account and draft. */
  datatype Execution = Execution(
    action: Action, account: Account, draft: Option<ContentDraft>, target: Option<TargetRef>,
    kind: Option<string>, actor: string, via: Via)

  /** The arguments of a write or read call, with the records it loaded before its first await. */
  datatype Request = Request(
    caller: string, account: Account, verb: Verb, lockToken: Option<string>,
    draft: Option<ContentDraft>, kind: Option<string>, key: Option<string>)

  datatype Task =
    | Resolving(request: Request)
    | Running(x: Execution)
    | Reading(x: Execution)

  datatype AdapterResult = Succeeded | Rejected | RaisedInvalid | RaisedUnsupported | RaisedOther

  datatype ReviewDecision = RequestChanges | Reject | Approve

  // ---- observations: logs that no decision reads ----

  /** A successful execution, with what it reported to the trackers. */
  datatype Executed = Executed(
    account: Id, verb: Verb, at: Time, via: Via, hit: Option<string>, checkedHit: bool, promo: Option<bool>)

  /** What a submission or reopening bound an approval to. */
  datatype Pin = Pin(verb: Verb, target: Option<TargetRef>, kind: Option<string>, draft: Option<ContentDraft>)

  /** A call of an adapter's write method, with the account it acts for, who caused it and when. */
  datatype Dispatch = Dispatch(
    verb: Verb, platform: Platform, actionId: Id, key: Option<string>, draft: Option<ContentDraft>,
    target: Option<TargetRef>, kind: string, via: Via, pin: Option<Pin>, account: Account, actor: string, at: Time)

  datatype Observed = Observed(
    executed: seq<Executed>, sent: seq<Dispatch>, pins: map<Id, Pin>,
    contents: map<(Id, int), ContentDraft>, crashed: set<Id>, reopenedInFlight: set<Id>)

  datatype World = World(
    config: Config, now: Time,
    accounts: map<Id, Account>, drafts: map<Id, ContentDraft>, actions: map<Id, Action>,
    approvals: map<Id, Approval>, audit: seq<AuditEvent>, trackers: TrackerState,
    tasks: map<nat, Task>, used: set<Id>, seen: Observed)

  datatype Command =
    | SaveAccount(now: Time, account: Account, audited: Option<string>)
    | CreateDraft(now: Time, draft: ContentDraft)
    | UpdateDraft(now: Time, draftId: Id, body: Option<string>, title: Option<string>,
                  media: Option<seq<string>>, disclosure: Option<string>)
    | SubmitPublish(now: Time, client: nat, caller: string, accountId: Id, lockToken: string, draftId: Id,
                    key: Option<string>, actionId: Id, approvalId: Id)
    | BeginTargeted(now: Time, client: nat, caller: string, accountId: Id, verb: Verb, lockToken: string,
                    draftId: Id, kind: string, key: Option<string>)
    | TargetResolved(now: Time, client: nat, target: TargetRef, actionId: Id, approvalId: Id)
    | TargetFailed(now: Time, client: nat)
    | AdapterReturned(now: Time, client: nat, result: AdapterResult)
    | BeginRead(now: Time, client: nat, caller: string, accountId: Id)
    | BeginSearch(now: Time, client: nat, caller: string, accountId: Id, actionId: Id)
    | ReadReturned(now: Time, client: nat, ok: bool)
    | DecideApproval(now: Time, client: nat, approvalId: Id, decision: ReviewDecision, actor: string,
                     reason: Option<string>)
    | ResubmitApproval(now: Time, caller: string, approvalId: Id)

  // ---- recording ----

  function WithAction(w: World, a: Action): World { w.(actions := w.actions[a.id := a]) }

  function WithApproval(w: World, a: Approval): World { w.(approvals := w.approvals[a.id := a]) }

  /** `AuditLogger.record` for an act. */
  function Recorded(w: World, actor: string, a: Action, outcome: Outcome, code: Option<DenialCode>): World {
    w.(audit := w.audit + [AuditEvent(actor, VerbName(a.verb), outcome, a.accountId, Some(a.id), code)])
  }

  /** The states an event's outcome can stand for. */
  predicate Agrees(s: ActionState, o: Outcome) {
    match o
    case Allow => s == Done
    case Route => s == NeedsApproval
    case Deny => s == Refused || s == Failed
  }

  /** Every synchronous block that changes an action's state ends by storing it and recording one event. */
  function Settle(w: World, a: Action, s: ActionState, actor: string, outcome: Outcome,
                  code: Option<DenialCode>): World {
    Recorded(WithAction(w, a.(state := s)), actor, a, outcome, code)
  }

  // ---- `_execute` ----

  datatype Transport = Live | Staged | Unsupported

  /** `_dispatch`: only API platforms publish through their adapter; the others stage the draft. */
  function TransportOf(x: Execution): Transport {
    match x.action.verb
    case Publish => if Resolve(x.account.platform, x.account.overrides).publishMode == Api then Live else Staged
    case Comment => Live
    case React => Live
    case _ => Unsupported
  }

  function DispatchOf(w: World, x: Execution): Dispatch {
    Dispatch(
      x.action.verb, x.account.platform, x.action.id, x.action.key, x.draft, x.target,
      if x.kind.Some? && x.kind.value != "" then x.kind.value else "like",
      x.via,
      if x.via.ApprovedBy? && x.via.approval in w.seen.pins then Some(w.seen.pins[x.via.approval]) else None,
      x.account, x.actor, w.now)
  }

  function HitKey(x: Execution): Option<string> {
    if x.target.Some? && (x.action.verb == Comment || x.action.verb == React)
    then Some(TargetKey(x.account.platform, x.target.value)) else None
  }

  function PromoMark(config: Config, x: Execution): Option<bool> {
    if x.draft.Some? && (x.action.verb == Publish || x.action.verb == Comment)
    then Some(config.isPromotional(x.draft.value, x.account)) else None
  }

  /** The tracker updates of a success; nothing else updates the trackers. */
  function Track(config: Config, t: TrackerState, x: Execution, now: Time): TrackerState {
    var hit, promo := HitKey(x), PromoMark(config, x);
    TrackerState(
      t.rate.Add(RateKey(x.account.id, x.action.verb), Hit("", now)),
      if hit.Some? then t.coordination.Add(hit.value, Hit(x.account.id, now)) else t.coordination,
      if promo.Some? then t.promo[x.account.id := t.PromoOf(x.account.id).Add(promo.value)] else t.promo)
  }

  function ExecutedBy(w: World, x: Execution): Executed {
    Executed(x.account.id, x.action.verb, w.now, x.via, HitKey(x),
             HitKey(x).Some? && x.via == Submitted && !x.target.value.isOwned, PromoMark(w.config, x))
  }

  function Succeed(w: World, x: Execution): World {
    Settle(w.(trackers := Track(w.config, w.trackers, x, w.now),
              seen := w.seen.(executed := w.seen.executed + [ExecutedBy(w, x)])),
           x.action, Done, x.actor, Allow, None)
  }

  function Fail(w: World, x: Execution, code: Option<DenialCode>): World {
    Settle(w, x.action, Failed, x.actor, Deny, code)
  }

  /** `_execute` up to its await: the action is stored as executing, without an event. */
  function Execute(w: World, client: nat, x: Execution): World {
    var x := x.(action := x.action.(state := Executing));
    var w := WithAction(w, x.action);
    match TransportOf(x)
    case Staged => Succeed(w, x)
    case Unsupported => Fail(w, x, Some(CapabilityUnsupported))
    case Live =>
      w.(tasks := w.tasks[client := Running(x)],
         seen := w.seen.(sent := w.seen.sent + [DispatchOf(w, x)]))
  }

  /** `_execute` from its await on; an exception of any other type escapes and leaves no trace. */
  function Finish(w: World, client: nat, x: Execution, result: AdapterResult): World {
    var w := w.(tasks := w.tasks - {client});
    match result
    case Succeeded => Succeed(w, x)
    case Rejected => Fail(w, x, None)
    case RaisedInvalid => Fail(w, x, Some(ContentInvalid))
    case RaisedUnsupported => Fail(w, x, Some(CapabilityUnsupported))
    case RaisedOther => w.(seen := w.seen.(crashed := w.seen.crashed + {x.action.id}))
  }

  /** `_run_read` from its await on: reads consume their rate but feed no other tracker. */
  function FinishRead(w: World, client: nat, x: Execution): World {
    var w := w.(tasks := w.tasks - {client});
    var budget := w.trackers.rate.Add(RateKey(x.account.id, x.action.verb), Hit("", w.now));
    Settle(w.(trackers := w.trackers.(rate := budget),
              seen := w.seen.(executed := w.seen.executed +
                [Executed(x.account.id, x.action.verb, w.now, Submitted, None, false, None)])),
           x.action, Done, x.actor, Allow, None)
  }

  // ---- blocks ----

  /**
   * How a synchronous block ends, after whatever bookkeeping it did: it stops, settles one action's state,
   * enters `_execute`, or resumes a suspended write or read with the adapter's answer.
   */
  datatype Ending =
    | Stop
    | Settling(a: Action, s: ActionState, actor: string, outcome: Outcome, code: Option<DenialCode>)
    | Launching(client: nat, x: Execution)
    | Returning(client: nat, x: Execution, result: AdapterResult)
    | ReadReturning(client: nat, x: Execution)

  datatype Block = Block(world: World, ending: Ending)

  function Close(b: Block): World {
    match b.ending
    case Stop => b.world
    case Settling(a, s, actor, outcome, code) => Settle(b.world, a, s, actor, outcome, code)
    case Launching(client, x) => Execute(b.world, client, x)
    case Returning(client, x, result) => Finish(b.world, client, x, result)
    case ReadReturning(client, x) => FinishRead(b.world, client, x)
  }

  // ---- `_submit_write` ----

  predicate KeyTaken(actions: map<Id, Action>, key: Option<string>) {
    key.Some? && key.value != "" && exists id :: id in actions && actions[id].key == key
  }

  function ContextOf(w: World, r: Request, target: Option<TargetRef>): GuardContext {
    GuardContext(r.account, r.verb, Resolve(r.account.platform, r.account.overrides), r.caller, r.lockToken,
                 r.draft, target, r.kind, w.now, w.config)
  }

  function Judge(w: World, r: Request, target: Option<TargetRef>): PolicyResult {
    EvaluateAll(ContextOf(w, r, target), w.trackers)
  }

  function NewAction(r: Request, id: Id, target: Option<TargetRef>): Action {
    Action(id, r.account.id, r.verb, target, if r.draft.Some? then Some(r.draft.value.id) else None,
           r.kind, r.caller, r.key, Pending)
  }

  function RevisionOf(draft: Option<ContentDraft>): Option<int> {
    if draft.Some? then Some(draft.value.revision) else None
  }

  function PinOf(a: Action, draft: Option<ContentDraft>): Pin { Pin(a.verb, a.target, a.reactKind, draft) }

  /** An approval item (new or reopened) bound to the draft revision at hand. */
  function Pinned(w: World, item: Approval, a: Action, draft: Option<ContentDraft>): World {
    WithApproval(w.(seen := w.seen.(pins := w.seen.pins[item.id := PinOf(a, draft)])), item)
  }

  function Submission(a: Action, r: Request, target: Option<TargetRef>): Execution {
    Execution(a, r.account, r.draft, target, r.kind, r.caller, Submitted)
  }

  /** Refused, queued for approval or executed, as the guards say. */
  function Dispose(w: World, client: nat, r: Request, target: Option<TargetRef>, a: Action, approvalId: Id,
                   verdict: PolicyResult): Block {
    match verdict.outcome
    case Deny => Block(w, Settling(a, Refused, r.caller, Deny, verdict.code))
    case Route =>
      Block(Pinned(w, NewItem(approvalId, a, RevisionOf(r.draft), w.now, w.config.approvalTtl), a, r.draft),
            Settling(a, NeedsApproval, r.caller, Route, Some(ApprovalRequired)))
    case Allow => Block(w, Launching(client, Submission(a, r, target)))
  }

  function SubmitWrite(w: World, client: nat, r: Request, target: Option<TargetRef>, actionId: Id,
                       approvalId: Id): Block {
    if KeyTaken(w.actions, r.key) then Block(w, Stop)
    else
      Dispose(w.(used := w.used + {actionId, approvalId}), client, r, target, NewAction(r, actionId, target),
              approvalId, Judge(w, r, target))
  }

  // ---- `_run_read` ----

  /** A read is not stored before it returns; while it waits only its task knows it. */
  function Admit(w: World, client: nat, r: Request, target: Option<TargetRef>, a: Action,
                 verdict: PolicyResult): Block {
    if verdict.outcome == Deny then Block(w, Settling(a, Refused, r.caller, Deny, verdict.code))
    else
      var x := Execution(a.(state := Executing), r.account, None, target, None, r.caller, Submitted);
      Block(w.(tasks := w.tasks[client := Reading(x)]), Stop)
  }

  function RunRead(w: World, client: nat, r: Request, target: Option<TargetRef>, actionId: Id): Block {
    Admit(w.(used := w.used + {actionId}), client, r, target, NewAction(r, actionId, target), Judge(w, r, target))
  }

  // ---- approvals ----

  /** Every refusal of `decide_approval`: the item asks for changes, the action is refused, one event. */
  function TurnDown(w: World, item: Approval, a: Action, actor: string, reason: string, code: DenialCode): Block {
    Block(WithApproval(w, Reviewed(item, ChangesRequested, actor, Some(reason), w.now)),
          Settling(a, Refused, actor, Deny, Some(code)))
  }

  function DraftOf(w: World, a: Action): Option<ContentDraft> {
    if a.draftId.Some? && a.draftId.value in w.drafts then Some(w.drafts[a.draftId.value]) else None
  }

  predicate Stale(item: Approval, draft: Option<ContentDraft>) {
    draft.Some? && item.pinnedRevision.Some? && draft.value.revision != item.pinnedRevision.value
  }

  predicate Eligible(account: Account, a: Action) {
    account.IsActive() && account.authorization.Permits(ConsentFor(a.verb))
  }

  /** Approval re-checks expiry, the draft revision and eligibility, and nothing else. */
  function ApproveItem(w: World, client: nat, item: Approval, a: Action, account: Account, actor: string,
                       reason: Option<string>): Block {
    if item.IsExpired(w.now) then TurnDown(w, item, a, actor, "approval expired", ApprovalStale)
    else if a.draftId.Some? && a.draftId.value !in w.drafts then Block(w, Stop)
    else
      var draft := DraftOf(w, a);
      if Stale(item, draft) then TurnDown(w, item, a, actor, "draft changed after approval", ApprovalStale)
      else if !Eligible(account, a) then TurnDown(w, item, a, actor, "account no longer eligible", NotAuthorized)
      else
        Block(WithApproval(w, Reviewed(item, Approved, actor, reason, w.now)),
              Launching(client, Execution(a, account, draft, a.target, a.reactKind, actor, ApprovedBy(item.id))))
  }

  function Decide(w: World, client: nat, approvalId: Id, decision: ReviewDecision, actor: string,
                  reason: Option<string>): Block {
    if approvalId !in w.approvals || w.approvals[approvalId].actionId !in w.actions then Block(w, Stop)
    else
      var item := w.approvals[approvalId];
      var a := w.actions[item.actionId];
      if a.accountId !in w.accounts then Block(w, Stop)
      else
        match decision
        case RequestChanges => Block(WithApproval(w, Reviewed(item, ChangesRequested, actor, reason, w.now)), Stop)
        case Reject =>
          TurnDown(w, item, a, actor, if reason.Some? && reason.value != "" then reason.value else "rejected",
                   ApprovalRequired)
        case Approve => ApproveItem(w, client, item, a, w.accounts[a.accountId], actor, reason)
  }

  /** Some execution of the action is waiting for its adapter. */
  predicate InFlight(tasks: map<nat, Task>, actionId: Id) {
    exists client :: client in tasks && tasks[client].Running? && tasks[client].x.action.id == actionId
  }

  function Resubmit(w: World, caller: string, approvalId: Id): Block {
    if approvalId !in w.approvals || w.approvals[approvalId].actionId !in w.actions then Block(w, Stop)
    else
      var item := w.approvals[approvalId];
      var a := w.actions[item.actionId];
      if a.accountId !in w.accounts || (a.draftId.Some? && a.draftId.value !in w.drafts) then Block(w, Stop)
      else
        var draft := DraftOf(w, a);
        var flagged := if InFlight(w.tasks, a.id) then {a.id} else {};
        var w := w.(seen := w.seen.(reopenedInFlight := w.seen.reopenedInFlight + flagged));
        Block(Pinned(w, Reopened(item, RevisionOf(draft), w.now, w.config.approvalTtl), a, draft),
              Settling(a, NeedsApproval, caller, Route, Some(ApprovalRequired)))
  }

  // ---- drafts ----

  function StoreDraft(w: World, d: ContentDraft): World {
    w.(drafts := w.drafts[d.id := d], used := w.used + {d.id},
       seen := w.seen.(contents := w.seen.contents[(d.id, d.revision) := d]))
  }

  /** Every edit bumps the revision, whatever it changes. */
  function Edited(d: ContentDraft, body: Option<string>, title: Option<string>, media: Option<seq<string>>,
                  disclosure: Option<string>, now: Time): ContentDraft {
    d.(body := if body.Some? then body.value else d.body,
       title := if title.Some? then title else d.title,
       media := if media.Some? then media.value else d.media,
       disclosure := if disclosure.Some? then disclosure else d.disclosure,
       revision := d.revision + 1, updatedAt := now)
  }

  // ---- commands ----

  const LIFECYCLE_VERBS: set<string> := {
    "account_register", "account_authorize", "account_revoke", "account_connect", "account_refresh_credentials",
    "account_health_check", "account_patch", "account_retire", "account_disconnect"}

  function NewIds(c: Command): set<Id> {
    match c
    case CreateDraft(_, draft) => {draft.id}
    case SubmitPublish(_, _, _, _, _, _, _, actionId, approvalId) => {actionId, approvalId}
    case TargetResolved(_, _, _, actionId, approvalId) => {actionId, approvalId}
    case BeginSearch(_, _, _, _, actionId) => {actionId}
    case _ => {}
  }

  /** Clocks do not run backwards, minted ids are new, and a resumption has a task to resume. */
  predicate Enabled(w: World, c: Command) {
    && w.now <= c.now
    && NewIds(c) !! w.used
    && match c
       case SaveAccount(_, account, audited) =>
         && (account.id in w.accounts ==> w.accounts[account.id].platform == account.platform)
         && (audited.Some? ==> audited.value in LIFECYCLE_VERBS)
       case CreateDraft(_, draft) => draft.revision == 1
       case UpdateDraft(_, _, _, _, _, _) => true
       case SubmitPublish(_, client, _, _, _, _, _, actionId, approvalId) =>
         client !in w.tasks && actionId != approvalId
       case BeginTargeted(_, client, _, _, verb, _, _, _, _) => client !in w.tasks && (verb == Comment || verb == React)
       case TargetResolved(_, client, _, actionId, approvalId) =>
         client in w.tasks && w.tasks[client].Resolving? && actionId != approvalId
       case TargetFailed(_, client) => client in w.tasks && w.tasks[client].Resolving?
       case AdapterReturned(_, client, _) => client in w.tasks && w.tasks[client].Running?
       case BeginRead(_, client, _, _) => client !in w.tasks
       case BeginSearch(_, client, _, _, _) => client !in w.tasks
       case ReadReturned(_, client, _) => client in w.tasks && w.tasks[client].Reading?
       case DecideApproval(_, client, _, _, _, _) => client !in w.tasks
       case ResubmitApproval(_, _, _) => true
  }

  /** What `publish` hands to `_submit_write`. */
  function PublishRequest(w: World, c: Command): Request
    requires c.SubmitPublish? && c.accountId in w.accounts && c.draftId in w.drafts
  {
    Request(c.caller, w.accounts[c.accountId], Publish, Some(c.lockToken), Some(w.drafts[c.draftId]), None, c.key)
  }

  function Perform(w: World, c: Command): Block
    requires Enabled(w, c)
  {
    match c
    case SaveAccount(_, account, audited) =>
      Block(w.(accounts := w.accounts[account.id := account],
               audit := if audited.Some? then w.audit + [AuditEvent("", audited.value, Allow, account.id, None, None)]
                        else w.audit),
            Stop)
    case CreateDraft(_, draft) => Block(if draft.accountId in w.accounts then StoreDraft(w, draft) else w, Stop)
    case UpdateDraft(now, draftId, body, title, media, disclosure) =>
      Block(if draftId in w.drafts then StoreDraft(w, Edited(w.drafts[draftId], body, title, media, disclosure, now))
            else w,
            Stop)
    case SubmitPublish(_, client, _, accountId, _, draftId, _, actionId, approvalId) =>
      if accountId !in w.accounts || draftId !in w.drafts then Block(w, Stop)
      else
        SubmitWrite(w, client, PublishRequest(w, c), None, actionId, approvalId)
    case BeginTargeted(_, client, caller, accountId, verb, lockToken, draftId, kind, key) =>
      if accountId !in w.accounts || (verb == Comment && draftId !in w.drafts) then Block(w, Stop)
      else
        var draft := if verb == Comment then Some(w.drafts[draftId]) else None;
        var r := Request(caller, w.accounts[accountId], verb, Some(lockToken), draft,
                         if verb == React then Some(kind) else None, key);
        Block(w.(tasks := w.tasks[client := Resolving(r)]), Stop)
    case TargetResolved(_, client, target, actionId, approvalId) =>
      var r := w.tasks[client].request;
      var w := w.(tasks := w.tasks - {client});
      if IsWrite(r.verb) then SubmitWrite(w, client, r, Some(target), actionId, approvalId)
      else RunRead(w, client, r, Some(target), actionId)
    case TargetFailed(_, client) => Block(w.(tasks := w.tasks - {client}), Stop)
    case AdapterReturned(_, client, result) => Block(w, Returning(client, w.tasks[client].x, result))
    case BeginRead(_, client, caller, accountId) =>
      if accountId !in w.accounts then Block(w, Stop)
      else
        var r := Request(caller, w.accounts[accountId], Read, None, None, None, None);
        Block(w.(tasks := w.tasks[client := Resolving(r)]), Stop)
    case BeginSearch(_, client, caller, accountId, actionId) =>
      if accountId !in w.accounts then Block(w, Stop)
      else RunRead(w, client, Request(caller, w.accounts[accountId], Search, None, None, None, None), None, actionId)
    case ReadReturned(_, client, ok) =>
      if ok then Block(w, ReadReturning(client, w.tasks[client].x))
      else Block(w.(tasks := w.tasks - {client}), Stop)
    case DecideApproval(_, client, approvalId, decision, actor, reason) =>
      Decide(w, client, approvalId, decision, actor, reason)
    case ResubmitApproval(_, caller, approvalId) => Resubmit(w, caller, approvalId)
  }

  /** The block of a command, at its instant. */
  function BlockOf(w: World, c: Command): Block
    requires Enabled(w, c)
  {
    Perform(w.(now := c.now), c)
  }

  /** Commands that cannot happen in a world leave it as it is. */
  function Step(w: World, c: Command): World {
    if Enabled(w, c) then Close(Perform(w.(now := c.now), c)) else w
  }

  function Run(w: World, commands: seq<Command>): World {
    if commands == [] then w else Step(Run(w, commands[..|commands| - 1]), commands[|commands| - 1])
  }

  lemma RunOfPrefix(w: World, commands: seq<Command>, n: nat)
    requires n < |commands|
    ensures Run(w, commands[..n + 1]) == Step(Run(w, commands[..n]), commands[n])
  {
    assert commands[..n + 1][..n] == commands[..n];
  }

  function Initial(config: Config, start: Time): World {
    World(config, start, map[], map[], map[], map[], [], TrackerState(Histories(map[]), Histories(map[]), map[]),
          map[], {}, Observed([], [], map[], map[], {}, {}))
  }
}

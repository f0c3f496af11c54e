/** What every reachable world keeps about its tables and suspended tasks. */
module Structure {
  import opened Domain
  import opened ActionModel
  import opened Approvals
  import opened Policies
  import opened Guards

  /** The same act, whatever its state. */
  predicate SameAct(a: Action, b: Action) { a == b.(state := a.state) }

  predicate Shaped(w: World, a: Action) {
    && a.accountId in w.accounts
    && (a.draftId.Some? ==> a.draftId.value in w.drafts)
    && (a.verb == Publish ==> a.draftId.Some?)
    && (a.verb == Comment ==> a.draftId.Some? && a.target.Some?)
    && (a.verb == React ==> a.target.Some?)
  }

  predicate KnownAccount(w: World, account: Account) {
    account.id in w.accounts && w.accounts[account.id].platform == account.platform
  }

  /** The draft is, field for field, the content its revision was saved with. */
  predicate OnRecord(w: World, d: ContentDraft) {
    d.id in w.drafts && (d.id, d.revision) in w.seen.contents && w.seen.contents[(d.id, d.revision)] == d
  }

  predicate RequestOk(w: World, r: Request) {
    && KnownAccount(w, r.account)
    && (r.verb == Comment || r.verb == React || r.verb == Read)
    && (r.draft.Some? ==> OnRecord(w, r.draft.value))
    && (r.verb == Comment <==> r.draft.Some?)
    && (r.verb == Read ==> r.kind.None? && r.key.None?)
  }

  /** A suspended execution's copies agree with the stored act. */
  predicate CopiesOk(w: World, x: Execution) {
    && KnownAccount(w, x.account) && x.account.id == x.action.accountId
    && x.target == x.action.target && x.kind == x.action.reactKind
    && (x.draft.Some? <==> x.action.draftId.Some?)
    && (x.draft.Some? ==> x.draft.value.id == x.action.draftId.value)
  }

  predicate RunningOk(w: World, x: Execution) {
    && x.action.id in w.actions && SameAct(x.action, w.actions[x.action.id])
    && CopiesOk(w, x) && TransportOf(x) == Live
  }

  predicate ReadingOk(w: World, x: Execution) {
    && x.action.id in w.used && x.action.id !in w.actions
    && CopiesOk(w, x) && x.action.draftId.None? && x.action.key.None?
    && (x.action.verb == Read || x.action.verb == Search)
  }

  predicate TaskOk(w: World, t: Task) {
    match t
    case Resolving(r) => RequestOk(w, r)
    case Running(x) => RunningOk(w, x)
    case Reading(x) => ReadingOk(w, x)
  }

  ghost predicate RecordsInv(w: World) {
    && (forall id :: id in w.accounts ==> w.accounts[id].id == id)
    && (forall id :: id in w.drafts ==> w.drafts[id].id == id && id in w.used && OnRecord(w, w.drafts[id]))
    && (forall key :: key in w.seen.contents ==> key.0 in w.drafts && key.1 <= w.drafts[key.0].revision)
  }

  ghost predicate ActionsInv(w: World) {
    forall id :: id in w.actions ==> w.actions[id].id == id && id in w.used && Shaped(w, w.actions[id])
  }

  /** An item belongs to a stored write. */
  predicate ItemOk(w: World, id: Id) {
    && id in w.approvals && w.approvals[id].id == id && id in w.used
    && w.approvals[id].actionId in w.actions && IsWrite(w.actions[w.approvals[id].actionId].verb)
  }

  ghost predicate ApprovalsInv(w: World) {
    && (forall id :: id in w.approvals ==> ItemOk(w, id))
    && OwnActions(w.approvals)
  }

  ghost predicate TasksInv(w: World) {
    && (forall c :: c in w.tasks ==> TaskOk(w, w.tasks[c]))
    && (forall c, d :: c in w.tasks && d in w.tasks && c != d && w.tasks[c].Reading? && w.tasks[d].Reading?
          ==> w.tasks[c].x.action.id != w.tasks[d].x.action.id)
  }

  ghost predicate Core(w: World) { RecordsInv(w) && ActionsInv(w) && TasksInv(w) }

  ghost predicate Wf(w: World) { Core(w) && ApprovalsInv(w) }

  /** Nothing is forgotten and nothing known changes identity. */
  ghost predicate Extends(w: World, t: World) {
    && (forall id :: id in w.accounts ==> id in t.accounts && t.accounts[id].platform == w.accounts[id].platform)
    && (forall id :: id in w.drafts ==> id in t.drafts)
    && (forall id :: id in w.actions ==> id in t.actions && SameAct(w.actions[id], t.actions[id]))
    && (forall key :: key in w.seen.contents ==> key in t.seen.contents && t.seen.contents[key] == w.seen.contents[key])
    && w.used <= t.used
  }

  lemma TaskOkExtends(w: World, t: World, task: Task)
    requires Extends(w, t) && TaskOk(w, task)
    requires task.Reading? ==> task.x.action.id !in t.actions
    ensures TaskOk(t, task)
  {
  }

  /** Tasks survive when the world only grows and no suspended read's action is stored. */
  lemma TasksKept(w: World, t: World)
    requires TasksInv(w) && Extends(w, t)
    requires forall c :: c in t.tasks ==> c in w.tasks && t.tasks[c] == w.tasks[c]
    requires forall c :: c in t.tasks && t.tasks[c].Reading? ==> t.tasks[c].x.action.id !in t.actions
    ensures TasksInv(t)
  {
    forall c | c in t.tasks
      ensures TaskOk(t, t.tasks[c])
    {
      TaskOkExtends(w, t, w.tasks[c]);
    }
  }

  lemma TaskAdded(w: World, t: World, client: nat, task: Task)
    requires TasksInv(w) && TaskOk(t, task)
    requires t == w.(tasks := w.tasks[client := task], seen := t.seen) && t.seen.contents == w.seen.contents
    requires task.Reading? ==> forall c | c in w.tasks && c != client && w.tasks[c].Reading? ::
               w.tasks[c].x.action.id != task.x.action.id
    ensures TasksInv(t)
  {
    forall c | c in t.tasks
      ensures TaskOk(t, t.tasks[c])
    {
      if c != client {
        assert TaskOk(w, w.tasks[c]);
        assert Extends(w, t);
        TaskOkExtends(w, t, w.tasks[c]);
      }
    }
  }

  lemma WithActionExtends(w: World, a: Action)
    requires a.id in w.actions ==> SameAct(w.actions[a.id], a)
    ensures Extends(w, WithAction(w, a))
  {
  }

  lemma ActionsKept(w: World, t: World)
    requires ActionsInv(w) && Extends(w, t)
    requires forall id :: id in t.actions && id in w.actions ==> t.actions[id].id == id
    requires forall id :: id in t.actions && id !in w.actions ==>
               t.actions[id].id == id && id in t.used && Shaped(t, t.actions[id])
    ensures ActionsInv(t)
  {
    forall id | id in t.actions
      ensures id in t.used && Shaped(t, t.actions[id])
    {
      if id in w.actions {
        assert SameAct(w.actions[id], t.actions[id]) && Shaped(w, w.actions[id]);
      }
    }
  }

  /** An act that may be stored: minted, well shaped, and the same as any stored act of its id. */
  ghost predicate Storable(w: World, a: Action) {
    && a.id in w.used && Shaped(w, a)
    && (a.id in w.actions ==> SameAct(w.actions[a.id], a))
    && forall c :: c in w.tasks && w.tasks[c].Reading? ==> w.tasks[c].x.action.id != a.id
  }

  lemma WithActionKeepsActions(w: World, a: Action)
    requires ActionsInv(w) && Storable(w, a)
    ensures ActionsInv(WithAction(w, a))
  {
    WithActionExtends(w, a);
    assert Shaped(WithAction(w, a), a);
    ActionsKept(w, WithAction(w, a));
  }

  lemma WithActionKeepsTasks(w: World, a: Action)
    requires TasksInv(w) && Storable(w, a)
    ensures TasksInv(WithAction(w, a))
  {
    var t := WithAction(w, a);
    WithActionExtends(w, a);
    forall c | c in t.tasks && t.tasks[c].Reading?
      ensures t.tasks[c].x.action.id !in t.actions
    {
      assert TaskOk(w, w.tasks[c]);
    }
    TasksKept(w, t);
  }

  lemma WithActionKeepsCore(w: World, a: Action)
    requires Core(w) && Storable(w, a)
    ensures Core(WithAction(w, a))
  {
    WithActionKeepsActions(w, a);
    WithActionKeepsTasks(w, a);
  }

  /** The core survives growth of the records, lost tasks, and anything it does not speak of. */
  lemma GrowthKeepsCore(w: World, t: World)
    requires Core(w) && Extends(w, t) && RecordsInv(t) && t.actions == w.actions
    requires forall c :: c in t.tasks ==> c in w.tasks && t.tasks[c] == w.tasks[c]
    ensures Core(t)
  {
    ActionsKept(w, t);
    forall c | c in t.tasks && t.tasks[c].Reading?
      ensures t.tasks[c].x.action.id !in t.actions
    {
      assert TaskOk(w, w.tasks[c]);
    }
    TasksKept(w, t);
  }

  lemma CoreKept(w: World, t: World)
    requires Core(w) && t.accounts == w.accounts && t.drafts == w.drafts && t.seen.contents == w.seen.contents
    requires t.actions == w.actions && w.used <= t.used
    requires forall c :: c in t.tasks ==> c in w.tasks && t.tasks[c] == w.tasks[c]
    ensures Core(t)
  {
    assert Extends(w, t);
    GrowthKeepsCore(w, t);
  }

  // ---- what a block has done before its ending ----

  /** Executions waiting for their adapter come and go only at a block's ending. */
  ghost predicate SameRunning(tasks: map<nat, Task>, after: map<nat, Task>) {
    forall c {:trigger c in tasks} {:trigger c in after} ::
      (c in tasks && tasks[c].Running?) || (c in after && after[c].Running?) ==>
        c in tasks && c in after && tasks[c] == after[c]
  }

  /** The bookkeeping of a block touches no action, tracker or act event. */
  ghost predicate Bookkeeping(w: World, u: World) {
    && u.config == w.config && u.now == w.now && u.actions == w.actions && u.trackers == w.trackers
    && u.seen.executed == w.seen.executed && u.seen.sent == w.seen.sent && u.seen.crashed == w.seen.crashed
    && SameRunning(w.tasks, u.tasks) && w.seen.reopenedInFlight <= u.seen.reopenedInFlight
    && (forall id :: id in w.accounts ==> id in u.accounts && u.accounts[id].platform == w.accounts[id].platform)
    && (forall id :: id in w.drafts ==> id in u.drafts)
    && (forall key :: key in w.seen.contents ==> key in u.seen.contents && u.seen.contents[key] == w.seen.contents[key])
    && (u.audit == w.audit
        || exists e: AuditEvent :: u.audit == w.audit + [e] && e.actionId.None? && e.verb in LIFECYCLE_VERBS)
  }

  predicate FreshAct(w: World, a: Action) {
    a.id !in w.used && a.id !in w.actions && !KeyTaken(w.actions, a.key)
  }

  /** The guards let the execution's request through, judged by the trackers of this very block. */
  ghost predicate Cleared(w: World, x: Execution) {
    exists token: Option<string> :: EvaluateAll(ContextFor(w, x, token), w.trackers).outcome == Allow
  }

  /** The guards did not deny a request for this act. */
  ghost predicate Vetted(w: World, a: Action) {
    exists c: GuardContext ::
      && c.account.id == a.accountId && KnownAccount(w, c.account) && c.verb == a.verb && c.reactKind == a.reactKind
      && c.policy == Resolve(c.account.platform, c.account.overrides)
      && EvaluateAll(c, w.trackers).outcome != Deny
  }

  function ContextFor(w: World, x: Execution, token: Option<string>): GuardContext {
    GuardContext(x.account, x.action.verb, Resolve(x.account.platform, x.account.overrides), x.actor, token,
                 x.draft, x.target, x.kind, w.now, w.config)
  }

  /** An approved execution runs the very action its approval was made for. */
  predicate FromApproval(w: World, approval: Id, x: Execution) {
    && approval in w.approvals && w.approvals[approval].actionId == x.action.id
    && x.action.id in w.actions && w.actions[x.action.id] == x.action
    && x.draft == DraftOf(w, x.action) && !Stale(w.approvals[approval], x.draft)
  }

  ghost predicate EndingOk(w: World, b: Block) {
    match b.ending
    case Stop => true
    case Settling(a, s, _, outcome, _) =>
      && Agrees(s, outcome) && outcome != Allow && Storable(b.world, a)
      && (FreshAct(w, a) || (a.id in w.actions && w.actions[a.id] == a))
      && (FreshAct(w, a) && outcome == Route ==> Vetted(w, a))
    case Launching(client, x) =>
      && client !in b.world.tasks && Storable(b.world, x.action) && CopiesOk(b.world, x) && IsWrite(x.action.verb)
      && (match x.via
          case Submitted => FreshAct(w, x.action) && Cleared(w, x)
          case ApprovedBy(approval) => FromApproval(w, approval, x))
    case Returning(client, x, _) => b.world == w && client in w.tasks && w.tasks[client] == Running(x)
    case ReadReturning(client, x) => b.world == w && client in w.tasks && w.tasks[client] == Reading(x)
  }

  /** The meeting point of all invariants: how a block prepares its ending. */
  ghost predicate Prepared(w: World, b: Block) {
    Core(b.world) && Bookkeeping(w, b.world) && EndingOk(w, b)
  }

  ghost predicate OnlyMints(w: World, u: World) {
    && u.config == w.config && u.now == w.now && u.accounts == w.accounts && u.drafts == w.drafts
    && u.actions == w.actions && u.audit == w.audit && u.trackers == w.trackers && u.tasks == w.tasks
    && w.used <= u.used
    && u.seen.executed == w.seen.executed && u.seen.sent == w.seen.sent && u.seen.crashed == w.seen.crashed
    && u.seen.contents == w.seen.contents && w.seen.reopenedInFlight <= u.seen.reopenedInFlight
  }

  /** Minting ids, writing approvals and observing: no more than bookkeeping. */
  lemma MintingIsBookkeeping(w: World, u: World)
    requires Core(w) && OnlyMints(w, u)
    ensures Core(u) && Bookkeeping(w, u)
  {
    CoreKept(w, u);
  }

  lemma NewActionStorable(w: World, u: World, r: Request, id: Id, target: Option<TargetRef>)
    requires Core(w) && id !in w.used && id in u.used && KnownAccount(w, r.account)
    requires u.accounts == w.accounts && u.drafts == w.drafts && u.actions == w.actions && u.tasks == w.tasks
    requires r.draft.Some? ==> OnRecord(w, r.draft.value)
    requires r.verb == Publish || r.verb == Comment ==> r.draft.Some?
    requires r.verb == Comment || r.verb == React ==> target.Some?
    ensures Storable(u, NewAction(r, id, target)) && id !in w.actions
  {
    forall c | c in u.tasks && u.tasks[c].Reading?
      ensures u.tasks[c].x.action.id != id
    {
      assert TaskOk(w, w.tasks[c]);
    }
  }

  /** A read or a target resolution that starts to wait. */
  lemma WaitingIsBookkeeping(w: World, client: nat, task: Task)
    requires Core(w) && client !in w.tasks && TaskOk(w, task) && !task.Running?
    requires task.Reading? ==> forall c | c in w.tasks && w.tasks[c].Reading? ::
               w.tasks[c].x.action.id != task.x.action.id
    ensures var t := w.(tasks := w.tasks[client := task]); Core(t) && Bookkeeping(w, t)
  {
    var t := w.(tasks := w.tasks[client := task]);
    assert Extends(w, t);
    TaskOkExtends(w, t, task);
    TaskAdded(w, t, client, task);
    ActionsKept(w, t);
  }

  lemma PinnedOnlyMints(w: World, item: Approval, a: Action, draft: Option<ContentDraft>)
    ensures OnlyMints(w, Pinned(w, item, a, draft))
  {
  }

  lemma DisposePrepared(w: World, u: World, client: nat, r: Request, target: Option<TargetRef>, a: Action,
                        approvalId: Id, v: PolicyResult)
    requires Core(w) && OnlyMints(w, u) && client !in w.tasks && IsWrite(a.verb)
    requires FreshAct(w, a) && Storable(u, a) && CopiesOk(u, Submission(a, r, target))
    requires v.outcome == Allow ==> Cleared(w, Submission(a, r, target))
    requires v.outcome == Route ==> Vetted(w, a)
    ensures Prepared(w, Dispose(u, client, r, target, a, approvalId, v))
  {
    match v.outcome {
      case Route =>
        var item := NewItem(approvalId, a, RevisionOf(r.draft), u.now, u.config.approvalTtl);
        PinnedOnlyMints(u, item, a, r.draft);
        MintingIsBookkeeping(w, Pinned(u, item, a, r.draft));
      case _ => MintingIsBookkeeping(w, u);
    }
  }

  lemma JudgedIsCleared(w: World, r: Request, target: Option<TargetRef>, a: Action)
    requires a.verb == r.verb && a.accountId == r.account.id && a.reactKind == r.kind && KnownAccount(w, r.account)
    ensures Judge(w, r, target).outcome == Allow ==> Cleared(w, Submission(a, r, target))
    ensures Judge(w, r, target).outcome != Deny ==> Vetted(w, a)
  {
    assert ContextFor(w, Submission(a, r, target), r.lockToken) == ContextOf(w, r, target);
    var c := ContextOf(w, r, target);
    assert EvaluateAll(c, w.trackers) == Judge(w, r, target);
  }

  lemma SubmitPrepared(w: World, client: nat, r: Request, target: Option<TargetRef>, actionId: Id, approvalId: Id)
    requires Core(w) && client !in w.tasks && KnownAccount(w, r.account) && IsWrite(r.verb)
    requires r.draft.Some? ==> OnRecord(w, r.draft.value)
    requires r.verb == Publish || r.verb == Comment ==> r.draft.Some?
    requires r.verb == Comment || r.verb == React ==> target.Some?
    requires actionId !in w.used
    ensures Prepared(w, SubmitWrite(w, client, r, target, actionId, approvalId))
  {
    if !KeyTaken(w.actions, r.key) {
      var u, a := w.(used := w.used + {actionId, approvalId}), NewAction(r, actionId, target);
      NewActionStorable(w, u, r, actionId, target);
      JudgedIsCleared(w, r, target, a);
      DisposePrepared(w, u, client, r, target, a, approvalId, Judge(w, r, target));
    }
  }

  lemma AdmitPrepared(w: World, u: World, client: nat, r: Request, target: Option<TargetRef>, a: Action,
                      v: PolicyResult)
    requires Core(w) && OnlyMints(w, u) && client !in w.tasks && (a.verb == Read || a.verb == Search)
    requires FreshAct(w, a) && Storable(u, a) && a.id !in u.actions && KnownAccount(u, r.account)
             && a.accountId == r.account.id
    requires a.draftId.None? && a.target == target && a.reactKind.None? && a.key.None?
    ensures Prepared(w, Admit(u, client, r, target, a, v))
  {
    MintingIsBookkeeping(w, u);
    if v.outcome != Deny {
      var x := Execution(a.(state := Executing), r.account, None, target, None, r.caller, Submitted);
      WaitingIsBookkeeping(u, client, Reading(x));
    }
  }

  lemma ReadPrepared(w: World, client: nat, r: Request, target: Option<TargetRef>, actionId: Id)
    requires Core(w) && client !in w.tasks && KnownAccount(w, r.account) && r.draft.None? && r.kind.None? && r.key.None?
    requires r.verb == Read || r.verb == Search
    requires actionId !in w.used
    ensures Prepared(w, RunRead(w, client, r, target, actionId))
  {
    var u, a := w.(used := w.used + {actionId}), NewAction(r, actionId, target);
    NewActionStorable(w, u, r, actionId, target);
    AdmitPrepared(w, u, client, r, target, a, Judge(w, r, target));
  }

  lemma StoredActionStorable(w: World, u: World, a: Action)
    requires Core(w) && a.id in w.actions && w.actions[a.id] == a
    requires OnlyMints(w, u)
    ensures Storable(u, a)
  {
    forall c | c in u.tasks && u.tasks[c].Reading?
      ensures u.tasks[c].x.action.id != a.id
    {
      assert TaskOk(w, w.tasks[c]);
    }
  }

  lemma TurnDownPrepared(w: World, item: Approval, a: Action, actor: string, reason: string, code: DenialCode)
    requires Core(w) && a.id in w.actions && w.actions[a.id] == a
    ensures Prepared(w, TurnDown(w, item, a, actor, reason, code))
  {
    var u := TurnDown(w, item, a, actor, reason, code).world;
    MintingIsBookkeeping(w, u);
    StoredActionStorable(w, u, a);
  }

  lemma ApprovedPrepared(w: World, client: nat, item: Approval, x: Execution, actor: string, reason: Option<string>)
    requires Core(w) && client !in w.tasks && IsWrite(x.action.verb)
    requires item.id in w.approvals && w.approvals[item.id] == item
    requires x.via == ApprovedBy(item.id) && FromApproval(w, item.id, x) && CopiesOk(w, x)
    ensures Prepared(w, Block(WithApproval(w, Reviewed(item, Approved, actor, reason, w.now)), Launching(client, x)))
  {
    var u := WithApproval(w, Reviewed(item, Approved, actor, reason, w.now));
    MintingIsBookkeeping(w, u);
    StoredActionStorable(w, u, x.action);
  }

  lemma ApprovePrepared(w: World, client: nat, item: Approval, a: Action, account: Account, actor: string,
                        reason: Option<string>)
    requires Core(w) && client !in w.tasks && a.id in w.actions && w.actions[a.id] == a && IsWrite(a.verb)
    requires item.id in w.approvals && w.approvals[item.id] == item && item.actionId == a.id
    requires a.accountId in w.accounts && account == w.accounts[a.accountId]
    ensures Prepared(w, ApproveItem(w, client, item, a, account, actor, reason))
  {
    var draft := DraftOf(w, a);
    if item.IsExpired(w.now) {
      TurnDownPrepared(w, item, a, actor, "approval expired", ApprovalStale);
    } else if Stale(item, draft) {
      TurnDownPrepared(w, item, a, actor, "draft changed after approval", ApprovalStale);
    } else if !Eligible(account, a) {
      TurnDownPrepared(w, item, a, actor, "account no longer eligible", NotAuthorized);
    } else {
      var x := Execution(a, account, draft, a.target, a.reactKind, actor, ApprovedBy(item.id));
      assert w.actions[a.id] == a && Shaped(w, a);
      ApprovedPrepared(w, client, item, x, actor, reason);
    }
  }

  lemma DecidePrepared(w: World, client: nat, approvalId: Id, decision: ReviewDecision, actor: string,
                       reason: Option<string>)
    requires Wf(w) && client !in w.tasks
    ensures Prepared(w, Decide(w, client, approvalId, decision, actor, reason))
  {
    if approvalId in w.approvals {
      var item := w.approvals[approvalId];
      var a := w.actions[item.actionId];
      var why := if reason.Some? && reason.value != "" then reason.value else "rejected";
      TurnDownPrepared(w, item, a, actor, why, ApprovalRequired);
      MintingIsBookkeeping(w, WithApproval(w, Reviewed(item, ChangesRequested, actor, reason, w.now)));
      ApprovePrepared(w, client, item, a, w.accounts[a.accountId], actor, reason);
    }
  }

  lemma ResubmitPrepared(w: World, caller: string, approvalId: Id)
    requires Wf(w)
    ensures Prepared(w, Resubmit(w, caller, approvalId))
  {
    if approvalId in w.approvals {
      var u := Resubmit(w, caller, approvalId).world;
      MintingIsBookkeeping(w, u);
      StoredActionStorable(w, u, w.actions[w.approvals[approvalId].actionId]);
    }
  }

  lemma AfterResolution(w: World, client: nat, b: Block)
    requires client in w.tasks && w.tasks[client].Resolving?
    requires !b.ending.Returning? && !b.ending.ReadReturning?
    requires Prepared(w.(tasks := w.tasks - {client}), b)
    ensures Prepared(w, b)
  {
    var v := w.(tasks := w.tasks - {client});
    if b.ending.Launching? && b.ending.x.via == Submitted {
      var token: Option<string> :| EvaluateAll(ContextFor(v, b.ending.x, token), v.trackers).outcome == Allow;
      assert ContextFor(v, b.ending.x, token) == ContextFor(w, b.ending.x, token);
    }
    if b.ending.Settling? && Vetted(v, b.ending.a) {
      var c: GuardContext :| c.account.id == b.ending.a.accountId && KnownAccount(v, c.account)
        && c.verb == b.ending.a.verb && c.reactKind == b.ending.a.reactKind
        && c.policy == Resolve(c.account.platform, c.account.overrides) && EvaluateAll(c, v.trackers).outcome != Deny;
      assert KnownAccount(w, c.account) && EvaluateAll(c, w.trackers).outcome != Deny;
    }
  }

  lemma AccountGrows(w: World, account: Account, t: World)
    requires Core(w) && (account.id in w.accounts ==> w.accounts[account.id].platform == account.platform)
    requires t == w.(accounts := w.accounts[account.id := account], audit := t.audit)
    ensures Core(t)
  {
    assert Extends(w, t);
    GrowthKeepsCore(w, t);
  }

  lemma AccountPrepared(w: World, account: Account, audited: Option<string>)
    requires Core(w)
    requires account.id in w.accounts ==> w.accounts[account.id].platform == account.platform
    requires audited.Some? ==> audited.value in LIFECYCLE_VERBS
    ensures Prepared(w, Perform(w, SaveAccount(w.now, account, audited)))
  {
    var t := Perform(w, SaveAccount(w.now, account, audited)).world;
    AccountGrows(w, account, t);
    if audited.Some? {
      assert t.audit == w.audit + [AuditEvent("", audited.value, Allow, account.id, None, None)];
    }
  }

  lemma StoredDraftRecords(w: World, d: ContentDraft)
    requires RecordsInv(w)
    requires d.id in w.drafts ==> d.revision > w.drafts[d.id].revision
    ensures RecordsInv(StoreDraft(w, d)) && Extends(w, StoreDraft(w, d))
  {
    assert (d.id, d.revision) !in w.seen.contents;
  }

  lemma StoredDraftGrows(w: World, d: ContentDraft)
    requires Core(w)
    requires d.id in w.drafts ==> d.revision > w.drafts[d.id].revision
    ensures Core(StoreDraft(w, d))
  {
    StoredDraftRecords(w, d);
    GrowthKeepsCore(w, StoreDraft(w, d));
  }

  lemma DraftPrepared(w: World, d: ContentDraft)
    requires Core(w)
    requires d.id in w.drafts ==> d.revision > w.drafts[d.id].revision
    ensures Prepared(w, Block(StoreDraft(w, d), Stop))
  {
    StoredDraftGrows(w, d);
  }

  lemma ResolvingPrepared(w: World, client: nat, r: Request)
    requires Core(w) && client !in w.tasks && RequestOk(w, r)
    ensures Prepared(w, Block(w.(tasks := w.tasks[client := Resolving(r)]), Stop))
  {
    WaitingIsBookkeeping(w, client, Resolving(r));
  }

  lemma DroppedPrepared(w: World, client: nat)
    requires Core(w) && client in w.tasks && !w.tasks[client].Running?
    ensures Prepared(w, Block(w.(tasks := w.tasks - {client}), Stop))
  {
    CoreKept(w, w.(tasks := w.tasks - {client}));
  }

  lemma ResolvedWritePrepared(w: World, client: nat, r: Request, target: TargetRef, actionId: Id, approvalId: Id)
    requires Core(w) && client in w.tasks && w.tasks[client] == Resolving(r) && RequestOk(w, r) && IsWrite(r.verb)
    requires Core(w.(tasks := w.tasks - {client})) && actionId !in w.used
    ensures Prepared(w, SubmitWrite(w.(tasks := w.tasks - {client}), client, r, Some(target), actionId, approvalId))
  {
    var v := w.(tasks := w.tasks - {client});
    SubmitPrepared(v, client, r, Some(target), actionId, approvalId);
    AfterResolution(w, client, SubmitWrite(v, client, r, Some(target), actionId, approvalId));
  }

  lemma ResolvedPrepared(w: World, client: nat, target: TargetRef, actionId: Id, approvalId: Id)
    requires Core(w) && client in w.tasks && w.tasks[client].Resolving? && actionId !in w.used
    ensures var r, v := w.tasks[client].request, w.(tasks := w.tasks - {client});
            Prepared(w, if IsWrite(r.verb) then SubmitWrite(v, client, r, Some(target), actionId, approvalId)
                        else RunRead(v, client, r, Some(target), actionId))
  {
    var r, v := w.tasks[client].request, w.(tasks := w.tasks - {client});
    assert TaskOk(w, w.tasks[client]);
    DroppedPrepared(w, client);
    if IsWrite(r.verb) {
      ResolvedWritePrepared(w, client, r, target, actionId, approvalId);
    } else {
      ReadPrepared(v, client, r, Some(target), actionId);
      AfterResolution(w, client, RunRead(v, client, r, Some(target), actionId));
    }
  }

  lemma PublishPrepared(w: World, c: Command)
    requires Core(w) && Enabled(w, c) && c.SubmitPublish?
    ensures Prepared(w, Perform(w, c))
  {
    if c.accountId in w.accounts && c.draftId in w.drafts {
      var r := PublishRequest(w, c);
      SubmitPrepared(w, c.client, r, None, c.actionId, c.approvalId);
    }
  }

  lemma TargetedPrepared(w: World, c: Command)
    requires Core(w) && Enabled(w, c) && c.BeginTargeted?
    ensures Prepared(w, Perform(w, c))
  {
    if c.accountId in w.accounts && (c.verb == Comment ==> c.draftId in w.drafts) {
      var draft := if c.verb == Comment then Some(w.drafts[c.draftId]) else None;
      ResolvingPrepared(w, c.client, Request(c.caller, w.accounts[c.accountId], c.verb, Some(c.lockToken), draft,
                                             if c.verb == React then Some(c.kind) else None, c.key));
    }
  }

  lemma RecordsPrepared(w: World, c: Command)
    requires Wf(w) && Enabled(w, c) && c.now == w.now && (c.SaveAccount? || c.CreateDraft? || c.UpdateDraft?)
    ensures Prepared(w, Perform(w, c))
  {
    match c
    case SaveAccount(_, account, audited) => AccountPrepared(w, account, audited);
    case CreateDraft(_, draft) => DraftPrepared(w, draft);
    case UpdateDraft(now, draftId, body, title, media, disclosure) =>
      if draftId in w.drafts {
        DraftPrepared(w, Edited(w.drafts[draftId], body, title, media, disclosure, now));
      }
  }

  lemma ReadsPrepared(w: World, c: Command)
    requires Wf(w) && Enabled(w, c) && (c.BeginRead? || c.BeginSearch? || c.ReadReturned?)
    ensures Prepared(w, Perform(w, c))
  {
    match c
    case BeginRead(_, client, caller, accountId) =>
      if accountId in w.accounts {
        ResolvingPrepared(w, client, Request(caller, w.accounts[accountId], Read, None, None, None, None));
      }
    case BeginSearch(_, client, caller, accountId, actionId) =>
      if accountId in w.accounts {
        ReadPrepared(w, client, Request(caller, w.accounts[accountId], Search, None, None, None, None), None, actionId);
      }
    case ReadReturned(_, client, ok) =>
      if !ok {
        DroppedPrepared(w, client);
      }
  }

  /** Every block of every command prepares its ending properly. */
  lemma BlockPrepared(w: World, c: Command)
    requires Wf(w) && Enabled(w, c) && c.now == w.now
    ensures Prepared(w, Perform(w, c))
  {
    if c.SaveAccount? || c.CreateDraft? || c.UpdateDraft? {
      RecordsPrepared(w, c);
    } else if c.BeginRead? || c.BeginSearch? || c.ReadReturned? {
      ReadsPrepared(w, c);
    } else if c.SubmitPublish? {
      PublishPrepared(w, c);
    } else if c.BeginTargeted? {
      TargetedPrepared(w, c);
    } else if c.TargetResolved? {
      ResolvedPrepared(w, c.client, c.target, c.actionId, c.approvalId);
    } else if c.TargetFailed? {
      DroppedPrepared(w, c.client);
    } else if c.DecideApproval? {
      DecidePrepared(w, c.client, c.approvalId, c.decision, c.actor, c.reason);
    } else if c.ResubmitApproval? {
      ResubmitPrepared(w, c.caller, c.approvalId);
    } else {
      assert c.AdapterReturned?;
    }
  }

  // ---- what the ending does ----

  lemma SettleKeepsCore(w: World, a: Action, s: ActionState, actor: string, outcome: Outcome, code: Option<DenialCode>)
    requires Core(w) && Storable(w, a)
    ensures Core(Settle(w, a, s, actor, outcome, code))
  {
    var b := a.(state := s);
    assert Storable(w, b);
    WithActionKeepsCore(w, b);
    CoreKept(WithAction(w, b), Settle(w, a, s, actor, outcome, code));
  }

  lemma SucceedKeepsCore(w: World, x: Execution)
    requires Core(w) && Storable(w, x.action)
    ensures Core(Succeed(w, x))
  {
    var u := w.(trackers := Track(w.config, w.trackers, x, w.now),
                seen := w.seen.(executed := w.seen.executed + [ExecutedBy(w, x)]));
    CoreKept(w, u);
    SettleKeepsCore(u, x.action, Done, x.actor, Allow, None);
  }

  lemma LaunchKeepsCore(w: World, client: nat, y: Execution)
    requires Core(w) && client !in w.tasks && RunningOk(w, y)
    ensures var t := w.(tasks := w.tasks[client := Running(y)],
                        seen := w.seen.(sent := w.seen.sent + [DispatchOf(w, y)]));
            Core(t)
  {
    var t := w.(tasks := w.tasks[client := Running(y)], seen := w.seen.(sent := w.seen.sent + [DispatchOf(w, y)]));
    assert TaskOk(t, Running(y));
    TaskAdded(w, t, client, Running(y));
  }

  lemma ExecuteKeepsCore(w: World, client: nat, x: Execution)
    requires Core(w) && client !in w.tasks && Storable(w, x.action) && CopiesOk(w, x) && IsWrite(x.action.verb)
    ensures Core(Execute(w, client, x))
  {
    var y := x.(action := x.action.(state := Executing));
    var u := WithAction(w, y.action);
    assert Storable(w, y.action);
    WithActionKeepsCore(w, y.action);
    assert Storable(u, y.action) && CopiesOk(u, y);
    match TransportOf(y)
    case Staged => SucceedKeepsCore(u, y);
    case Live => LaunchKeepsCore(u, client, y);
  }

  /** A resumed execution's action may be stored: it is the stored act, or the act of a read. */
  lemma ResumedStorable(w: World, client: nat)
    requires Core(w) && client in w.tasks && !w.tasks[client].Resolving?
    ensures var u := w.(tasks := w.tasks - {client}); Core(u) && Storable(u, w.tasks[client].x.action)
  {
    var u, a := w.(tasks := w.tasks - {client}), w.tasks[client].x.action;
    CoreKept(w, u);
    assert TaskOk(w, w.tasks[client]);
    if w.tasks[client].Running? {
      assert SameAct(a, w.actions[a.id]) && Shaped(w, w.actions[a.id]);
    }
    forall c | c in u.tasks && u.tasks[c].Reading?
      ensures u.tasks[c].x.action.id != a.id
    {
      assert TaskOk(w, w.tasks[c]);
    }
  }

  lemma FinishKeepsCore(w: World, client: nat, result: AdapterResult)
    requires Core(w) && client in w.tasks && w.tasks[client].Running?
    ensures Core(Finish(w, client, w.tasks[client].x, result))
  {
    var x, u := w.tasks[client].x, w.(tasks := w.tasks - {client});
    ResumedStorable(w, client);
    match result
    case Succeeded => SucceedKeepsCore(u, x);
    case Rejected => SettleKeepsCore(u, x.action, Failed, x.actor, Deny, None);
    case RaisedInvalid => SettleKeepsCore(u, x.action, Failed, x.actor, Deny, Some(ContentInvalid));
    case RaisedUnsupported => SettleKeepsCore(u, x.action, Failed, x.actor, Deny, Some(CapabilityUnsupported));
    case RaisedOther => CoreKept(u, Finish(w, client, x, RaisedOther));
  }

  lemma FinishReadKeepsCore(w: World, client: nat)
    requires Core(w) && client in w.tasks && w.tasks[client].Reading?
    ensures Core(FinishRead(w, client, w.tasks[client].x))
  {
    var x, u := w.tasks[client].x, w.(tasks := w.tasks - {client});
    var t := FinishRead(w, client, x);
    ResumedStorable(w, client);
    var v := u.(trackers := t.trackers, seen := t.seen);
    CoreKept(u, v);
    SettleKeepsCore(v, x.action, Done, x.actor, Allow, None);
  }

  lemma CloseKeepsCore(w: World, b: Block)
    requires Core(w) && Prepared(w, b)
    ensures Core(Close(b))
  {
    match b.ending
    case Stop =>
    case Settling(a, s, actor, outcome, code) => SettleKeepsCore(b.world, a, s, actor, outcome, code);
    case Launching(client, x) => ExecuteKeepsCore(b.world, client, x);
    case Returning(client, _, result) => FinishKeepsCore(w, client, result);
    case ReadReturning(client, _) => FinishReadKeepsCore(w, client);
  }

  /** `t` keeps every act of `w` and everything an ending never writes. */
  ghost predicate KeepsActs(w: World, t: World) {
    && (forall id :: id in w.actions ==> id in t.actions && SameAct(w.actions[id], t.actions[id]))
    && t.approvals == w.approvals && t.used == w.used && t.seen.pins == w.seen.pins
    && t.accounts == w.accounts && t.drafts == w.drafts && t.seen.contents == w.seen.contents
    && t.seen.reopenedInFlight == w.seen.reopenedInFlight && t.now == w.now && t.config == w.config
  }

  lemma SettleKeepsActs(w: World, a: Action, s: ActionState, actor: string, outcome: Outcome, code: Option<DenialCode>)
    requires a.id in w.actions ==> SameAct(w.actions[a.id], a)
    ensures var t := Settle(w, a, s, actor, outcome, code);
            KeepsActs(w, t) && a.id in t.actions && SameAct(a, t.actions[a.id])
  {
  }

  lemma SucceedKeepsActs(w: World, x: Execution)
    requires x.action.id in w.actions ==> SameAct(w.actions[x.action.id], x.action)
    ensures KeepsActs(w, Succeed(w, x))
  {
    var u := w.(trackers := Track(w.config, w.trackers, x, w.now),
                seen := w.seen.(executed := w.seen.executed + [ExecutedBy(w, x)]));
    SettleKeepsActs(u, x.action, Done, x.actor, Allow, None);
  }

  lemma KeepsActsTwice(w: World, u: World, t: World)
    requires KeepsActs(w, u) && KeepsActs(u, t)
    ensures KeepsActs(w, t)
  {
    forall id | id in w.actions
      ensures id in t.actions && SameAct(w.actions[id], t.actions[id])
    {
      assert SameAct(w.actions[id], u.actions[id]);
    }
  }

  lemma ExecuteKeepsActs(w: World, client: nat, x: Execution)
    requires x.action.id in w.actions ==> SameAct(w.actions[x.action.id], x.action)
    ensures KeepsActs(w, Execute(w, client, x))
  {
    var y := x.(action := x.action.(state := Executing));
    var u := WithAction(w, y.action);
    KeepsActsTwice(w, u, Execute(w, client, x)) by {
      match TransportOf(y)
      case Live =>
      case Staged => SucceedKeepsActs(u, y);
      case Unsupported => SettleKeepsActs(u, y.action, Failed, y.actor, Deny, Some(CapabilityUnsupported));
    }
  }

  lemma FinishKeepsActs(w: World, client: nat, x: Execution, result: AdapterResult)
    requires x.action.id in w.actions ==> SameAct(w.actions[x.action.id], x.action)
    ensures KeepsActs(w, Finish(w, client, x, result))
  {
    var u := w.(tasks := w.tasks - {client});
    match result
    case Succeeded => SucceedKeepsActs(u, x);
    case Rejected => SettleKeepsActs(u, x.action, Failed, x.actor, Deny, None);
    case RaisedInvalid => SettleKeepsActs(u, x.action, Failed, x.actor, Deny, Some(ContentInvalid));
    case RaisedUnsupported => SettleKeepsActs(u, x.action, Failed, x.actor, Deny, Some(CapabilityUnsupported));
    case RaisedOther =>
  }

  lemma FinishReadKeepsActs(w: World, client: nat, x: Execution)
    requires x.action.id !in w.actions
    ensures KeepsActs(w, FinishRead(w, client, x))
  {
    var t := FinishRead(w, client, x);
    var v := w.(tasks := w.tasks - {client}, trackers := t.trackers, seen := t.seen);
    SettleKeepsActs(v, x.action, Done, x.actor, Allow, None);
  }

  /** An ending only adds acts and changes states; it writes no approval, record or pin and mints no id. */
  lemma CloseKeepsActs(w: World, b: Block)
    requires Core(w) && Prepared(w, b)
    ensures KeepsActs(b.world, Close(b))
    ensures b.ending.Settling? ==>
              b.ending.a.id in Close(b).actions && SameAct(b.ending.a, Close(b).actions[b.ending.a.id])
  {
    match b.ending
    case Stop =>
    case Settling(a, s, actor, outcome, code) => SettleKeepsActs(b.world, a, s, actor, outcome, code);
    case Launching(client, x) => ExecuteKeepsActs(b.world, client, x);
    case Returning(client, x, result) =>
      assert TaskOk(w, w.tasks[client]);
      FinishKeepsActs(w, client, x, result);
    case ReadReturning(client, x) =>
      assert TaskOk(w, w.tasks[client]);
      FinishReadKeepsActs(w, client, x);
  }

  /** The item is bound to exactly this act and this draft content, and the content is on record. */
  predicate PinnedAs(w: World, u: World, item: Approval, a: Action, draft: Option<ContentDraft>) {
    && u.seen.pins == w.seen.pins[item.id := PinOf(a, draft)]
    && item.actionId == a.id && item.pinnedRevision == RevisionOf(draft)
    && (draft.Some? ==> OnRecord(w, draft.value) && a.draftId == Some(draft.value.id))
    && (draft.None? ==> a.draftId.None?)
  }

  /** A decision keeps what the item is bound to. */
  predicate KeptBinding(w: World, u: World, item: Approval) {
    && item.id in w.approvals && u.seen.pins == w.seen.pins
    && item.actionId == w.approvals[item.id].actionId && item.pinnedRevision == w.approvals[item.id].pinnedRevision
  }

  /** The new act of a routed submission. */
  predicate Routed(w: World, b: Block, a: Action) {
    b.ending.Settling? && b.ending.outcome == Route && b.ending.a == a && FreshAct(w, a) && IsWrite(a.verb)
  }

  /** The review state an item is left in goes with the way the block ends for its action. */
  predicate Fits(w: World, b: Block, item: Approval) {
    match item.review
    case Approved => b.ending.Launching? && b.ending.x.action.id == item.actionId
    case ChangesRequested =>
      b.ending.Stop? || (b.ending.Settling? && b.ending.s == Refused && b.ending.a.id == item.actionId)
    case Open =>
      && b.ending.Settling? && b.ending.s == NeedsApproval && b.ending.a.id == item.actionId
      && (InFlight(w.tasks, item.actionId) ==> item.actionId in b.world.seen.reopenedInFlight)
  }

  /** The block leaves every reviewed action alone, apart from executions that return. */
  predicate LeavesItemsAlone(w: World, b: Block) {
    match b.ending
    case Settling(a, _, _, _, _) => FreshAct(w, a)
    case Launching(_, x) => FreshAct(w, x.action)
    case _ => true
  }

  ghost predicate ItemMove(w: World, b: Block, item: Approval, a: Action, draft: Option<ContentDraft>) {
    var u := b.world;
    && u.approvals == w.approvals[item.id := item] && item.id in u.used && Fits(w, b, item)
    && (KeptBinding(w, u, item)
        || (PinnedAs(w, u, item, a, draft) && b.ending.Settling?
            && if item.id in w.approvals
               then w.approvals[item.id].actionId == a.id && a.id in w.actions && w.actions[a.id] == a
               else Routed(w, b, a)))
  }

  predicate NoMove(w: World, b: Block) {
    b.world.approvals == w.approvals && b.world.seen.pins == w.seen.pins && LeavesItemsAlone(w, b)
  }

  /** What a block may do to the approvals: decide or reopen a known item, or queue one for the new act. */
  ghost predicate ApprovalsMove(w: World, b: Block) {
    || NoMove(w, b)
    || (exists item: Approval, a: Action, draft: Option<ContentDraft> :: ItemMove(w, b, item, a, draft))
  }

  lemma SubmitMoves(w: World, client: nat, r: Request, target: Option<TargetRef>, actionId: Id, approvalId: Id)
    requires Core(w) && IsWrite(r.verb) && actionId !in w.used && approvalId !in w.used && ApprovalsInv(w)
    requires r.draft.Some? ==> OnRecord(w, r.draft.value)
    ensures ApprovalsMove(w, SubmitWrite(w, client, r, target, actionId, approvalId))
  {
    if !KeyTaken(w.actions, r.key) {
      var u, a := w.(used := w.used + {actionId, approvalId}), NewAction(r, actionId, target);
      assert actionId !in w.actions;
      FreshIsNotInFlight(w, actionId);
      DisposeMoves(w, u, client, r, target, a, approvalId, Judge(w, r, target));
    }
  }

  lemma FreshIsNotInFlight(w: World, id: Id)
    requires TasksInv(w) && id !in w.actions
    ensures !InFlight(w.tasks, id)
  {
    forall c | c in w.tasks && w.tasks[c].Running?
      ensures w.tasks[c].x.action.id != id
    {
      assert TaskOk(w, w.tasks[c]);
    }
  }

  lemma DisposeMoves(w: World, u: World, client: nat, r: Request, target: Option<TargetRef>, a: Action, approvalId: Id,
                     v: PolicyResult)
    requires u.approvals == w.approvals && u.seen == w.seen && u.drafts == w.drafts
    requires approvalId !in w.approvals && approvalId in u.used && FreshAct(w, a) && IsWrite(a.verb)
    requires !InFlight(w.tasks, a.id)
    requires r.draft.Some? ==> OnRecord(w, r.draft.value) && a.draftId == Some(r.draft.value.id)
    requires r.draft.None? ==> a.draftId.None?
    ensures ApprovalsMove(w, Dispose(u, client, r, target, a, approvalId, v))
  {
    if v.outcome == Route {
      var b := Dispose(u, client, r, target, a, approvalId, v);
      var item := NewItem(approvalId, a, RevisionOf(r.draft), u.now, u.config.approvalTtl);
      assert PinnedAs(w, b.world, item, a, r.draft) && Routed(w, b, a);
      assert ItemMove(w, b, item, a, r.draft);
    }
  }

  lemma ReviewMoves(w: World, b: Block, item: Approval)
    requires ApprovalsInv(w) && KeptBinding(w, b.world, item) && Fits(w, b, item)
    requires b.world.approvals == w.approvals[item.id := item] && w.used <= b.world.used
    ensures ApprovalsMove(w, b)
  {
    assert ItemOk(w, item.id);
    assert ItemMove(w, b, item, w.actions[item.actionId], None);
  }

  lemma TurnDownMoves(w: World, item: Approval, a: Action, actor: string, reason: string, code: DenialCode)
    requires ApprovalsInv(w) && item.id in w.approvals && w.approvals[item.id] == item && item.actionId == a.id
    ensures ApprovalsMove(w, TurnDown(w, item, a, actor, reason, code))
  {
    ReviewMoves(w, TurnDown(w, item, a, actor, reason, code),
                Reviewed(item, ChangesRequested, actor, Some(reason), w.now));
  }

  lemma ApproveMoves(w: World, client: nat, item: Approval, a: Action, account: Account, actor: string,
                     reason: Option<string>)
    requires ApprovalsInv(w) && item.id in w.approvals && w.approvals[item.id] == item && item.actionId == a.id
    ensures ApprovalsMove(w, ApproveItem(w, client, item, a, account, actor, reason))
  {
    var b := ApproveItem(w, client, item, a, account, actor, reason);
    if b.ending.Launching? {
      ReviewMoves(w, b, Reviewed(item, Approved, actor, reason, w.now));
    } else {
      TurnDownMoves(w, item, a, actor, "approval expired", ApprovalStale);
      TurnDownMoves(w, item, a, actor, "draft changed after approval", ApprovalStale);
      TurnDownMoves(w, item, a, actor, "account no longer eligible", NotAuthorized);
    }
  }

  lemma DecideMoves(w: World, client: nat, approvalId: Id, decision: ReviewDecision, actor: string,
                    reason: Option<string>)
    requires Wf(w)
    ensures ApprovalsMove(w, Decide(w, client, approvalId, decision, actor, reason))
  {
    var b := Decide(w, client, approvalId, decision, actor, reason);
    if approvalId in w.approvals && w.actions[w.approvals[approvalId].actionId].accountId in w.accounts {
      var item := w.approvals[approvalId];
      var a := w.actions[item.actionId];
      match decision {
        case RequestChanges => ReviewMoves(w, b, Reviewed(item, ChangesRequested, actor, reason, w.now));
        case Reject =>
          var why := if reason.Some? && reason.value != "" then reason.value else "rejected";
          TurnDownMoves(w, item, a, actor, why, ApprovalRequired);
        case Approve => ApproveMoves(w, client, item, a, w.accounts[a.accountId], actor, reason);
      }
    }
  }

  lemma ResubmitMoves(w: World, caller: string, approvalId: Id)
    requires Wf(w)
    ensures ApprovalsMove(w, Resubmit(w, caller, approvalId))
  {
    var b := Resubmit(w, caller, approvalId);
    if b.ending.Settling? {
      var item, a := w.approvals[approvalId], b.ending.a;
      var draft := DraftOf(w, a);
      assert ItemOk(w, approvalId);
      assert PinnedAs(w, b.world, Reopened(item, RevisionOf(draft), w.now, w.config.approvalTtl), a, draft);
      assert ItemMove(w, b, Reopened(item, RevisionOf(draft), w.now, w.config.approvalTtl), a, draft);
    }
  }

  lemma PublishMoves(w: World, c: Command)
    requires Wf(w) && Enabled(w, c) && c.SubmitPublish?
    ensures ApprovalsMove(w, Perform(w, c))
  {
    if c.accountId in w.accounts && c.draftId in w.drafts {
      var r := PublishRequest(w, c);
      SubmitMoves(w, c.client, r, None, c.actionId, c.approvalId);
    }
  }

  lemma ResolvedMoves(w: World, c: Command)
    requires Wf(w) && Enabled(w, c) && c.TargetResolved?
    ensures ApprovalsMove(w, Perform(w, c))
  {
    var r, v := w.tasks[c.client].request, w.(tasks := w.tasks - {c.client});
    if IsWrite(r.verb) {
      DroppedPrepared(w, c.client);
      assert TaskOk(w, w.tasks[c.client]);
      SubmitMoves(v, c.client, r, Some(c.target), c.actionId, c.approvalId);
      MoveBeforeResolution(w, v, SubmitWrite(v, c.client, r, Some(c.target), c.actionId, c.approvalId));
    }
  }

  lemma SameInFlight(tasks: map<nat, Task>, after: map<nat, Task>, id: Id)
    requires SameRunning(tasks, after)
    ensures InFlight(tasks, id) <==> InFlight(after, id)
  {
    if InFlight(tasks, id) {
      var c :| c in tasks && tasks[c].Running? && tasks[c].x.action.id == id;
      assert c in after;
    }
    if InFlight(after, id) {
      var c :| c in after && after[c].Running? && after[c].x.action.id == id;
      assert c in tasks;
    }
  }

  lemma MoveBeforeResolution(w: World, v: World, b: Block)
    requires ApprovalsMove(v, b) && v == w.(tasks := v.tasks) && SameRunning(w.tasks, v.tasks)
    ensures ApprovalsMove(w, b)
  {
    if !NoMove(v, b) {
      var item: Approval, a: Action, draft: Option<ContentDraft> :| ItemMove(v, b, item, a, draft);
      SameInFlight(w.tasks, v.tasks, item.actionId);
      assert Fits(w, b, item);
      assert PinnedAs(v, b.world, item, a, draft) ==> PinnedAs(w, b.world, item, a, draft);
      assert Routed(v, b, a) ==> Routed(w, b, a);
      assert ItemMove(w, b, item, a, draft);
    }
  }

  lemma OthersMove(w: World, c: Command)
    requires ActionsInv(w) && Enabled(w, c) && !c.SubmitPublish? && !c.TargetResolved? && !c.DecideApproval?
             && !c.ResubmitApproval?
    ensures Perform(w, c).world.approvals == w.approvals && Perform(w, c).world.seen.pins == w.seen.pins
    ensures LeavesItemsAlone(w, Perform(w, c))
  {
  }

  lemma ApprovalsMoved(w: World, c: Command)
    requires Wf(w) && Enabled(w, c) && c.now == w.now
    ensures ApprovalsMove(w, Perform(w, c))
  {
    if c.SubmitPublish? {
      PublishMoves(w, c);
    } else if c.TargetResolved? {
      ResolvedMoves(w, c);
    } else if c.DecideApproval? {
      DecideMoves(w, c.client, c.approvalId, c.decision, c.actor, c.reason);
    } else if c.ResubmitApproval? {
      ResubmitMoves(w, c.caller, c.approvalId);
    } else {
      OthersMove(w, c);
    }
  }

  /** The new item's action is new, so approvals still own pairwise different actions. */
  lemma MoveKeepsOwnership(w: World, b: Block, item: Approval, a: Action, draft: Option<ContentDraft>)
    requires ActionsInv(w) && ApprovalsInv(w) && ItemMove(w, b, item, a, draft)
    ensures forall i :: i in w.approvals && i != item.id ==> w.approvals[i].actionId != item.actionId
  {
    forall i | i in w.approvals && i != item.id
      ensures w.approvals[i].actionId != item.actionId
    {
      assert ItemOk(w, i);
    }
  }

  /** Approvals own pairwise different actions. */
  ghost predicate OwnActions(items: map<Id, Approval>) {
    forall i, j :: i in items && j in items && i != j ==> items[i].actionId != items[j].actionId
  }

  lemma ItemsDiffer(w: World, b: Block)
    requires ActionsInv(w) && ApprovalsInv(w) && ApprovalsMove(w, b)
    ensures OwnActions(b.world.approvals)
  {
    if b.world.approvals != w.approvals {
      var item: Approval, a: Action, draft: Option<ContentDraft> :| ItemMove(w, b, item, a, draft);
      MoveKeepsOwnership(w, b, item, a, draft);
    }
  }

  lemma ItemsKeepActions(w: World, b: Block, t: World, id: Id)
    requires ApprovalsInv(w) && b.world.actions == w.actions && w.used <= b.world.used && ApprovalsMove(w, b)
    requires KeepsActs(b.world, t)
    requires b.ending.Settling? ==> b.ending.a.id in t.actions && SameAct(b.ending.a, t.actions[b.ending.a.id])
    requires id in b.world.approvals
    ensures ItemOk(t, id)
  {
    if id in w.approvals {
      assert ItemOk(w, id);
      assert b.world.approvals[id].actionId == w.approvals[id].actionId;
    }
  }

  lemma MovesKeepApprovals(w: World, b: Block)
    requires Core(w) && ApprovalsInv(w) && Prepared(w, b) && ApprovalsMove(w, b) && w.used <= b.world.used
    ensures ApprovalsInv(Close(b))
  {
    CloseKeepsActs(w, b);
    ItemsDiffer(w, b);
    forall id | id in b.world.approvals
      ensures ItemOk(Close(b), id)
    {
      ItemsKeepActions(w, b, Close(b), id);
    }
  }

  lemma DecisionsOnlyGrow(w: World, client: nat, approvalId: Id, decision: ReviewDecision, actor: string,
                          reason: Option<string>)
    ensures Decide(w, client, approvalId, decision, actor, reason).world.used == w.used
  {
  }

  lemma BlocksOnlyGrow(w: World, c: Command)
    requires Enabled(w, c)
    ensures w.used <= Perform(w, c).world.used
  {
    if c.DecideApproval? {
      DecisionsOnlyGrow(w, c.client, c.approvalId, c.decision, c.actor, c.reason);
    }
  }

  lemma NowKeepsWf(w: World, now: Time)
    requires Wf(w)
    ensures Wf(w.(now := now))
  {
    CoreKept(w, w.(now := now));
  }

  /** The structure survives every command. */
  lemma StepKeepsWf(w: World, c: Command)
    requires Wf(w)
    ensures Wf(Step(w, c))
  {
    if Enabled(w, c) {
      var v := w.(now := c.now);
      NowKeepsWf(w, c.now);
      BlockPrepared(v, c);
      ApprovalsMoved(v, c);
      BlocksOnlyGrow(v, c);
      CloseKeepsCore(v, Perform(v, c));
      MovesKeepApprovals(v, Perform(v, c));
    }
  }

  lemma {:induction false} RunKeepsWf(w: World, commands: seq<Command>)
    requires Wf(w)
    ensures Wf(Run(w, commands))
  {
    if commands != [] {
      RunKeepsWf(w, commands[..|commands| - 1]);
      StepKeepsWf(Run(w, commands[..|commands| - 1]), commands[|commands| - 1]);
    }
  }

  lemma InitialWf(config: Config, start: Time)
    ensures Wf(Initial(config, start))
  {
  }
}

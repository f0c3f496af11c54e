/** How many audit events a call records: exactly when it is one, and what that adds up to over a run. */
module AuditCount {
  import opened Domain
  import opened Policies
  import opened Guards
  import opened ActionModel
  import opened Structure
  import opened Flights
  import opened JointStates

  // ---- one command ----

  /** Would an execution of this verb await an adapter call? */
  predicate CallsAdapter(verb: Verb, account: Account) {
    verb == Publish ==> Resolve(account.platform, account.overrides).publishMode == Api
  }

  predicate SubmissionRecords(w: World, r: Request, target: Option<TargetRef>) {
    !KeyTaken(w.actions, r.key) && (Judge(w, r, target).outcome != Allow || !CallsAdapter(r.verb, r.account))
  }

  predicate ReadRecords(w: World, r: Request, target: Option<TargetRef>) {
    Judge(w, r, target).outcome == Deny
  }

  /** An approve that is turned down, or staged. */
  predicate ApprovalRecords(w: World, item: Approval, a: Action, account: Account) {
    item.IsExpired(w.now) || Stale(item, DraftOf(w, a)) || !Eligible(account, a) || !CallsAdapter(a.verb, account)
  }

  predicate DecisionRecords(w: World, approvalId: Id, decision: ReviewDecision) {
    && approvalId in w.approvals && w.approvals[approvalId].actionId in w.actions
    && w.actions[w.approvals[approvalId].actionId].accountId in w.accounts
    && var item := w.approvals[approvalId];
       var a := w.actions[item.actionId];
       match decision
       case RequestChanges => false
       case Reject => true
       case Approve => ApprovalRecords(w, item, a, w.accounts[a.accountId])
  }

  function SearchRequest(w: World, c: Command): Request
    requires c.BeginSearch? && c.accountId in w.accounts
  {
    Request(c.caller, w.accounts[c.accountId], Search, None, None, None, None)
  }

  /**
   * When a block records an event, told from the world before it, judged at its instant: nothing is recorded
   * for an unknown record, a known key, a suspension, a request for changes, or a raising adapter or resolution.
   */
  predicate Records(w: World, c: Command)
    requires Enabled(w, c)
  {
    var v := w.(now := c.now);
    match c
    case SaveAccount(_, _, audited) => audited.Some?
    case SubmitPublish(_, _, _, _, _, _, _, _, _) =>
      c.accountId in w.accounts && c.draftId in w.drafts && SubmissionRecords(v, PublishRequest(w, c), None)
    case TargetResolved(_, client, target, _, _) =>
      var r := w.tasks[client].request;
      if IsWrite(r.verb) then SubmissionRecords(v, r, Some(target)) else ReadRecords(v, r, Some(target))
    case AdapterReturned(_, _, result) => result != RaisedOther
    case BeginSearch(_, _, _, _, _) => c.accountId in w.accounts && ReadRecords(v, SearchRequest(w, c), None)
    case ReadReturned(_, _, ok) => ok
    case DecideApproval(_, _, approvalId, decision, _, _) => DecisionRecords(v, approvalId, decision)
    case ResubmitApproval(_, _, approvalId) => approvalId in w.approvals
    case _ => false
  }

  /** Endings that record an event: all but a suspension and an escaped exception. */
  predicate Audited(e: Ending) {
    match e
    case Stop => false
    case Settling(_, _, _, _, _) => true
    case Launching(_, x) => TransportOf(x) != Live
    case Returning(_, _, result) => result != RaisedOther
    case ReadReturning(_, _) => true
  }

  lemma LiveCallsAdapter(x: Execution)
    requires IsWrite(x.action.verb)
    ensures TransportOf(x) == Live <==> CallsAdapter(x.action.verb, x.account)
  {
  }

  /** The block's own audit log is untouched and its ending records exactly when `expected` says so. */
  predicate Tallies(w: World, b: Block, expected: bool) {
    b.world.audit == w.audit && (Audited(b.ending) <==> expected)
  }

  lemma SubmissionTallies(w: World, client: nat, r: Request, target: Option<TargetRef>, actionId: Id, approvalId: Id)
    requires IsWrite(r.verb)
    ensures Tallies(w, SubmitWrite(w, client, r, target, actionId, approvalId), SubmissionRecords(w, r, target))
  {
    if !KeyTaken(w.actions, r.key) {
      var u, a := w.(used := w.used + {actionId, approvalId}), NewAction(r, actionId, target);
      DisposalTallies(u, client, r, target, a, approvalId, Judge(w, r, target));
    }
  }

  lemma DisposalTallies(w: World, client: nat, r: Request, target: Option<TargetRef>, a: Action, approvalId: Id,
                        verdict: PolicyResult)
    requires a.verb == r.verb && IsWrite(r.verb)
    ensures Tallies(w, Dispose(w, client, r, target, a, approvalId, verdict),
                    verdict.outcome != Allow || !CallsAdapter(r.verb, r.account))
  {
    LiveCallsAdapter(Submission(a, r, target));
  }

  lemma ReadTallies(w: World, client: nat, r: Request, target: Option<TargetRef>, actionId: Id)
    ensures Tallies(w, RunRead(w, client, r, target, actionId), ReadRecords(w, r, target))
  {
    AdmissionTallies(w.(used := w.used + {actionId}), client, r, target, NewAction(r, actionId, target),
                     Judge(w, r, target));
  }

  lemma AdmissionTallies(w: World, client: nat, r: Request, target: Option<TargetRef>, a: Action, verdict: PolicyResult)
    ensures Tallies(w, Admit(w, client, r, target, a, verdict), verdict.outcome == Deny)
  {
  }

  lemma ApprovalTallies(w: World, client: nat, item: Approval, a: Action, account: Account, actor: string,
                        reason: Option<string>)
    requires IsWrite(a.verb) && (a.draftId.Some? ==> a.draftId.value in w.drafts)
    ensures Tallies(w, ApproveItem(w, client, item, a, account, actor, reason), ApprovalRecords(w, item, a, account))
  {
    var b := ApproveItem(w, client, item, a, account, actor, reason);
    if b.ending.Launching? {
      LiveCallsAdapter(b.ending.x);
    }
  }

  lemma DecisionTallies(w: World, client: nat, approvalId: Id, decision: ReviewDecision, actor: string,
                        reason: Option<string>)
    requires Wf(w)
    ensures Tallies(w, Decide(w, client, approvalId, decision, actor, reason), DecisionRecords(w, approvalId, decision))
  {
    if approvalId in w.approvals {
      var item := w.approvals[approvalId];
      assert ItemOk(w, approvalId) && Shaped(w, w.actions[item.actionId]);
      var a := w.actions[item.actionId];
      ApprovalTallies(w, client, item, a, w.accounts[a.accountId], actor, reason);
    }
  }

  lemma ResubmissionTallies(w: World, caller: string, approvalId: Id)
    requires Wf(w)
    ensures Tallies(w, Resubmit(w, caller, approvalId), approvalId in w.approvals)
  {
    if approvalId in w.approvals {
      assert ItemOk(w, approvalId) && Shaped(w, w.actions[w.approvals[approvalId].actionId]);
    }
  }

  lemma ResolvedTallies(w: World, c: Command)
    requires Enabled(w, c) && c.TargetResolved? && c.now == w.now
    ensures Tallies(w, Perform(w, c), Records(w, c))
  {
    var r, u := w.tasks[c.client].request, w.(tasks := w.tasks - {c.client});
    assert w.(now := c.now) == w;
    assert Judge(u, r, Some(c.target)) == Judge(w, r, Some(c.target));
    if IsWrite(r.verb) {
      SubmissionTallies(u, c.client, r, Some(c.target), c.actionId, c.approvalId);
    } else {
      ReadTallies(u, c.client, r, Some(c.target), c.actionId);
    }
  }

  lemma CallsTally(w: World, c: Command)
    requires Wf(w) && Enabled(w, c) && c.now == w.now
    requires c.SubmitPublish? || c.BeginSearch? || c.DecideApproval? || c.ResubmitApproval?
    ensures Tallies(w, Perform(w, c), Records(w, c))
  {
    assert w.(now := c.now) == w;
    match c
    case SubmitPublish(_, client, _, accountId, _, draftId, _, actionId, approvalId) =>
      if accountId in w.accounts && draftId in w.drafts {
        SubmissionTallies(w, client, PublishRequest(w, c), None, actionId, approvalId);
      }
    case BeginSearch(_, client, _, accountId, actionId) =>
      if accountId in w.accounts {
        ReadTallies(w, client, SearchRequest(w, c), None, actionId);
      }
    case DecideApproval(_, client, approvalId, decision, actor, reason) =>
      DecisionTallies(w, client, approvalId, decision, actor, reason);
    case ResubmitApproval(_, caller, approvalId) => ResubmissionTallies(w, caller, approvalId);
  }

  /** What the block adds before its ending, together with its ending. */
  lemma BlockTallies(w: World, c: Command)
    requires Wf(w) && Enabled(w, c) && c.now == w.now
    ensures var b := Perform(w, c);
            |b.world.audit| + (if Audited(b.ending) then 1 else 0) == |w.audit| + if Records(w, c) then 1 else 0
  {
    if c.TargetResolved? {
      ResolvedTallies(w, c);
    } else if c.SubmitPublish? || c.BeginSearch? || c.DecideApproval? || c.ResubmitApproval? {
      CallsTally(w, c);
    }
  }

  // ---- what an ending does to the audit log and to one action's state ----

  /** The events about one action. */
  function EventsOf(audit: seq<AuditEvent>, id: Id): nat {
    if audit == [] then 0
    else EventsOf(audit[..|audit| - 1], id) + if audit[|audit| - 1].actionId == Some(id) then 1 else 0
  }

  lemma EventsOfAppend(audit: seq<AuditEvent>, e: AuditEvent, id: Id)
    ensures EventsOf(audit + [e], id) == EventsOf(audit, id) + if e.actionId == Some(id) then 1 else 0
  {
    assert (audit + [e])[..|audit|] == audit;
  }

  function StateOf(actions: map<Id, Action>, id: Id): Option<ActionState> {
    if id in actions then Some(actions[id].state) else None
  }

  /** The state an ending gives its own action. */
  function NewState(e: Ending, before: Option<ActionState>): Option<ActionState> {
    match e
    case Stop => before
    case Settling(_, s, _, _, _) => Some(s)
    case Launching(_, x) => Some(if TransportOf(x) == Live then Executing else Done)
    case Returning(_, _, result) =>
      if result == RaisedOther then before else Some(if result == Succeeded then Done else Failed)
    case ReadReturning(_, _) => Some(Done)
  }

  /** One event if the ending records one, about its own action; and no other action's state moves. */
  ghost predicate Effects(u: World, t: World, own: Id, recorded: bool, s: Option<ActionState>, id: Id) {
    && |t.audit| == |u.audit| + (if recorded then 1 else 0)
    && EventsOf(t.audit, id) == EventsOf(u.audit, id) + (if recorded && id == own then 1 else 0)
    && StateOf(t.actions, id) == if id == own then s else StateOf(u.actions, id)
  }

  lemma SettleEffects(u: World, a: Action, s: ActionState, actor: string, outcome: Outcome, code: Option<DenialCode>,
                      id: Id)
    ensures Effects(u, Settle(u, a, s, actor, outcome, code), a.id, true, Some(s), id)
  {
    EventsOfAppend(u.audit, AuditEvent(actor, VerbName(a.verb), outcome, a.accountId, Some(a.id), code), id);
  }

  lemma SucceedEffects(u: World, x: Execution, id: Id)
    ensures Effects(u, Succeed(u, x), x.action.id, true, Some(Done), id)
  {
    var v := u.(trackers := Track(u.config, u.trackers, x, u.now),
                seen := u.seen.(executed := u.seen.executed + [ExecutedBy(u, x)]));
    SettleEffects(v, x.action, Done, x.actor, Allow, None, id);
  }

  lemma ExecuteEffects(u: World, client: nat, x: Execution, id: Id)
    requires IsWrite(x.action.verb)
    ensures Effects(u, Execute(u, client, x), x.action.id, TransportOf(x) != Live,
                    Some(if TransportOf(x) == Live then Executing else Done), id)
  {
    var y := Started(x);
    assert TransportOf(y) == TransportOf(x);
    if TransportOf(x) == Staged {
      SucceedEffects(WithAction(u, y.action), y, id);
    }
  }

  lemma FinishEffects(u: World, client: nat, x: Execution, result: AdapterResult, id: Id)
    ensures Effects(u, Finish(u, client, x, result), x.action.id, result != RaisedOther,
                    if result == RaisedOther then StateOf(u.actions, x.action.id)
                    else Some(if result == Succeeded then Done else Failed), id)
  {
    var v := u.(tasks := u.tasks - {client});
    match result
    case Succeeded => SucceedEffects(v, x, id);
    case Rejected => SettleEffects(v, x.action, Failed, x.actor, Deny, None, id);
    case RaisedInvalid => SettleEffects(v, x.action, Failed, x.actor, Deny, Some(ContentInvalid), id);
    case RaisedUnsupported => SettleEffects(v, x.action, Failed, x.actor, Deny, Some(CapabilityUnsupported), id);
    case RaisedOther =>
  }

  lemma FinishReadEffects(u: World, client: nat, x: Execution, id: Id)
    ensures Effects(u, FinishRead(u, client, x), x.action.id, true, Some(Done), id)
  {
    var t := FinishRead(u, client, x);
    var v := u.(tasks := u.tasks - {client}, trackers := t.trackers, seen := t.seen);
    SettleEffects(v, x.action, Done, x.actor, Allow, None, id);
  }

  lemma CloseEffects(w: World, b: Block, id: Id)
    requires Prepared(w, b) && !b.ending.Stop?
    ensures var own := OwnId(b.ending).value;
            Effects(b.world, Close(b), own, Audited(b.ending), NewState(b.ending, StateOf(w.actions, own)), id)
  {
    match b.ending
    case Settling(a, s, actor, outcome, code) => SettleEffects(b.world, a, s, actor, outcome, code, id);
    case Launching(client, x) => ExecuteEffects(b.world, client, x, id);
    case Returning(client, x, result) => FinishEffects(w, client, x, result, id);
    case ReadReturning(client, x) => FinishReadEffects(w, client, x, id);
  }

  /**
   * One event per call, exactly: a command adds an event if and only if `Records` says so of the world and
   * the command, and it never adds two.
   */
  lemma OneEventExactlyWhenRecorded(w: World, c: Command)
    requires Wf(w) && Enabled(w, c)
    ensures |Step(w, c).audit| == |w.audit| + if Records(w, c) then 1 else 0
  {
    var v := w.(now := c.now);
    NowKeepsWf(w, c.now);
    BlockPrepared(v, c);
    BlockTallies(v, c);
    EventsOfClose(v, Perform(v, c));
  }

  lemma EventsOfClose(w: World, b: Block)
    requires Prepared(w, b)
    ensures |Close(b).audit| == |b.world.audit| + if Audited(b.ending) then 1 else 0
  {
    if !b.ending.Stop? {
      CloseEffects(w, b, "");
    }
  }

  // ---- every run ----

  predicate Owned(approvals: map<Id, Approval>, id: Id) {
    exists i :: i in approvals && approvals[i].actionId == id
  }

  function RunsOf(tasks: map<nat, Task>, id: Id): set<nat> {
    set c | c in tasks && tasks[c].Running? && tasks[c].x.action.id == id
  }

  /** No event before an action is stored; while it executes none, and at most one execution; afterwards one. */
  predicate Counted(s: Option<ActionState>, events: nat, runs: set<nat>, owned: bool) {
    if s.None? then events == 0 && runs == {}
    else owned || (events == (if s.value == Executing then 0 else 1) && |runs| <= 1
                   && (runs != {} ==> s.value == Executing))
  }

  predicate CountedIn(w: World, id: Id) {
    Counted(StateOf(w.actions, id), EventsOf(w.audit, id), RunsOf(w.tasks, id), Owned(w.approvals, id))
  }

  ghost predicate CountInv(w: World) { forall id :: CountedIn(w, id) }

  lemma OwnershipStays(w: World, b: Block, id: Id)
    requires ApprovalsMove(w, b) && Owned(w.approvals, id)
    ensures Owned(b.world.approvals, id)
  {
    var i :| i in w.approvals && w.approvals[i].actionId == id;
    if b.world.approvals != w.approvals {
      var item: Approval, a: Action, draft: Option<ContentDraft> :| ItemMove(w, b, item, a, draft);
      assert i in b.world.approvals && b.world.approvals[i].actionId == id;
    }
  }

  /** A block that settles or executes a stored action again does so for its approval. */
  lemma ReworkIsOwned(w: World, b: Block)
    requires ApprovalsMove(w, b) && Prepared(w, b) && ActionsInv(w)
    requires (b.ending.Settling? || b.ending.Launching?) && OwnId(b.ending).value in w.actions
    ensures Owned(w.approvals, OwnId(b.ending).value)
  {
    if !NoMove(w, b) {
      var item: Approval, a: Action, draft: Option<ContentDraft> :| ItemMove(w, b, item, a, draft);
      assert item.id in w.approvals && w.approvals[item.id].actionId == OwnId(b.ending).value;
    }
  }

  lemma RunsKept(w: World, u: World, id: Id)
    requires SameRunning(w.tasks, u.tasks)
    ensures RunsOf(u.tasks, id) == RunsOf(w.tasks, id)
  {
    forall c
      ensures c in RunsOf(u.tasks, id) <==> c in RunsOf(w.tasks, id)
    {
      assert c in w.tasks && w.tasks[c].Running? ==> c in u.tasks && u.tasks[c] == w.tasks[c];
      assert c in u.tasks && u.tasks[c].Running? ==> c in w.tasks && u.tasks[c] == w.tasks[c];
    }
  }

  lemma StartedRuns(tasks: map<nat, Task>, client: nat, x: Execution, id: Id)
    requires client !in tasks
    ensures RunsOf(tasks[client := Running(Started(x))], id)
         == RunsOf(tasks, id) + if x.action.id == id then {client} else {}
  {
  }

  lemma EndedRuns(tasks: map<nat, Task>, client: nat, id: Id)
    ensures RunsOf(tasks - {client}, id) == RunsOf(tasks, id) - {client}
  {
  }

  /** The executions of one action after an ending. */
  function RunsWith(e: Ending, runs: set<nat>, id: Id): set<nat> {
    match e
    case Launching(client, x) => runs + if x.action.id == id && TransportOf(x) == Live then {client} else {}
    case Returning(client, _, _) => runs - {client}
    case _ => runs
  }

  lemma RunsInTasksAfter(w: World, b: Block, id: Id)
    requires Prepared(w, b) && RunsOf(b.world.tasks, id) == RunsOf(w.tasks, id)
    ensures RunsOf(TasksAfter(w, b), id) == RunsWith(b.ending, RunsOf(w.tasks, id), id)
  {
    match b.ending {
      case Launching(client, x) => StartedRuns(b.world.tasks, client, x, id);
      case Returning(client, _, _) => EndedRuns(w.tasks, client, id);
      case ReadReturning(client, _) => EndedRuns(w.tasks, client, id);
      case _ =>
    }
  }

  lemma RunsAfter(w: World, b: Block, id: Id)
    requires Prepared(w, b)
    ensures RunsOf(Close(b).tasks, id) == RunsWith(b.ending, RunsOf(w.tasks, id), id)
  {
    CloseAdvances(w, b);
    RunsKept(w, b.world, id);
    RunsInTasksAfter(w, b, id);
  }

  lemma BookkeepingKeepsEvents(w: World, u: World, id: Id)
    requires Bookkeeping(w, u)
    ensures EventsOf(u.audit, id) == EventsOf(w.audit, id)
  {
    if u.audit != w.audit {
      var e: AuditEvent :| u.audit == w.audit + [e] && e.actionId.None?;
      EventsOfAppend(w.audit, e, id);
    }
  }

  lemma OthersStayCounted(w: World, b: Block, id: Id)
    requires Core(w) && Prepared(w, b) && ApprovalsMove(w, b) && CountedIn(w, id) && OwnId(b.ending) != Some(id)
    ensures CountedIn(Close(b), id)
  {
    ApprovalsAfter(w, b, id);
    RunsAfter(w, b, id);
    BookkeepingKeepsEvents(w, b.world, id);
    if !b.ending.Stop? {
      CloseEffects(w, b, id);
    }
  }

  lemma ApprovalsAfter(w: World, b: Block, id: Id)
    requires Core(w) && Prepared(w, b) && ApprovalsMove(w, b)
    ensures Owned(w.approvals, id) ==> Owned(Close(b).approvals, id)
  {
    CloseKeepsActs(w, b);
    if Owned(w.approvals, id) {
      OwnershipStays(w, b, id);
    }
  }

  /** What an ending may meet: it reworks only owned actions, and returns only to waiting executions. */
  predicate Meets(e: Ending, before: Option<ActionState>, runs: set<nat>, owned: bool) {
    match e
    case Stop => false
    case Settling(_, s, _, _, _) => s != Executing && (before.Some? ==> owned)
    case Launching(_, x) => before.Some? ==> owned
    case Returning(client, _, _) => before.Some? && client in runs
    case ReadReturning(_, _) => before.None?
  }

  lemma CountedAfter(e: Ending, before: Option<ActionState>, events: nat, runs: set<nat>, owned: bool, stays: bool,
                     id: Id)
    requires Counted(before, events, runs, owned) && Meets(e, before, runs, owned) && (owned ==> stays)
    requires OwnId(e) == Some(id)
    ensures Counted(NewState(e, before), events + (if Audited(e) then 1 else 0), RunsWith(e, runs, id), stays)
  {
    if e.Returning? && !owned {
      assert |runs - {e.client}| == |runs| - 1;
    }
  }

  lemma EndingMeets(w: World, b: Block, id: Id)
    requires TasksInv(w) && ActionsInv(w) && Prepared(w, b) && ApprovalsMove(w, b) && OwnId(b.ending) == Some(id)
    ensures Meets(b.ending, StateOf(w.actions, id), RunsOf(w.tasks, id), Owned(w.approvals, id))
  {
    if b.ending.Returning? || b.ending.ReadReturning? {
      assert TaskOk(w, w.tasks[b.ending.client]);
    } else if id in w.actions {
      ReworkIsOwned(w, b);
    }
  }

  /** The ending's own action: new, reworked for its approval, or returning from its only execution. */
  lemma OwnStaysCounted(w: World, b: Block, id: Id)
    requires Core(w) && Prepared(w, b) && ApprovalsMove(w, b) && CountedIn(w, id) && OwnId(b.ending) == Some(id)
    ensures CountedIn(Close(b), id)
  {
    ApprovalsAfter(w, b, id);
    RunsAfter(w, b, id);
    BookkeepingKeepsEvents(w, b.world, id);
    CloseEffects(w, b, id);
    EndingMeets(w, b, id);
    CountedAfter(b.ending, StateOf(w.actions, id), EventsOf(w.audit, id), RunsOf(w.tasks, id), Owned(w.approvals, id),
                 Owned(Close(b).approvals, id), id);
  }

  lemma CloseKeeps(w: World, b: Block)
    requires Core(w) && Prepared(w, b) && ApprovalsMove(w, b) && CountInv(w)
    ensures CountInv(Close(b))
  {
    forall id
      ensures CountedIn(Close(b), id)
    {
      if OwnId(b.ending) == Some(id) {
        OwnStaysCounted(w, b, id);
      } else {
        OthersStayCounted(w, b, id);
      }
    }
  }

  lemma {:induction false} RunKeeps(w: World, commands: seq<Command>)
    requires Wf(w) && CountInv(w)
    ensures CountInv(Run(w, commands))
  {
    if commands != [] {
      var earlier, c := commands[..|commands| - 1], commands[|commands| - 1];
      RunKeeps(w, earlier);
      RunKeepsWf(w, earlier);
      var r := Run(w, earlier);
      if Enabled(r, c) {
        var v := r.(now := c.now);
        NowKeepsWf(r, c.now);
        assert CountInv(v) by {
          forall id
            ensures CountedIn(v, id)
          {
            assert CountedIn(r, id);
          }
        }
        BlockPrepared(v, c);
        ApprovalsMoved(v, c);
        CloseKeeps(v, Perform(v, c));
      }
    }
  }

  lemma NothingIsCounted(config: Config, start: Time)
    ensures CountInv(Initial(config, start))
  {
  }

  /**
   * In every run, at every boundary: an action that never went through the approval queue has no event while it
   * executes and exactly one once it does not.
   */
  lemma OneEventPerAction(config: Config, start: Time, commands: seq<Command>, w: World, id: Id)
    requires w == Run(Initial(config, start), commands) && id in w.actions && !Owned(w.approvals, id)
    ensures EventsOf(w.audit, id) == if w.actions[id].state == Executing then 0 else 1
  {
    InitialWf(config, start);
    NothingIsCounted(config, start);
    RunKeeps(Initial(config, start), commands);
    assert CountedIn(w, id);
  }
}

/** The states of an approval and of the action it owns, across decide, reject, expiry, staleness and resubmit. */
module JointStates {
  import opened Domain
  import opened ActionModel
  import opened Structure

  /** Which action states a review state admits. `reopened` excuses items reopened during an execution. */
  predicate Fit(review: ReviewState, s: ActionState, reopened: bool) {
    && (review == Approved ==> s == Done || s == Failed || s == Executing)
    && (s == Refused ==> review == ChangesRequested)
    && (review == Open && !reopened ==> s == NeedsApproval)
  }

  predicate ItemFits(w: World, id: Id) {
    && id in w.approvals && w.approvals[id].actionId in w.actions
    && var item := w.approvals[id];
       var reopened := item.actionId in w.seen.reopenedInFlight;
       && Fit(item.review, w.actions[item.actionId].state, reopened)
       && (item.review == Open && !reopened ==> !InFlight(w.tasks, item.actionId))
  }

  ghost predicate JointInv(w: World) { forall id :: id in w.approvals ==> ItemFits(w, id) }

  // ---- what an ending does to one action ----

  /** The state an ending gives the action `id`, and whether an execution of it may be waiting afterwards. */
  predicate EndsIn(e: Ending, t: World, id: Id) {
    && id in t.actions
    && match e
       case Settling(a, s, _, _, _) => a.id == id ==> t.actions[id].state == s
       case Launching(_, x) =>
         x.action.id == id ==>
           t.actions[id].state == Executing || t.actions[id].state == Done || t.actions[id].state == Failed
       case _ => true
  }

  /** Actions other than the ending's own keep their state, and no execution of theirs begins. */
  ghost predicate OthersUntouched(u: World, t: World, own: Option<Id>) {
    forall id :: own != Some(id) ==>
      && (id in u.actions ==> id in t.actions && t.actions[id].state == u.actions[id].state)
      && (InFlight(t.tasks, id) ==> InFlight(u.tasks, id))
  }

  function OwnId(e: Ending): Option<Id> {
    match e
    case Stop => None
    case Settling(a, _, _, _, _) => Some(a.id)
    case Launching(_, x) => Some(x.action.id)
    case Returning(_, x, _) => Some(x.action.id)
    case ReadReturning(_, x) => Some(x.action.id)
  }

  lemma InFlightFrom(tasks: map<nat, Task>, after: map<nat, Task>, id: Id)
    requires InFlight(after, id)
    requires forall c :: c in after && after[c].Running? && after[c].x.action.id == id ==>
               c in tasks && tasks[c] == after[c]
    ensures InFlight(tasks, id)
  {
    var c :| c in after && after[c].Running? && after[c].x.action.id == id;
    assert tasks[c].Running?;
  }

  lemma TasksFrom(u: World, t: World, own: Option<Id>)
    requires forall id :: own != Some(id) && id in u.actions ==>
               id in t.actions && t.actions[id].state == u.actions[id].state
    requires forall c :: c in t.tasks && t.tasks[c].Running? && own != Some(t.tasks[c].x.action.id)
               ==> c in u.tasks && u.tasks[c] == t.tasks[c]
    ensures OthersUntouched(u, t, own)
  {
    forall id | own != Some(id) && InFlight(t.tasks, id)
      ensures InFlight(u.tasks, id)
    {
      InFlightFrom(u.tasks, t.tasks, id);
    }
  }

  lemma SettleTouches(u: World, a: Action, s: ActionState, actor: string, outcome: Outcome, code: Option<DenialCode>)
    ensures var t := Settle(u, a, s, actor, outcome, code);
            && OthersUntouched(u, t, Some(a.id)) && a.id in t.actions && t.actions[a.id].state == s
              && t.tasks == u.tasks
  {
    TasksFrom(u, Settle(u, a, s, actor, outcome, code), Some(a.id));
  }

  lemma SucceedTouches(u: World, x: Execution)
    ensures var t := Succeed(u, x);
            OthersUntouched(u, t, Some(x.action.id)) && x.action.id in t.actions && t.actions[x.action.id].state == Done
  {
    var v := u.(trackers := Track(u.config, u.trackers, x, u.now),
                seen := u.seen.(executed := u.seen.executed + [ExecutedBy(u, x)]));
    SettleTouches(v, x.action, Done, x.actor, Allow, None);
  }

  lemma ExecuteTouches(u: World, client: nat, x: Execution)
    requires client !in u.tasks
    ensures var t := Execute(u, client, x);
            OthersUntouched(u, t, Some(x.action.id)) && EndsIn(Launching(client, x), t, x.action.id)
  {
    var y := x.(action := x.action.(state := Executing));
    var v := WithAction(u, y.action);
    TasksFrom(u, v, Some(x.action.id));
    match TransportOf(y)
    case Live => TasksFrom(v, Execute(u, client, x), Some(x.action.id));
    case Staged => SucceedTouches(v, y);
    case Unsupported => SettleTouches(v, y.action, Failed, y.actor, Deny, Some(CapabilityUnsupported));
  }

  lemma FinishTouches(u: World, client: nat, x: Execution, result: AdapterResult)
    requires client in u.tasks && u.tasks[client] == Running(x) && x.action.id in u.actions
    ensures var t := Finish(u, client, x, result);
            && OthersUntouched(u, t, Some(x.action.id)) && x.action.id in t.actions
            && (t.actions[x.action.id].state == u.actions[x.action.id].state
                || t.actions[x.action.id].state == Done || t.actions[x.action.id].state == Failed)
  {
    TasksFrom(u, Finish(u, client, x, result), Some(x.action.id));
  }

  lemma FinishReadTouches(u: World, client: nat, x: Execution)
    ensures OthersUntouched(u, FinishRead(u, client, x), Some(x.action.id))
  {
    TasksFrom(u, FinishRead(u, client, x), Some(x.action.id));
  }

  lemma CloseTouches(w: World, b: Block)
    requires Core(w) && Prepared(w, b)
    ensures OthersUntouched(b.world, Close(b), OwnId(b.ending))
    ensures b.ending.Settling? || b.ending.Launching? ==> EndsIn(b.ending, Close(b), OwnId(b.ending).value)
  {
    match b.ending
    case Stop =>
    case Settling(a, s, actor, outcome, code) => SettleTouches(b.world, a, s, actor, outcome, code);
    case Launching(client, x) => ExecuteTouches(b.world, client, x);
    case Returning(client, x, result) =>
      assert TaskOk(w, w.tasks[client]);
      FinishTouches(w, client, x, result);
    case ReadReturning(client, x) => FinishReadTouches(w, client, x);
  }

  // ---- approvals and actions together ----

  lemma UntouchedItemFits(w: World, b: Block, t: World, id: Id)
    requires ItemFits(w, id) && ItemOk(w, id) && Bookkeeping(w, b.world) && KeepsActs(b.world, t)
    requires id in b.world.approvals && b.world.approvals[id] == w.approvals[id]
    requires OthersUntouched(b.world, t, OwnId(b.ending)) && OwnId(b.ending) != Some(w.approvals[id].actionId)
    ensures ItemFits(t, id)
  {
    SameInFlight(w.tasks, b.world.tasks, w.approvals[id].actionId);
  }

  /** An execution that returns finds its item decided, or flagged as reopened meanwhile. */
  lemma ReturningItemFits(w: World, b: Block, id: Id)
    requires Wf(w) && JointInv(w) && Prepared(w, b) && b.ending.Returning? && id in w.approvals
    requires w.approvals[id].actionId == b.ending.x.action.id
    ensures ItemFits(Close(b), id)
  {
    var client, x := b.ending.client, b.ending.x;
    assert TaskOk(w, w.tasks[client]) && ItemFits(w, id);
    assert InFlight(w.tasks, x.action.id);
    CloseKeepsActs(w, b);
    FinishTouches(w, client, x, b.ending.result);
  }

  lemma NoMoveFits(w: World, b: Block, id: Id)
    requires Wf(w) && JointInv(w) && Prepared(w, b) && NoMove(w, b) && id in w.approvals
    ensures ItemFits(Close(b), id)
  {
    assert ItemOk(w, id) && ItemFits(w, id);
    CloseKeepsActs(w, b);
    CloseTouches(w, b);
    if b.ending.ReadReturning? {
      assert TaskOk(w, w.tasks[b.ending.client]);
    }
    if b.ending.Returning? && b.ending.x.action.id == w.approvals[id].actionId {
      ReturningItemFits(w, b, id);
    } else {
      UntouchedItemFits(w, b, Close(b), id);
    }
  }

  /** The item a block moves fits the state its ending gives the action. */
  lemma OtherItemFits(w: World, b: Block, item: Approval, id: Id)
    requires ItemFits(w, id) && ItemOk(w, id) && Bookkeeping(w, b.world) && Fits(w, b, item)
    requires KeepsActs(b.world, Close(b)) && OthersUntouched(b.world, Close(b), OwnId(b.ending))
    requires b.world.approvals == w.approvals[item.id := item]
    requires id != item.id && w.approvals[id].actionId != item.actionId
    ensures ItemFits(Close(b), id)
  {
    MoveIsOwn(w, b, item);
    UntouchedItemFits(w, b, Close(b), id);
  }

  lemma MovedItemFits(w: World, b: Block, item: Approval, a: Action, draft: Option<ContentDraft>)
    requires Wf(w) && Prepared(w, b) && ItemMove(w, b, item, a, draft) && ItemOk(Close(b), item.id)
    requires KeepsActs(b.world, Close(b))
    requires b.ending.Settling? || b.ending.Launching? ==> EndsIn(b.ending, Close(b), OwnId(b.ending).value)
    ensures ItemFits(Close(b), item.id)
  {
    if item.review == Open {
      ReopenedItemWaits(w, b, item);
    }
  }

  lemma ReopenedItemWaits(w: World, b: Block, item: Approval)
    requires Fits(w, b, item) && item.review == Open && SameRunning(w.tasks, b.world.tasks)
    ensures InFlight(Close(b).tasks, item.actionId) ==> item.actionId in b.world.seen.reopenedInFlight
  {
    SettleTouches(b.world, b.ending.a, b.ending.s, b.ending.actor, b.ending.outcome, b.ending.code);
    SameInFlight(w.tasks, b.world.tasks, item.actionId);
  }

  /** The ending of a move concerns the moved item's action, if any. */
  lemma MoveIsOwn(w: World, b: Block, item: Approval)
    requires Fits(w, b, item)
    ensures OwnId(b.ending).None? || OwnId(b.ending).value == item.actionId
  {
  }

  lemma CloseKeeps(w: World, b: Block)
    requires Wf(w) && JointInv(w) && Prepared(w, b) && ApprovalsMove(w, b) && ApprovalsInv(Close(b))
    ensures JointInv(Close(b))
  {
    CloseKeepsActs(w, b);
    CloseTouches(w, b);
    forall id | id in Close(b).approvals
      ensures ItemFits(Close(b), id)
    {
      assert ItemOk(Close(b), id);
      if NoMove(w, b) {
        NoMoveFits(w, b, id);
      } else {
        var item: Approval, a: Action, draft: Option<ContentDraft> :| ItemMove(w, b, item, a, draft);
        if id == item.id {
          MovedItemFits(w, b, item, a, draft);
        } else {
          MoveKeepsOwnership(w, b, item, a, draft);
          assert ItemFits(w, id) && ItemOk(w, id);
          OtherItemFits(w, b, item, id);
        }
      }
    }
  }

  lemma {:induction false} RunKeeps(w: World, commands: seq<Command>)
    requires Wf(w) && JointInv(w)
    ensures JointInv(Run(w, commands))
  {
    if commands != [] {
      var earlier, c := commands[..|commands| - 1], commands[|commands| - 1];
      RunKeeps(w, earlier);
      RunKeepsWf(w, earlier);
      var r := Run(w, earlier);
      if Enabled(r, c) {
        var v := r.(now := c.now);
        NowKeepsWf(r, c.now);
        assert JointInv(v) by {
          forall id | id in v.approvals
            ensures ItemFits(v, id)
          {
            assert ItemFits(r, id);
          }
        }
        BlockPrepared(v, c);
        ApprovalsMoved(v, c);
        BlocksOnlyGrow(v, c);
        MovesKeepApprovals(v, Perform(v, c));
        CloseKeeps(v, Perform(v, c));
      }
    }
  }

  /**
   * In every run: an approved item's action is done, failed or executing; a refused action's item asks for
   * changes; and an open item's action needs approval, unless the item was reopened during an execution.
   * Every approval owns an action of its own.
   */
  lemma ApprovalsAndActionsAgree(config: Config, start: Time, commands: seq<Command>, w: World, id: Id)
    requires w == Run(Initial(config, start), commands) && id in w.approvals
    ensures ItemFits(w, id) && OwnActions(w.approvals)
  {
    InitialWf(config, start);
    RunKeepsWf(Initial(config, start), commands);
    RunKeeps(Initial(config, start), commands);
  }

  // ---- the exception is real, and it is the only one ----

  /** No resubmission hits an action whose execution is waiting for its adapter. */
  predicate ResubmitsBetweenExecutions(w: World, c: Command) {
    c.ResubmitApproval? && c.approvalId in w.approvals ==> !InFlight(w.tasks, w.approvals[c.approvalId].actionId)
  }

  ghost predicate Careful(w: World, commands: seq<Command>) {
    forall i :: 0 <= i < |commands| ==> ResubmitsBetweenExecutions(Run(w, commands[..i]), commands[i])
  }

  lemma SubmitFlagsNothing(w: World, client: nat, r: Request, target: Option<TargetRef>, actionId: Id, approvalId: Id)
    ensures var b := SubmitWrite(w, client, r, target, actionId, approvalId);
            b.world.seen.reopenedInFlight == w.seen.reopenedInFlight
  {
  }

  lemma CarefulResubmit(w: World, caller: string, approvalId: Id)
    requires Wf(w) && (approvalId in w.approvals ==> !InFlight(w.tasks, w.approvals[approvalId].actionId))
    ensures Resubmit(w, caller, approvalId).world.seen.reopenedInFlight == w.seen.reopenedInFlight
  {
    assert w.seen.reopenedInFlight + {} == w.seen.reopenedInFlight;
  }

  lemma SubmissionsFlagNothing(w: World, c: Command)
    requires Enabled(w, c) && (c.SubmitPublish? || c.TargetResolved?)
    ensures Perform(w, c).world.seen.reopenedInFlight == w.seen.reopenedInFlight
  {
    if c.TargetResolved? {
      SubmitFlagsNothing(w.(tasks := w.tasks - {c.client}), c.client, w.tasks[c.client].request, Some(c.target),
                         c.actionId, c.approvalId);
    } else if c.accountId in w.accounts && c.draftId in w.drafts {
      var r := PublishRequest(w, c);
      SubmitFlagsNothing(w, c.client, r, None, c.actionId, c.approvalId);
    }
  }

  lemma OthersFlagNothing(w: World, c: Command)
    requires Enabled(w, c) && !c.SubmitPublish? && !c.TargetResolved? && !c.ResubmitApproval?
    ensures Perform(w, c).world.seen.reopenedInFlight == w.seen.reopenedInFlight
  {
  }

  lemma OnlyResubmitsFlag(w: World, c: Command)
    requires Wf(w) && Enabled(w, c) && ResubmitsBetweenExecutions(w, c)
    ensures Perform(w, c).world.seen.reopenedInFlight == w.seen.reopenedInFlight
  {
    if c.SubmitPublish? || c.TargetResolved? {
      SubmissionsFlagNothing(w, c);
    } else if c.ResubmitApproval? {
      CarefulResubmit(w, c.caller, c.approvalId);
    } else {
      OthersFlagNothing(w, c);
    }
  }

  lemma CarefulStep(w: World, c: Command)
    requires Wf(w) && w.seen.reopenedInFlight == {} && ResubmitsBetweenExecutions(w, c)
    ensures Step(w, c).seen.reopenedInFlight == {}
  {
    if Enabled(w, c) {
      var v := w.(now := c.now);
      NowKeepsWf(w, c.now);
      BlockPrepared(v, c);
      OnlyResubmitsFlag(v, c);
      CloseKeepsActs(v, Perform(v, c));
    }
  }

  lemma CarefulEarlier(w: World, commands: seq<Command>)
    requires commands != [] && Careful(w, commands)
    ensures Careful(w, commands[..|commands| - 1])
    ensures ResubmitsBetweenExecutions(Run(w, commands[..|commands| - 1]), commands[|commands| - 1])
  {
    var earlier := commands[..|commands| - 1];
    forall i | 0 <= i < |earlier|
      ensures ResubmitsBetweenExecutions(Run(w, earlier[..i]), earlier[i])
    {
      assert earlier[..i] == commands[..i];
    }
  }

  lemma {:induction false} CarefulRuns(w: World, commands: seq<Command>)
    requires Wf(w) && w.seen.reopenedInFlight == {} && Careful(w, commands)
    ensures Run(w, commands).seen.reopenedInFlight == {}
  {
    if commands != [] {
      var earlier, c := commands[..|commands| - 1], commands[|commands| - 1];
      CarefulEarlier(w, commands);
      CarefulRuns(w, earlier);
      RunKeepsWf(w, earlier);
      CarefulStep(Run(w, earlier), c);
    }
  }

  /** Without such resubmissions (in particular when calls do not overlap) open items always need approval. */
  lemma OpenMeansNeedsApproval(config: Config, start: Time, commands: seq<Command>, w: World, id: Id)
    requires w == Run(Initial(config, start), commands) && Careful(Initial(config, start), commands)
    requires id in w.approvals && w.approvals[id].review == Open
    ensures ItemFits(w, id) && w.actions[w.approvals[id].actionId].state == NeedsApproval
  {
    InitialWf(config, start);
    ApprovalsAndActionsAgree(config, start, commands, w, id);
    CarefulRuns(Initial(config, start), commands);
  }

  lemma FinishDecides(u: World, client: nat, x: Execution, result: AdapterResult)
    requires result != RaisedOther
    ensures var t := Finish(u, client, x, result);
            && t.approvals == u.approvals && x.action.id in t.actions
            && t.actions[x.action.id].state == if result == Succeeded then Done else Failed
  {
    if result == Succeeded {
      SucceedTouches(u.(tasks := u.tasks - {client}), x);
    }
  }

  /** Any item reopened while its action waits for the adapter ends up open on a done or failed action. */
  lemma ReopenedDuringExecutionBreaks(w: World, id: Id, client: nat, result: AdapterResult)
    requires id in w.approvals && w.approvals[id].review == Open && result != RaisedOther
    requires client in w.tasks && w.tasks[client].Running? && w.tasks[client].x.action.id == w.approvals[id].actionId
    ensures var t := Step(w, AdapterReturned(w.now, client, result));
            && id in t.approvals && t.approvals[id].review == Open && t.approvals[id].actionId in t.actions
            && t.actions[t.approvals[id].actionId].state == if result == Succeeded then Done else Failed
  {
    FinishDecides(w, client, w.tasks[client].x, result);
    AnsweredStep(w, client, result);
  }

  lemma FinishWritesItsOwn(u: World, client: nat, x: Execution, result: AdapterResult, id: Id)
    requires id in u.actions && x.action.id != id
    ensures var t := Finish(u, client, x, result); id in t.actions && t.actions[id] == u.actions[id]
  {
  }

  /** Once the adapter answers one waiting execution, the item is open on an action that needs no approval. */
  predicate Spoils(u: World, id: Id, client: nat, result: AdapterResult) {
    && client in u.tasks && u.tasks[client].Running? && id in u.approvals
    && var t := Step(u, AdapterReturned(u.now, client, result));
       && id in t.approvals && t.approvals[id].review == Open && t.approvals[id].actionId in t.actions
       && t.actions[t.approvals[id].actionId].state != NeedsApproval
  }

  lemma ReopenedWaits(w: World, caller: string, id: Id)
    requires Wf(w) && id in w.approvals
    ensures var u := Step(w, ResubmitApproval(w.now, caller, id));
            && id in u.approvals && u.approvals[id].review == Open
              && u.approvals[id].actionId == w.approvals[id].actionId
            && u.approvals[id].actionId in u.actions && u.actions[u.approvals[id].actionId].state == NeedsApproval
            && u.tasks == w.tasks && u.now == w.now
  {
    assert ItemOk(w, id) && Shaped(w, w.actions[w.approvals[id].actionId]);
    assert w.(now := w.now) == w;
  }

  lemma SpoilerIsOwn(u: World, id: Id, client: nat, result: AdapterResult)
    requires id in u.approvals && u.approvals[id].actionId in u.actions
    requires u.actions[u.approvals[id].actionId].state == NeedsApproval
    requires Spoils(u, id, client, result)
    ensures u.tasks[client].x.action.id == u.approvals[id].actionId
  {
    var x := u.tasks[client].x;
    AnsweredStep(u, client, result);
    if x.action.id != u.approvals[id].actionId {
      FinishWritesItsOwn(u, client, x, result, u.approvals[id].actionId);
      FinishKeepsApprovals(u, client, x, result);
    }
  }

  lemma AnsweredStep(u: World, client: nat, result: AdapterResult)
    requires client in u.tasks && u.tasks[client].Running?
    ensures Step(u, AdapterReturned(u.now, client, result)) == Finish(u, client, u.tasks[client].x, result)
  {
    assert u.(now := u.now) == u;
  }

  lemma FinishKeepsApprovals(u: World, client: nat, x: Execution, result: AdapterResult)
    ensures Finish(u, client, x, result).approvals == u.approvals
  {
  }

  /** Resubmission can be spoilt by a waiting execution exactly when one of that action waits. */
  lemma ResubmitSpoiltExactlyInFlight(w: World, caller: string, id: Id)
    requires Wf(w) && id in w.approvals
    ensures var u := Step(w, ResubmitApproval(w.now, caller, id));
            (exists client, result :: Spoils(u, id, client, result)) <==> InFlight(w.tasks, w.approvals[id].actionId)
  {
    var u := Step(w, ResubmitApproval(w.now, caller, id));
    ReopenedWaits(w, caller, id);
    StepKeepsWf(w, ResubmitApproval(w.now, caller, id));
    SpoiltExactlyInFlight(u, id);
  }

  lemma SpoiltExactlyInFlight(u: World, id: Id)
    requires Wf(u) && id in u.approvals && u.approvals[id].review == Open
    requires u.actions[u.approvals[id].actionId].state == NeedsApproval
    ensures (exists client, result :: Spoils(u, id, client, result)) <==> InFlight(u.tasks, u.approvals[id].actionId)
  {
    if InFlight(u.tasks, u.approvals[id].actionId) {
      var client :| client in u.tasks && u.tasks[client].Running?
        && u.tasks[client].x.action.id == u.approvals[id].actionId;
      ReopenedDuringExecutionBreaks(u, id, client, Succeeded);
      assert Spoils(u, id, client, Succeeded);
    }
    forall client, result | Spoils(u, id, client, result)
      ensures InFlight(u.tasks, u.approvals[id].actionId)
    {
      SpoilerIsOwn(u, id, client, result);
    }
  }
}

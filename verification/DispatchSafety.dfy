/** Acts that are never sent: votes, reactions on Reddit, and writes where the platform has no write API. */
module DispatchSafety {
  import opened Domain
  import opened Policies
  import opened Trackers
  import opened Guards
  import opened ActionModel
  import opened Structure

  /** What the capability and manipulation guards establish, and no later re-check repeats. */
  predicate Sendable(p: Platform, verb: Verb, kind: Option<string>) {
    && (verb == React ==> BaselinePolicy(p).reactAllowed && !IsVote(kind))
    && (verb == Comment ==> BaselinePolicy(p).publishMode == Api)
  }

  /** A call of an adapter's write method that the policy tables permit. */
  predicate Proper(d: Dispatch) {
    && BaselinePolicy(d.platform).publishMode == Api
    && (d.verb == React ==> d.platform != Reddit && !IsVote(Some(d.kind)))
  }

  lemma NotDeniedIsSendable(c: GuardContext, t: TrackerState)
    requires EvaluateAll(c, t).outcome != Deny && c.policy == Resolve(c.account.platform, c.account.overrides)
    ensures Sendable(c.account.platform, c.verb, c.reactKind)
  {
    NotDenied(c, t, Capability);
    NotDenied(c, t, Manipulation);
    OverridesKeepTheSendingRules(c.account.platform, c.account.overrides);
  }

  /** The kind handed to `react` is the requested one, or the harmless default. */
  lemma SendableIsProper(w: World, x: Execution)
    requires Sendable(x.account.platform, x.action.verb, x.kind) && TransportOf(x) == Live
    ensures Proper(DispatchOf(w, x))
  {
    OverridesKeepTheSendingRules(x.account.platform, x.account.overrides);
    assert Lower("like") == "like";
  }

  predicate ItemSendable(w: World, id: Id) {
    && id in w.approvals
    && w.approvals[id].actionId in w.actions && w.actions[w.approvals[id].actionId].accountId in w.accounts
    && var a := w.actions[w.approvals[id].actionId];
       Sendable(w.accounts[a.accountId].platform, a.verb, a.reactKind)
  }

  ghost predicate SendInv(w: World) {
    && (forall id :: id in w.approvals ==> ItemSendable(w, id))
    && (forall i :: 0 <= i < |w.seen.sent| ==> Proper(w.seen.sent[i]))
  }

  // ---- approvals keep carrying vetted acts ----

  lemma VettedIsSendable(w: World, a: Action)
    requires Vetted(w, a)
    ensures a.accountId in w.accounts && Sendable(w.accounts[a.accountId].platform, a.verb, a.reactKind)
  {
    var c: GuardContext :| c.account.id == a.accountId && KnownAccount(w, c.account) && c.verb == a.verb
      && c.reactKind == a.reactKind && c.policy == Resolve(c.account.platform, c.account.overrides)
      && EvaluateAll(c, w.trackers).outcome != Deny;
    NotDeniedIsSendable(c, w.trackers);
  }

  /** A newly queued item carries the act that this very block's guards routed. */
  lemma NewItemIsSendable(w: World, b: Block, t: World, item: Approval, a: Action, draft: Option<ContentDraft>)
    requires EndingOk(w, b) && Bookkeeping(w, b.world) && ItemMove(w, b, item, a, draft) && KeepsActs(b.world, t)
    requires b.ending.Settling? ==> b.ending.a.id in t.actions && SameAct(b.ending.a, t.actions[b.ending.a.id])
    requires item.id !in w.approvals
    ensures ItemSendable(t, item.id)
  {
    VettedIsSendable(w, a);
  }

  lemma KnownItemStaysSendable(w: World, b: Block, t: World, id: Id)
    requires ItemSendable(w, id) && Bookkeeping(w, b.world) && KeepsActs(b.world, t)
    requires id in b.world.approvals && b.world.approvals[id].actionId == w.approvals[id].actionId
    ensures ItemSendable(t, id)
  {
  }

  lemma ItemStaysSendable(w: World, b: Block, t: World, id: Id)
    requires SendInv(w) && EndingOk(w, b) && Bookkeeping(w, b.world) && ApprovalsMove(w, b) && KeepsActs(b.world, t)
    requires b.ending.Settling? ==> b.ending.a.id in t.actions && SameAct(b.ending.a, t.actions[b.ending.a.id])
    requires id in t.approvals
    ensures ItemSendable(t, id)
  {
    if b.world.approvals != w.approvals {
      var item: Approval, a: Action, draft: Option<ContentDraft> :| ItemMove(w, b, item, a, draft);
      if id == item.id && id !in w.approvals {
        NewItemIsSendable(w, b, t, item, a, draft);
        return;
      }
      assert b.world.approvals[id].actionId == w.approvals[id].actionId;
    }
    assert ItemSendable(w, id);
    KnownItemStaysSendable(w, b, t, id);
  }

  // ---- what an ending sends ----

  /** Only an execution on a live transport sends anything, and it sends exactly its own arguments. */
  lemma SentByClose(w: World, b: Block)
    requires Prepared(w, b)
    ensures var t := Close(b);
            t.seen.sent == w.seen.sent
            || (b.ending.Launching? && TransportOf(b.ending.x) == Live
                && t.seen.sent == w.seen.sent + [DispatchOf(b.world, b.ending.x)])
  {
    match b.ending
    case Stop =>
    case Settling(_, _, _, _, _) =>
    case Launching(client, x) => SentByExecute(b.world, client, x);
    case Returning(client, x, result) => SentByFinish(w, client, x, result);
    case ReadReturning(_, _) =>
  }

  lemma SentByExecute(w: World, client: nat, x: Execution)
    ensures var t := Execute(w, client, x);
            t.seen.sent == if TransportOf(x) == Live then w.seen.sent + [DispatchOf(w, x)] else w.seen.sent
  {
  }

  lemma SentByFinish(w: World, client: nat, x: Execution, result: AdapterResult)
    ensures Finish(w, client, x, result).seen.sent == w.seen.sent
  {
  }

  lemma LaunchedIsSendable(w: World, b: Block)
    requires SendInv(w) && Prepared(w, b) && b.ending.Launching?
    ensures var x := b.ending.x; Sendable(x.account.platform, x.action.verb, x.kind)
  {
    var x := b.ending.x;
    match x.via {
      case Submitted =>
        var token: Option<string> :| EvaluateAll(ContextFor(w, x, token), w.trackers).outcome == Allow;
        NotDeniedIsSendable(ContextFor(w, x, token), w.trackers);
      case ApprovedBy(approval) =>
        assert ItemSendable(w, approval) && CopiesOk(b.world, x);
    }
  }

  lemma ItemsStaySendable(w: World, b: Block)
    requires Core(w) && SendInv(w) && Prepared(w, b) && ApprovalsMove(w, b)
    ensures forall id :: id in Close(b).approvals ==> ItemSendable(Close(b), id)
  {
    CloseKeepsActs(w, b);
    forall id | id in Close(b).approvals
      ensures ItemSendable(Close(b), id)
    {
      ItemStaysSendable(w, b, Close(b), id);
    }
  }

  lemma CloseKeeps(w: World, b: Block)
    requires Core(w) && SendInv(w) && Prepared(w, b) && ApprovalsMove(w, b)
    ensures SendInv(Close(b))
  {
    ItemsStaySendable(w, b);
    SentByClose(w, b);
    if Close(b).seen.sent != w.seen.sent {
      LaunchedIsSendable(w, b);
      SendableIsProper(b.world, b.ending.x);
    }
  }

  lemma {:induction false} RunKeeps(w: World, commands: seq<Command>)
    requires Wf(w) && SendInv(w)
    ensures SendInv(Run(w, commands))
  {
    if commands != [] {
      var earlier, c := commands[..|commands| - 1], commands[|commands| - 1];
      RunKeeps(w, earlier);
      RunKeepsWf(w, earlier);
      var r := Run(w, earlier);
      if Enabled(r, c) {
        var v := r.(now := c.now);
        NowKeepsWf(r, c.now);
        assert SendInv(v) by {
          forall id | id in v.approvals
            ensures ItemSendable(v, id)
          {
            assert ItemSendable(r, id);
          }
        }
        BlockPrepared(v, c);
        ApprovalsMoved(v, c);
        CloseKeeps(v, Perform(v, c));
      }
    }
  }

  /**
   * In every run, approvals and resubmissions included: no adapter `react` call carries a vote or a Reddit
   * account, and no adapter write method is called for a platform without a write API.
   */
  lemma OnlyProperActsAreSent(config: Config, start: Time, commands: seq<Command>, w: World, i: nat)
    requires w == Run(Initial(config, start), commands) && i < |w.seen.sent|
    ensures Proper(w.seen.sent[i])
  {
    InitialWf(config, start);
    RunKeeps(Initial(config, start), commands);
  }
}

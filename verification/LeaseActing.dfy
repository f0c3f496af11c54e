/** Leases and acting, joined: who may launch a write on an account, and by which copy of its lease. */
module LeaseActing {
  import opened Domain
  import opened Trackers
  import opened Guards
  import opened ActionModel
  import opened Lifecycle
  import opened Interleaving
  import opened LifecycleRefinement
  import opened OwnLeases

  lemma UndeniedIsLeased(c: GuardContext, t: TrackerState)
    requires EvaluateAll(c, t).outcome != Deny && IsWrite(c.verb)
    ensures c.lockToken.Some? && Leased(c.account, c.caller, c.lockToken.value, c.now)
  {
    NotDenied(c, t, Lock);
  }

  /** The block goes on to execute or to queue its write. */
  predicate Proceeds(e: Ending) {
    e.Launching? || (e.Settling? && e.outcome == Route)
  }

  lemma SubmissionIsLeased(w: World, client: nat, r: Request, target: Option<TargetRef>, actionId: Id, approvalId: Id)
    requires IsWrite(r.verb) && Proceeds(SubmitWrite(w, client, r, target, actionId, approvalId).ending)
    ensures r.lockToken.Some? && Leased(r.account, r.caller, r.lockToken.value, w.now)
  {
    UndeniedIsLeased(ContextOf(w, r, target), w.trackers);
  }

  /** A publish proceeds only while the stored row itself carries its caller's lease and token. */
  lemma PublishIsLeased(w: World, c: Command)
    requires ActionModel.Enabled(w, c) && c.SubmitPublish? && Proceeds(BlockOf(w, c).ending)
    ensures c.accountId in w.accounts && Leased(w.accounts[c.accountId], c.caller, c.lockToken, c.now)
  {
    var v := w.(now := c.now);
    var r := PublishRequest(w, c);
    SubmissionIsLeased(v, c.client, r, None, c.actionId, c.approvalId);
  }

  /** A comment or reaction proceeds by the lease its snapshot carries, which has not expired since. */
  lemma TargetedIsLeased(w: World, c: Command)
    requires ActionModel.Enabled(w, c) && c.TargetResolved? && IsWrite(w.tasks[c.client].request.verb)
    requires Proceeds(BlockOf(w, c).ending)
    ensures var r := w.tasks[c.client].request;
            r.lockToken.Some? && Leased(r.account, r.caller, r.lockToken.value, c.now)
  {
    var v := w.(now := c.now, tasks := w.tasks - {c.client});
    SubmissionIsLeased(v, c.client, w.tasks[c.client].request, Some(c.target), c.actionId, c.approvalId);
  }

  // ---- the account table under the lock and lifecycle services ----

  /** The acting service reads the accounts that the store holds, at the same instant. */
  ghost predicate Shows(w: World, s: System) {
    && w.now == s.now
    && w.accounts.Keys == s.table.Keys
    && forall id :: id in s.table ==> w.accounts[id] == s.table[id].data
  }

  /**
   * A comment or reaction that read its account where the store was `s` proceeds where it is `Run(s, events)` by
   * the snapshot's lease. The stored row is still leased to the caller under its token if and only if the caller's
   * last lock operation in between is none, or a refresh of that token that has not run out.
   */
  lemma TargetedIsLeasedInStore(w: World, c: Command, s: System, events: seq<Event>)
    requires ActionModel.Enabled(w, c) && c.TargetResolved? && IsWrite(w.tasks[c.client].request.verb)
    requires Proceeds(BlockOf(w, c).ending)
    requires Inv(s) && Shows(w.(now := c.now), Interleaving.Run(s, events))
    requires var r := w.tasks[c.client].request; r.account.id in s.table && s.table[r.account.id].data == r.account
    ensures var r := w.tasks[c.client].request;
            var last := OwnSince(s, events, r.account.id, r.caller);
            && r.account.id in w.accounts && r.lockToken.Some?
            && (Leased(w.accounts[r.account.id], r.caller, r.lockToken.value, c.now)
                <==> last.None? || (last.value.Wrote? && last.value.op.Refresh?
                                    && last.value.op.token == r.lockToken.value
                                    && c.now < last.value.at + last.value.op.ttl))
  {
    var r, t := w.tasks[c.client].request, Interleaving.Run(s, events);
    TargetedIsLeased(w, c);
    RecordDecides(s, events, r.account.id, r.account.lock.value);
    assert w.accounts[r.account.id] == t.table[r.account.id].data;
  }

  // ---- publishing, over time ----

  /**
   * As long as the agent of one publish still holds the account by its own record, every publish that proceeds is
   * its own; and as long as it holds it under the same token, it comes with that token.
   */
  lemma OnePublisherAtATime(w: World, c: Command, s: System, u: World, d: Command, events: seq<Event>)
    requires ActionModel.Enabled(w, c) && c.SubmitPublish? && Proceeds(BlockOf(w, c).ending)
    requires ActionModel.Enabled(u, d) && d.SubmitPublish? && Proceeds(BlockOf(u, d).ending)
    requires c.accountId == d.accountId
    requires Inv(s) && Shows(w.(now := c.now), s) && Shows(u.(now := d.now), Interleaving.Run(s, events))
    ensures c.accountId in s.table && s.table[c.accountId].data.lock.Some?
    ensures var lease, last := s.table[c.accountId].data.lock.value, OwnSince(s, events, c.accountId, c.caller);
            && (StillHolds(lease, last, d.now) ==> d.caller == c.caller)
            && (StillLeased(lease, last, d.now) ==> d.caller == c.caller && d.lockToken == c.lockToken)
  {
    PublishIsLeased(w, c);
    PublishIsLeased(u, d);
    assert w.accounts[c.accountId] == s.table[c.accountId].data;
    RecordDecides(s, events, c.accountId, s.table[c.accountId].data.lock.value);
  }

  /** A checkout of the account by this agent, begun and finished at this instant. */
  function TakenOver(t: System, client: nat, id: Id, agent: string, token: string, ttl: int): System {
    Interleaving.Run(t, LifecycleRefinement.Call(t.now, client, id, Operation.Checkout(agent, token, ttl)))
  }

  ghost predicate TakesOver(t: System, client: nat, id: Id, agent: string, token: string, ttl: int) {
    var u := TakenOver(t, client, id, agent, token, ttl);
    id in u.table && Leased(u.table[id].data, agent, token, t.now)
  }

  lemma TakeoverNeedsPermission(t: System, client: nat, id: Id, agent: string, token: string, ttl: int)
    requires Inv(t) && id in t.table && client !in t.clients && token !in t.tokens && ttl > 0
    ensures TakesOver(t, client, id, agent, token, ttl)
       <==> Permitted(Operation.Checkout(agent, token, ttl), t.table[id].data, t.now)
  {
    var op := Operation.Checkout(agent, token, ttl);
    CallIsTwoSteps(t, t.now, client, id, op);
    if Permitted(op, t.table[id].data, t.now) {
      PermittedCall(t, t.now, client, id, op);
    } else {
      UnpermittedCall(t, t.now, client, id, op);
      assert TokenOf(t.table[id].data) != Some(token);
    }
  }

  lemma SomebodyElse(agent: string) returns (other: string)
    ensures other != agent
  {
    other := agent + "'";
    assert |other| != |agent|;
  }

  /**
   * Nothing keeps the lease while an execution waits for its adapter. Another agent can take the account over, and
   * so act on it beside a waiting execution, if and only if the first agent's own record leaves it no lease: it
   * checked in, or let its lease run out.
   */
  lemma TakeoverExactlyWhenNotHeld(s: System, events: seq<Event>, id: Id, lease: LockLease, client: nat, token: string,
                                   ttl: int)
    requires Inv(s) && id in s.table && s.table[id].data.lock == Some(lease)
    requires var t := Interleaving.Run(s, events); client !in t.clients && token !in t.tokens && ttl > 0
    ensures var t := Interleaving.Run(s, events);
            (exists agent :: agent != lease.holder && TakesOver(t, client, id, agent, token, ttl))
            <==> !StillHolds(lease, OwnSince(s, events, id, lease.holder), t.now)
  {
    var t := Interleaving.Run(s, events);
    RunKeepsInv(s, events);
    RecordDecides(s, events, id, lease);
    var lock := t.table[id].data.lock;
    forall agent
      ensures TakesOver(t, client, id, agent, token, ttl)
         <==> Permitted(Operation.Checkout(agent, token, ttl), t.table[id].data, t.now)
    {
      TakeoverNeedsPermission(t, client, id, agent, token, ttl);
    }
    if !Holds(t.table[id].data, lease.holder, t.now) {
      var other := SomebodyElse(lease.holder);
      var taker := if lock.Some? && lock.value.IsActive(t.now) then lock.value.holder else other;
      assert TakesOver(t, client, id, taker, token, ttl);
    }
  }

  // ---- approved writes ----

  function Relocked(w: World, id: Id, lock: Option<LockLease>): World
    requires id in w.accounts
  {
    w.(accounts := w.accounts[id := w.accounts[id].(lock := lock)])
  }

  /** An approval never looks at the lock: whatever the stored lease is, it ends the same way for the same action. */
  lemma ApprovalNeedsNoLease(w: World, c: Command, id: Id, lock: Option<LockLease>)
    requires ActionModel.Enabled(w, c) && c.DecideApproval? && id in w.accounts
    ensures ActionModel.Enabled(Relocked(w, id, lock), c)
    ensures var e, f := BlockOf(w, c).ending, BlockOf(Relocked(w, id, lock), c).ending;
            && (e.Launching? <==> f.Launching?)
            && (e.Launching? ==> f.x.(account := e.x.account) == e.x && f.client == e.client)
            && (e.Settling? ==> f == e)
  {
  }
}

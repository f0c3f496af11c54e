/** Every adapter call of every run, field by field: what it carries, and what allowed it. */
module SentActs {
  import opened Domain
  import opened ActionModel
  import opened Structure
  import opened DispatchSafety
  import opened Admission
  import opened Decisions
  import opened Effects

  /**
   * The account was active and the owner's consent covered the verb. A submitted act was also made by the holder of an
   * unexpired lease, within what platform and adapter can do, with the required self-identification, on a container
   * that is not blocked, and with nobody's approval outstanding.
   */
  predicate Admissible(config: Config, d: Dispatch) {
    && d.platform == d.account.platform
    && d.account.status == Active && Consented(d.account.authorization, d.verb)
    && (d.via == Submitted ==>
          && d.account.lock.Some? && d.at < d.account.lock.value.expiresAt && d.account.lock.value.holder == d.actor
          && Capable(d.platform, config.capabilities(d.platform), d.verb)
          && Identified(d.account)
          && (d.platform == Reddit && d.target.Some? && Given(d.target.value.container) ==>
                d.target.value.container.value !in config.blockedContainers)
          && !d.account.overrides.approveAllWrites
          && (d.verb == Publish || (d.target.Some? && d.target.value.isOwned) || !d.account.requiresApproval))
  }

  /** The call is, field by field, the act on file. */
  predicate Carries(d: Dispatch, a: Action) {
    && d.verb == a.verb && d.key == a.key && d.target == a.target && d.account.id == a.accountId
    && a.draftId == (if d.draft.Some? then Some(d.draft.value.id) else None)
    && d.kind == (if a.reactKind.None? || a.reactKind.value == "" then "like" else a.reactKind.value)
    && (d.via == Submitted ==> d.actor == a.requestedBy)
  }

  /** What a request that nothing speaks against has to show for itself. */
  lemma UnrefusedByFields(w: World, r: Request, target: Option<TargetRef>)
    requires Refusal(w, r, target).None? && Acts(r.verb)
    ensures r.account.status == Active && Consented(r.account.authorization, r.verb)
    ensures var lock := r.account.lock; lock.Some? && w.now < lock.value.expiresAt && lock.value.holder == r.caller
    ensures Capable(r.account.platform, w.config.capabilities(r.account.platform), r.verb) && Identified(r.account)
    ensures r.account.platform == Reddit && target.Some? && Given(target.value.container) ==>
              target.value.container.value !in w.config.blockedContainers
  {
    var objections := Objections(w, r, target);
    NoneOf(objections, 0);
    NoneOf(objections, 1);
    NoneOf(objections, 2);
    NoneOf(objections, 3);
    NoneOf(objections, 4);
    NoneOf(objections, 7);
  }

  /** What a launched submission sends. */
  lemma SubmittedIsAdmissible(w: World, b: Block, client: nat, r: Request, target: Option<TargetRef>, actionId: Id,
                              approvalId: Id)
    requires Answered(w, b, client, r, target, actionId, approvalId) && b.ending.Launching? && Acts(r.verb)
    ensures Admissible(w.config, Sending(b.world, b.ending.x))
    ensures Carries(Sending(b.world, b.ending.x), b.ending.x.action)
  {
    UnrefusedByFields(w, r, target);
  }

  /** What a launched approval sends. */
  lemma ApprovedIsAdmissible(w: World, c: Command)
    requires Wf(w) && Enabled(w, c) && c.DecideApproval? && BlockOf(w, c).ending.Launching?
    ensures var b := BlockOf(w, c);
            && Admissible(w.config, Sending(b.world, b.ending.x))
            && Carries(Sending(b.world, b.ending.x), b.ending.x.action)
  {
    DecisionByFields(w, c);
  }

  lemma LaunchIsAdmissible(w: World, c: Command)
    requires Wf(w) && Enabled(w, c) && BlockOf(w, c).ending.Launching?
    ensures var b := BlockOf(w, c);
            && Admissible(w.config, Sending(b.world, b.ending.x))
            && Carries(Sending(b.world, b.ending.x), b.ending.x.action)
  {
    var v, b := w.(now := c.now), BlockOf(w, c);
    match c
    case SubmitPublish(_, client, caller, accountId, lockToken, draftId, key, actionId, approvalId) =>
      PublishByFields(w, c);
      SubmittedIsAdmissible(v, b, client, PublishRequest(w, c), None, actionId, approvalId);
    case TargetResolved(_, client, target, actionId, approvalId) =>
      ResolvedByFields(w, c);
      SubmittedIsAdmissible(v.(tasks := w.tasks - {client}), b, client, w.tasks[client].request, Some(target), actionId,
                            approvalId);
    case DecideApproval(_, _, _, _, _, _) => ApprovedIsAdmissible(w, c);
    case _ =>
  }

  ghost predicate SentInv(w: World) {
    forall i :: 0 <= i < |w.seen.sent| ==>
      var d := w.seen.sent[i];
      Admissible(w.config, d) && d.actionId in w.actions && Carries(d, w.actions[d.actionId])
  }

  lemma SentKept(w: World, t: World)
    requires SentInv(w) && t.seen.sent == w.seen.sent && t.config == w.config
    requires forall id :: id in w.actions ==> id in t.actions && SameAct(w.actions[id], t.actions[id])
    ensures SentInv(t)
  {
    forall i | 0 <= i < |t.seen.sent|
      ensures Carries(t.seen.sent[i], t.actions[t.seen.sent[i].actionId])
    {
      assert Carries(w.seen.sent[i], w.actions[w.seen.sent[i].actionId]);
      assert SameAct(w.actions[w.seen.sent[i].actionId], t.actions[w.seen.sent[i].actionId]);
    }
  }

  lemma SentGrows(w: World, t: World, d: Dispatch)
    requires SentInv(w) && t.config == w.config && t.seen.sent == w.seen.sent + [d]
    requires forall id :: id in w.actions ==> id in t.actions && SameAct(w.actions[id], t.actions[id])
    requires Admissible(w.config, d) && d.actionId in t.actions && Carries(d, t.actions[d.actionId])
    ensures SentInv(t)
  {
    var earlier := t.(seen := t.seen.(sent := w.seen.sent));
    SentKept(w, earlier);
    forall i | 0 <= i < |t.seen.sent|
      ensures Admissible(w.config, t.seen.sent[i])
      ensures t.seen.sent[i].actionId in t.actions && Carries(t.seen.sent[i], t.actions[t.seen.sent[i].actionId])
    {
      if i < |w.seen.sent| {
        assert t.seen.sent[i] == earlier.seen.sent[i];
      }
    }
  }

  /** A launch sends one call, for the act it stores, or none. */
  lemma LaunchSends(w: World, client: nat, x: Execution)
    requires Acts(x.action.verb)
    ensures var t := Close(Block(w, Launching(client, x)));
            || t.seen.sent == w.seen.sent
            || (t.seen.sent == w.seen.sent + [Sending(w, x)]
                && x.action.id in t.actions && SameAct(x.action, t.actions[x.action.id]))
  {
    LaunchByFields(w, client, x);
  }

  lemma LaunchKeepsSent(w: World, b: Block, client: nat, x: Execution)
    requires Core(w) && SentInv(w) && Prepared(w, b) && b.ending == Launching(client, x)
    requires Admissible(w.config, Sending(b.world, x)) && Carries(Sending(b.world, x), x.action)
    ensures SentInv(Close(b))
  {
    LaunchSends(b.world, client, x);
    CloseKeepsActs(w, b);
    if Close(b).seen.sent == w.seen.sent {
      SentKept(w, Close(b));
    } else {
      SentGrows(w, Close(b), Sending(b.world, x));
    }
  }

  lemma CloseKeepsSent(w: World, b: Block)
    requires Core(w) && SentInv(w) && Prepared(w, b)
    requires b.ending.Launching? ==>
      var d := Sending(b.world, b.ending.x); Admissible(w.config, d) && Carries(d, b.ending.x.action)
    ensures SentInv(Close(b)) && Close(b).config == w.config
  {
    CloseKeepsActs(w, b);
    if b.ending.Launching? {
      LaunchKeepsSent(w, b, b.ending.client, b.ending.x);
    } else {
      SentByClose(w, b);
      SentKept(w, Close(b));
    }
  }

  lemma StepKeepsSent(w: World, c: Command)
    requires Wf(w) && SentInv(w)
    ensures SentInv(Step(w, c)) && Step(w, c).config == w.config
  {
    if Enabled(w, c) {
      var v, b := w.(now := c.now), BlockOf(w, c);
      NowKeepsWf(w, c.now);
      BlockPrepared(v, c);
      if b.ending.Launching? {
        LaunchIsAdmissible(w, c);
      }
      CloseKeepsSent(v, b);
    }
  }

  lemma {:induction false} RunKeepsSent(w: World, commands: seq<Command>)
    requires Wf(w) && SentInv(w)
    ensures SentInv(Run(w, commands)) && Run(w, commands).config == w.config
  {
    if commands != [] {
      var earlier, c := commands[..|commands| - 1], commands[|commands| - 1];
      RunKeepsSent(w, earlier);
      RunKeepsWf(w, earlier);
      StepKeepsSent(Run(w, earlier), c);
    }
  }

  /** In every run, every adapter call was allowed and carries, field by field, the act that is on file under its id. */
  lemma SentActsAreAdmissible(config: Config, start: Time, commands: seq<Command>, w: World, i: nat)
    requires w == Run(Initial(config, start), commands) && i < |w.seen.sent|
    ensures var d := w.seen.sent[i];
            Admissible(config, d) && d.actionId in w.actions && Carries(d, w.actions[d.actionId])
  {
    InitialWf(config, start);
    RunKeepsSent(Initial(config, start), commands);
  }
}

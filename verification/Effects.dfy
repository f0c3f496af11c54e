/** What launches, answers and record commands do to the world, field by field. */
module Effects {
  import opened Domain
  import opened Ids
  import opened Policies
  import opened Trackers
  import opened ActionModel
  import opened Admission

  /** An execution that calls the adapter; the other publishes are staged for a human to post. */
  predicate GoesLive(verb: Verb, p: Platform) {
    verb == Comment || verb == React || (verb == Publish && p in {Reddit, Mastodon, Bluesky, Twitter})
  }

  lemma LiveByPlatform(x: Execution)
    ensures TransportOf(x)
         == if GoesLive(x.action.verb, x.account.platform) then Live else if Acts(x.action.verb) then Staged
            else Unsupported
  {
    OverridesKeepTheSendingRules(x.account.platform, x.account.overrides);
  }

  /** One action is stored in this state, one event says why, and nothing else happens. */
  ghost predicate Settles(w: World, t: World, a: Action, s: ActionState, actor: string, outcome: Outcome,
                          code: Option<DenialCode>) {
    t == w.(actions := w.actions[a.id := a.(state := s)],
            audit := w.audit + [AuditEvent(actor, VerbName(a.verb), outcome, a.accountId, Some(a.id), code)])
  }

  predicate Draws(x: Execution) {
    x.draft.Some? && (x.action.verb == Publish || x.action.verb == Comment)
  }

  predicate Lands(x: Execution) {
    x.target.Some? && (x.action.verb == Comment || x.action.verb == React)
  }

  /**
   * What a success reports: one hit on the rate of its account and verb, one on its target if it has one,
   * and one post, promotional or not, if it posts a draft.
   */
  ghost predicate Reports(config: Config, t: TrackerState, after: TrackerState, x: Execution, now: Time) {
    && (forall key :: after.rate.Of(key)
          == t.rate.Of(key) + if key == RateKey(x.account.id, x.action.verb) then [Hit("", now)] else [])
    && (forall key :: after.coordination.Of(key)
          == t.coordination.Of(key) + if Lands(x) && key == TargetKey(x.account.platform, x.target.value)
                                      then [Hit(x.account.id, now)] else [])
    && (forall id :: after.PromoOf(id)
          == if !Draws(x) || id != x.account.id then t.PromoOf(id)
             else if config.isPromotional(x.draft.value, x.account)
             then PromoCounts(t.PromoOf(id).promo + 1, t.PromoOf(id).nonPromo)
             else PromoCounts(t.PromoOf(id).promo, t.PromoOf(id).nonPromo + 1))
  }

  lemma TrackByFields(config: Config, t: TrackerState, x: Execution, now: Time)
    ensures Reports(config, t, Track(config, t, x, now), x, now)
  {
  }

  /** A success: reported, logged with what it reported, and settled as done. */
  ghost predicate Succeeds(w: World, t: World, x: Execution) {
    && Reports(w.config, w.trackers, t.trackers, x, w.now)
    && t.seen == w.seen.(executed := w.seen.executed + [Executed(
         x.account.id, x.action.verb, w.now, x.via,
         if Lands(x) then Some(TargetKey(x.account.platform, x.target.value)) else None,
         Lands(x) && x.via == Submitted && !x.target.value.isOwned,
         if Draws(x) then Some(w.config.isPromotional(x.draft.value, x.account)) else None)])
    && Settles(w.(trackers := t.trackers, seen := t.seen), t, x.action, Done, x.actor, Allow, None)
  }

  lemma SucceedByFields(w: World, x: Execution)
    ensures Succeeds(w, Succeed(w, x), x)
  {
    TrackByFields(w.config, w.trackers, x, w.now);
  }

  /** The call an adapter gets. */
  function Sending(w: World, x: Execution): Dispatch {
    Dispatch(
      x.action.verb, x.account.platform, x.action.id, x.action.key, x.draft, x.target,
      if x.kind.None? || x.kind.value == "" then "like" else x.kind.value, x.via,
      if x.via.ApprovedBy? && x.via.approval in w.seen.pins then Some(w.seen.pins[x.via.approval]) else None,
      x.account, x.actor, w.now)
  }

  /** A launched write is stored as executing and sent, or staged and done at once. */
  ghost predicate Launches(w: World, t: World, client: nat, x: Execution) {
    if GoesLive(x.action.verb, x.account.platform)
    then
      var y := x.(action := x.action.(state := Executing));
      t == w.(actions := w.actions[x.action.id := y.action], tasks := w.tasks[client := Running(y)],
              seen := w.seen.(sent := w.seen.sent + [Sending(w, x)]))
    else Succeeds(w, t, x)
  }

  /** Being stored as executing just before makes no difference to how a success looks. */
  lemma StagedByFields(w: World, x: Execution, t: World)
    requires var y := x.(action := x.action.(state := Executing)); Succeeds(WithAction(w, y.action), t, y)
    ensures Succeeds(w, t, x)
  {
    var y := x.(action := x.action.(state := Executing));
    assert Reports(w.config, w.trackers, t.trackers, x, w.now);
    assert w.actions[x.action.id := y.action][x.action.id := x.action.(state := Done)]
        == w.actions[x.action.id := x.action.(state := Done)];
  }

  lemma LaunchByFields(w: World, client: nat, x: Execution)
    requires Acts(x.action.verb)
    ensures Launches(w, Close(Block(w, Launching(client, x))), client, x)
  {
    var y := x.(action := x.action.(state := Executing));
    LiveByPlatform(y);
    if !GoesLive(x.action.verb, x.account.platform) {
      SucceedByFields(WithAction(w, y.action), y);
      StagedByFields(w, x, Succeed(WithAction(w, y.action), y));
    }
  }

  lemma SettlingByFields(w: World, a: Action, s: ActionState, actor: string, outcome: Outcome, code: Option<DenialCode>)
    ensures Settles(w, Close(Block(w, Settling(a, s, actor, outcome, code))), a, s, actor, outcome, code)
  {
  }

  /** The five answers of an adapter: only a success is reported, and only an escaped exception records nothing. */
  lemma AdapterReturnByFields(w: World, c: Command)
    requires Enabled(w, c) && c.AdapterReturned?
    ensures var x, t := w.tasks[c.client].x, Step(w, c);
            var v := w.(now := c.now, tasks := w.tasks - {c.client});
            match c.result
            case Succeeded => Succeeds(v, t, x)
            case Rejected => Settles(v, t, x.action, Failed, x.actor, Deny, None)
            case RaisedInvalid => Settles(v, t, x.action, Failed, x.actor, Deny, Some(ContentInvalid))
            case RaisedUnsupported => Settles(v, t, x.action, Failed, x.actor, Deny, Some(CapabilityUnsupported))
            case RaisedOther => t == v.(seen := v.seen.(crashed := v.seen.crashed + {x.action.id}))
  {
    SucceedByFields(w.(now := c.now, tasks := w.tasks - {c.client}), w.tasks[c.client].x);
  }

  /** A read that returns is stored for the first time; it counts against its rate and nothing else. */
  lemma ReadReturnByFields(w: World, c: Command)
    requires Enabled(w, c) && c.ReadReturned?
    ensures var x, t := w.tasks[c.client].x, Step(w, c);
            var v := w.(now := c.now, tasks := w.tasks - {c.client});
            if !c.ok then t == v
            else
              && (forall key :: t.trackers.rate.Of(key)
                    == w.trackers.rate.Of(key)
                       + if key == RateKey(x.account.id, x.action.verb) then [Hit("", c.now)] else [])
              && t.trackers == w.trackers.(rate := t.trackers.rate)
              && t.seen == w.seen.(executed := w.seen.executed +
                   [Executed(x.account.id, x.action.verb, c.now, Submitted, None, false, None)])
              && Settles(v.(trackers := t.trackers, seen := t.seen), t, x.action, Done, x.actor, Allow, None)
  {
  }

  /** The record commands. An edit sets what it is given, keeps the rest, and is a new revision in any case. */
  lemma RecordsByFields(w: World, c: Command)
    requires Enabled(w, c)
    ensures var t, v := Step(w, c), w.(now := c.now);
            match c
            case SaveAccount(_, account, audited) =>
              var events := if audited.None? then [] else
                [AuditEvent("", audited.value, Allow, account.id, None, None)];
              t == v.(accounts := w.accounts[account.id := account], audit := w.audit + events)
            case CreateDraft(_, draft) => if draft.accountId in w.accounts then Stores(v, t, draft) else t == v
            case UpdateDraft(now, draftId, body, title, media, disclosure) =>
              if draftId !in w.drafts then t == v
              else
                var d := w.drafts[draftId];
                Stores(v, t, ContentDraft(d.id, d.accountId, if body.Some? then body.value else d.body,
                                          if title.Some? then title else d.title,
                                          if media.Some? then media.value else d.media,
                                          if disclosure.Some? then disclosure else d.disclosure,
                                          d.revision + 1, now))
            case TargetFailed(_, client) => t == v.(tasks := w.tasks - {client})
            case _ => true
  {
  }

  ghost predicate Stores(w: World, t: World, d: ContentDraft) {
    t == w.(drafts := w.drafts[d.id := d], used := w.used + {d.id},
            seen := w.seen.(contents := w.seen.contents[(d.id, d.revision) := d]))
  }
}

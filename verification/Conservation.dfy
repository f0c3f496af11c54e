/**
 * Trackers and audit log are conserved: every tracker, and the ALLOW events, are projections of one log of
 * successful executions, whatever interleaving produced them.
 */
module Conservation {
  import opened Domain
  import opened Ids
  import opened Trackers
  import opened ActionModel
  import opened Structure

  // ---- projections of the execution log ----

  /** The executions of one account and verb, as the rate limiter remembers them. */
  function RateLogOf(log: seq<Executed>, a: Id, v: ActionType): Log {
    if log == [] then []
    else
      var e := log[|log| - 1];
      RateLogOf(log[..|log| - 1], a, v) + if e.account == a && e.verb == v then [Hit("", e.at)] else []
  }

  /** The executions on one target, as the coordination tracker remembers them. */
  function HitLogOf(log: seq<Executed>, key: string): Log {
    if log == [] then []
    else
      var e := log[|log| - 1];
      HitLogOf(log[..|log| - 1], key) + if e.hit == Some(key) then [Hit(e.account, e.at)] else []
  }

  function PromoCountsOf(log: seq<Executed>, a: Id): PromoCounts {
    if log == [] then PromoCounts(0, 0)
    else
      var e, earlier := log[|log| - 1], PromoCountsOf(log[..|log| - 1], a);
      if e.account == a && e.promo.Some? then earlier.Add(e.promo.value) else earlier
  }

  function ByAccount(log: Log, a: Id): nat {
    if log == [] then 0 else ByAccount(log[..|log| - 1], a) + if log[|log| - 1].who == a then 1 else 0
  }

  /** The hits of one account over all targets. */
  ghost function HitTotal(logs: map<string, Log>, a: Id): nat
    decreases |logs|
  {
    if logs == map[] then 0
    else
      var key :| key in logs;
      ByAccount(logs[key], a) + HitTotal(logs - {key}, a)
  }

  lemma {:induction false} HitTotalSplits(logs: map<string, Log>, key: string, a: Id)
    requires key in logs
    ensures HitTotal(logs, a) == ByAccount(logs[key], a) + HitTotal(logs - {key}, a)
    decreases |logs|
  {
    var first :| first in logs && HitTotal(logs, a) == ByAccount(logs[first], a) + HitTotal(logs - {first}, a);
    if first != key {
      HitTotalSplits(logs - {first}, key, a);
      HitTotalSplits(logs - {key}, first, a);
      assert logs - {first} - {key} == logs - {key} - {first};
    }
  }

  lemma HitTotalAdd(h: Histories, key: string, hit: Hit, a: Id)
    ensures HitTotal(h.Add(key, hit).logs, a) == HitTotal(h.logs, a) + if hit.who == a then 1 else 0
  {
    var logs := h.Add(key, hit).logs;
    HitTotalSplits(logs, key, a);
    assert (h.Of(key) + [hit])[..|h.Of(key)|] == h.Of(key);
    if key in h.logs {
      HitTotalSplits(h.logs, key, a);
      assert logs - {key} == h.logs - {key};
    } else {
      assert logs - {key} == h.logs;
    }
  }

  /** ALLOW events of one account and verb. */
  function Allows(audit: seq<AuditEvent>, a: Id, v: ActionType): nat {
    if audit == [] then 0
    else
      var e := audit[|audit| - 1];
      Allows(audit[..|audit| - 1], a, v)
      + if e.outcome == Allow && e.accountId == a && e.verb == VerbName(v) then 1 else 0
  }

  /** What a success of each verb reports. */
  predicate Reports(e: Executed) {
    && (e.promo.Some? <==> e.verb == Publish || e.verb == Comment)
    && (e.hit.Some? <==> e.verb == Comment || e.verb == React)
  }

  ghost predicate TrackersMatch(t: TrackerState, log: seq<Executed>) {
    && (forall a, v :: t.rate.Of(RateKey(a, v)) == RateLogOf(log, a, v))
    && (forall key :: t.coordination.Of(key) == HitLogOf(log, key))
    && (forall a :: t.PromoOf(a) == PromoCountsOf(log, a))
    && (forall a :: HitTotal(t.coordination.logs, a) == |RateLogOf(log, a, Comment)| + |RateLogOf(log, a, React)|)
  }

  ghost predicate AuditMatches(audit: seq<AuditEvent>, log: seq<Executed>) {
    forall a, v :: Allows(audit, a, v) == |RateLogOf(log, a, v)|
  }

  ghost predicate ConservationInv(w: World) {
    && TrackersMatch(w.trackers, w.seen.executed)
    && AuditMatches(w.audit, w.seen.executed)
    && forall i :: 0 <= i < |w.seen.executed| ==> Reports(w.seen.executed[i])
  }

  // ---- one more execution ----

  lemma ProjectionsOfAppend(log: seq<Executed>, e: Executed)
    ensures forall a, v :: RateLogOf(log + [e], a, v)
                        == RateLogOf(log, a, v) + if e.account == a && e.verb == v then [Hit("", e.at)] else []
    ensures forall key :: HitLogOf(log + [e], key)
                       == HitLogOf(log, key) + if e.hit == Some(key) then [Hit(e.account, e.at)] else []
    ensures forall a :: PromoCountsOf(log + [e], a)
                     == if e.account == a && e.promo.Some? then PromoCountsOf(log, a).Add(e.promo.value)
                        else PromoCountsOf(log, a)
  {
    assert (log + [e])[..|log|] == log;
  }

  lemma AllowsOfAppend(audit: seq<AuditEvent>, e: AuditEvent, a: Id, v: ActionType)
    ensures Allows(audit + [e], a, v)
         == Allows(audit, a, v) + if e.outcome == Allow && e.accountId == a && e.verb == VerbName(v) then 1 else 0
  {
    assert (audit + [e])[..|audit|] == audit;
  }

  lemma RateMatches(t: Histories, log: seq<Executed>, e: Executed)
    requires forall a, v :: t.Of(RateKey(a, v)) == RateLogOf(log, a, v)
    ensures forall a, v ::
              t.Add(RateKey(e.account, e.verb), Hit("", e.at)).Of(RateKey(a, v)) == RateLogOf(log + [e], a, v)
  {
    ProjectionsOfAppend(log, e);
    forall a, v
      ensures t.Add(RateKey(e.account, e.verb), Hit("", e.at)).Of(RateKey(a, v)) == RateLogOf(log + [e], a, v)
    {
      if RateKey(a, v) == RateKey(e.account, e.verb) {
        RateKeyInjective(a, v, e.account, e.verb);
      }
    }
  }

  /** Exactly the three updates of a success keep all trackers in step with the log. */
  lemma TrackMatches(config: Config, t: TrackerState, log: seq<Executed>, x: Execution, now: Time, e: Executed)
    requires TrackersMatch(t, log)
    requires e.account == x.account.id && e.verb == x.action.verb && e.at == now
    requires e.hit == HitKey(x) && e.promo == PromoMark(config, x)
    requires Reports(e)
    ensures TrackersMatch(Track(config, t, x, now), log + [e])
  {
    ProjectionsOfAppend(log, e);
    RateMatches(t.rate, log, e);
    if e.hit.Some? {
      forall a
        ensures HitTotal(t.coordination.Add(e.hit.value, Hit(e.account, now)).logs, a)
             == HitTotal(t.coordination.logs, a) + if e.account == a then 1 else 0
      {
        HitTotalAdd(t.coordination, e.hit.value, Hit(e.account, now), a);
      }
    }
  }

  lemma VerbNamesAreNotLifecycle(v: ActionType)
    ensures VerbName(v) !in LIFECYCLE_VERBS
  {
    assert VerbName(v)[0] != 'a' && "account_register"[0] == 'a';
  }

  // ---- steps ----

  /** A settled action that was not allowed contributes to nothing. */
  lemma SettleKeeps(w: World, a: Action, s: ActionState, actor: string, outcome: Outcome, code: Option<DenialCode>)
    requires ConservationInv(w) && outcome != Allow
    ensures ConservationInv(Settle(w, a, s, actor, outcome, code))
  {
    var t := Settle(w, a, s, actor, outcome, code);
    forall b, v
      ensures Allows(t.audit, b, v) == Allows(w.audit, b, v)
    {
      AllowsOfAppend(w.audit, t.audit[|w.audit|], b, v);
    }
  }

  lemma AllowedMatches(audit: seq<AuditEvent>, log: seq<Executed>, event: AuditEvent, e: Executed)
    requires AuditMatches(audit, log)
    requires event.outcome == Allow && event.accountId == e.account && event.verb == VerbName(e.verb)
    ensures AuditMatches(audit + [event], log + [e])
  {
    ProjectionsOfAppend(log, e);
    forall a, v
      ensures Allows(audit + [event], a, v) == |RateLogOf(log + [e], a, v)|
    {
      AllowsOfAppend(audit, event, a, v);
      if VerbName(v) == event.verb {
        VerbNamesDiffer(v, e.verb);
      }
    }
  }

  lemma SucceedKeeps(w: World, x: Execution)
    requires ConservationInv(w) && x.account.id == x.action.accountId && Reports(ExecutedBy(w, x))
    ensures ConservationInv(Succeed(w, x))
  {
    var t, e := Succeed(w, x), ExecutedBy(w, x);
    TrackMatches(w.config, w.trackers, w.seen.executed, x, w.now, e);
    AllowedMatches(w.audit, w.seen.executed, t.audit[|w.audit|], e);
  }

  /** A write that agrees with its stored act reports what its verb reports. */
  lemma WritesReport(w: World, x: Execution)
    requires CopiesOk(w, x) && Shaped(w, x.action) && IsWrite(x.action.verb)
    ensures Reports(ExecutedBy(w, x))
  {
  }

  lemma ExecuteKeeps(w: World, client: nat, x: Execution)
    requires ConservationInv(w) && CopiesOk(w, x) && Shaped(w, x.action) && IsWrite(x.action.verb)
    ensures ConservationInv(Execute(w, client, x))
  {
    var y := x.(action := x.action.(state := Executing));
    var u := WithAction(w, y.action);
    WritesReport(u, y);
    if TransportOf(y).Staged? {
      SucceedKeeps(u, y);
    }
  }

  lemma FinishKeeps(w: World, client: nat, x: Execution, result: AdapterResult)
    requires ConservationInv(w) && CopiesOk(w, x) && Shaped(w, x.action) && IsWrite(x.action.verb)
    ensures ConservationInv(Finish(w, client, x, result))
  {
    var u := w.(tasks := w.tasks - {client});
    WritesReport(u, x);
    match result
    case Succeeded => SucceedKeeps(u, x);
    case Rejected => SettleKeeps(u, x.action, Failed, x.actor, Deny, None);
    case RaisedInvalid => SettleKeeps(u, x.action, Failed, x.actor, Deny, Some(ContentInvalid));
    case RaisedUnsupported => SettleKeeps(u, x.action, Failed, x.actor, Deny, Some(CapabilityUnsupported));
    case RaisedOther =>
  }

  lemma ReadMatches(t: TrackerState, log: seq<Executed>, e: Executed)
    requires TrackersMatch(t, log) && e.hit.None? && e.promo.None? && (e.verb == Read || e.verb == Search)
    ensures TrackersMatch(t.(rate := t.rate.Add(RateKey(e.account, e.verb), Hit("", e.at))), log + [e])
  {
    ProjectionsOfAppend(log, e);
    RateMatches(t.rate, log, e);
  }

  lemma FinishReadKeeps(w: World, client: nat, x: Execution)
    requires ConservationInv(w) && x.account.id == x.action.accountId
    requires x.action.verb == Read || x.action.verb == Search
    ensures ConservationInv(FinishRead(w, client, x))
  {
    var t := FinishRead(w, client, x);
    var e := t.seen.executed[|w.seen.executed|];
    ReadMatches(w.trackers, w.seen.executed, e);
    AllowedMatches(w.audit, w.seen.executed, t.audit[|w.audit|], e);
  }

  lemma BookkeepingKeeps(w: World, u: World)
    requires ConservationInv(w) && Bookkeeping(w, u)
    ensures ConservationInv(u)
  {
    if u.audit != w.audit {
      var e: AuditEvent :| u.audit == w.audit + [e] && e.verb in LIFECYCLE_VERBS;
      forall a, v
        ensures Allows(u.audit, a, v) == Allows(w.audit, a, v)
      {
        AllowsOfAppend(w.audit, e, a, v);
        VerbNamesAreNotLifecycle(v);
      }
    }
  }

  lemma CloseKeeps(w: World, b: Block)
    requires Wf(w) && ConservationInv(w) && Prepared(w, b)
    ensures ConservationInv(Close(b))
  {
    BookkeepingKeeps(w, b.world);
    match b.ending
    case Stop =>
    case Settling(a, s, actor, outcome, code) => SettleKeeps(b.world, a, s, actor, outcome, code);
    case Launching(client, x) => ExecuteKeeps(b.world, client, x);
    case Returning(client, x, result) =>
      assert TaskOk(w, w.tasks[client]) && Shaped(w, w.actions[x.action.id]);
      FinishKeeps(w, client, x, result);
    case ReadReturning(client, x) =>
      assert TaskOk(w, w.tasks[client]);
      FinishReadKeeps(w, client, x);
  }

  lemma {:induction false} RunKeeps(w: World, commands: seq<Command>)
    requires Wf(w) && ConservationInv(w)
    ensures ConservationInv(Run(w, commands))
  {
    if commands != [] {
      var earlier, c := commands[..|commands| - 1], commands[|commands| - 1];
      RunKeeps(w, earlier);
      RunKeepsWf(w, earlier);
      if Enabled(Run(w, earlier), c) {
        var v := Run(w, earlier).(now := c.now);
        NowKeepsWf(Run(w, earlier), c.now);
        BlockPrepared(v, c);
        CloseKeeps(v, Perform(v, c));
      }
    }
  }

  // ---- totals ----

  /** How many of the log's entries report a promotional mark, and a hit, for one account. */
  lemma {:induction false} PromoTotals(log: seq<Executed>, a: Id)
    requires forall i :: 0 <= i < |log| ==> Reports(log[i])
    ensures PromoCountsOf(log, a).promo + PromoCountsOf(log, a).nonPromo
         == |RateLogOf(log, a, Publish)| + |RateLogOf(log, a, Comment)|
  {
    if log != [] {
      assert Reports(log[|log| - 1]);
      PromoTotals(log[..|log| - 1], a);
    }
  }

  /** Per account and verb: budget spent, marks kept and hits recorded are the audited successes. */
  ghost predicate Conserved(w: World, a: Id) {
    var promo := w.trackers.PromoOf(a);
    && (forall v :: |w.trackers.rate.Of(RateKey(a, v))| == Allows(w.audit, a, v))
    && promo.promo + promo.nonPromo == Allows(w.audit, a, Publish) + Allows(w.audit, a, Comment)
    && HitTotal(w.trackers.coordination.logs, a) == Allows(w.audit, a, Comment) + Allows(w.audit, a, React)
  }

  lemma InvConserves(w: World, a: Id)
    requires ConservationInv(w)
    ensures Conserved(w, a)
  {
    PromoTotals(w.seen.executed, a);
  }

  /** Conservation at every boundary of every interleaving; refused, routed and failed acts contribute nothing. */
  lemma TrackersAreConserved(config: Config, start: Time, commands: seq<Command>, w: World, a: Id)
    requires w == Run(Initial(config, start), commands)
    ensures Conserved(w, a)
  {
    InitialWf(config, start);
    RunKeeps(Initial(config, start), commands);
    InvConserves(w, a);
  }
}

/** The theorems about runs, read off the mutable fields of a service that has performed any sequence of blocks. */
module ServiceSafety {
  import opened Domain
  import opened Ids
  import opened Trackers
  import opened ActionModel
  import opened Structure
  import opened Service
  import opened Conservation
  import opened AuditReplay
  import opened AuditCount
  import opened Idempotency
  import opened JointStates
  import opened DispatchSafety
  import opened ApprovedContent
  import RateBound
  import CoordinationBound
  import PromoBound

  /** A service is in the world of a run when its blocks were that run's commands. */
  ghost predicate HasRun(s: ActionService, start: Time, commands: seq<Command>)
    reads s.Repr()
  {
    s.Valid() && s.model == Run(Initial(s.config, start), commands)
  }

  /** A service that has run some commands and performs one more block has run one more command. */
  lemma BlockExtendsRun(s: ActionService, start: Time, commands: seq<Command>, c: Command)
    requires s.Valid() && s.model == Step(Run(Initial(s.config, start), commands), c)
    ensures HasRun(s, start, commands + [c])
  {
    assert (commands + [c])[..|commands|] == commands;
  }

  lemma LedgerIsAudited(s: ActionService, start: Time, commands: seq<Command>, a: Id)
    requires HasRun(s, start, commands)
    ensures var counts := s.ledger.Counts(a);
            counts.promo + counts.nonPromo == Allows(s.audit, a, Publish) + Allows(s.audit, a, Comment)
    ensures forall v :: |s.rate.History.Of(RateKey(a, v))| == Allows(s.audit, a, v)
  {
    TrackersAreConserved(s.config, start, commands, s.model, a);
    assert s.ledger.Counts(a) == s.model.trackers.PromoOf(a);
  }

  /** The action table and the audit table of the service agree, and no key names two actions. */
  lemma TablesAgree(s: ActionService, start: Time, commands: seq<Command>, id: Id)
    requires HasRun(s, start, commands) && id in s.actions
    ensures OneActionPerKey(s.actions)
    ensures s.actions[id].state != Executing ==>
      LastOutcome(s.audit, id).Some? && Agrees(s.actions[id].state, LastOutcome(s.audit, id).value)
    ensures !Owned(s.queue.Items(), id) ==> EventsOf(s.audit, id) == if s.actions[id].state == Executing then 0 else 1
  {
    KeysAreIdempotent(s.config, start, commands, s.model);
    AuditReplaysToStates(s.config, start, commands, s.model, id);
    if !Owned(s.queue.Items(), id) {
      OneEventPerAction(s.config, start, commands, s.model, id);
    }
  }

  /** The queue of the service fits its action table, and its items own different actions. */
  lemma QueueFitsActions(s: ActionService, start: Time, commands: seq<Command>, id: Id)
    requires HasRun(s, start, commands) && id in s.queue.Items()
    ensures OwnActions(s.queue.Items()) && s.queue.Items()[id].actionId in s.actions
    ensures Fit(s.queue.Items()[id].review, s.actions[s.queue.Items()[id].actionId].state,
                s.queue.Items()[id].actionId in s.model.seen.reopenedInFlight)
  {
    ApprovalsAndActionsAgree(s.config, start, commands, s.model, id);
  }

  /** Every call the service has made of an adapter's write method was permitted, and an approved one faithful. */
  lemma CallsAreProper(s: ActionService, start: Time, commands: seq<Command>, i: nat)
    requires HasRun(s, start, commands) && i < |s.model.seen.sent|
    ensures Proper(s.model.seen.sent[i]) && Faithful(s.model.seen.sent[i])
  {
    OnlyProperActsAreSent(s.config, start, commands, s.model, i);
    ApprovedContentIsSentContent(s.config, start, commands, s.model, i);
  }

  /** The counters of the ledger keep the ratio, approved promotions and overlap aside. */
  lemma LedgerKeepsRatio(s: ActionService, start: Time, commands: seq<Command>, a: Id, overlap: int)
    requires HasRun(s, start, commands) && overlap >= 1 && PromoBound.SavedOnReddit(commands, a)
    requires PromoBound.OverlapWithin(Initial(s.config, start), commands, a, overlap)
    ensures PromoBound.RATIO * (s.ledger.Counts(a).promo - PromoBound.ApprovedPromo(s.model.seen.executed, a))
            <= s.ledger.Counts(a).nonPromo + PromoBound.RATIO * (overlap - 1)
  {
    PromoBound.RatioHolds(s.config, start, commands, s.model, a, overlap);
    assert s.ledger.Counts(a) == s.model.trackers.PromoOf(a);
  }

  predicate Approved(e: Executed, a: Id, v: ActionType, to: Time) {
    e.account == a && e.verb == v && e.via.ApprovedBy? && to - RATE_WINDOW <= e.at <= to
  }

  /** Approved executions of one account and verb, within the closed window that ends at `to`. */
  function Approvals(log: seq<Executed>, a: Id, v: ActionType, to: Time): nat {
    if log == [] then 0
    else Approvals(log[..|log| - 1], a, v, to) + if Approved(log[|log| - 1], a, v, to) then 1 else 0
  }

  /** One more execution is one more hit of the limiter's window, submitted or approved. */
  lemma OneMoreHit(hits: Log, e: Executed, a: Id, v: ActionType, now: Time)
    requires e.at <= now
    ensures var more := hits + if e.account == a && e.verb == v then [Hit("", e.at)] else [];
            |Since(more, now - RATE_WINDOW)|
            == |Since(hits, now - RATE_WINDOW)| + (if RateBound.Spends(e, a, v, now) then 1 else 0)
               + if Approved(e, a, v, now) then 1 else 0
  {
    if e.account == a && e.verb == v {
      SinceAppend(hits, Hit("", e.at), now - RATE_WINDOW);
    } else {
      assert hits + [] == hits;
    }
  }

  lemma {:induction false} RecentAreSpentOrApproved(log: seq<Executed>, a: Id, v: ActionType, now: Time)
    requires forall i :: 0 <= i < |log| ==> log[i].at <= now
    ensures |Since(RateLogOf(log, a, v), now - RATE_WINDOW)|
         == RateBound.Spent(log, a, v, now) + Approvals(log, a, v, now)
  {
    if log != [] {
      RecentAreSpentOrApproved(log[..|log| - 1], a, v, now);
      OneMoreHit(RateLogOf(log[..|log| - 1], a, v), log[|log| - 1], a, v, now);
    }
  }

  lemma RecentHitsAreBounded(w: World, a: Id, v: ActionType, limit: int, overlap: int)
    requires RateBound.RateInv(w, a, v, limit, overlap) && RateBound.RateAgrees(w, a, v)
    ensures |Since(w.trackers.rate.Of(RateKey(a, v)), w.now - RATE_WINDOW)|
            <= limit - 1 + overlap + Approvals(w.seen.executed, a, v, w.now)
  {
    RecentAreSpentOrApproved(w.seen.executed, a, v, w.now);
  }

  /** The limiter's own window holds no more than the limit and the overlap allow, approved executions aside. */
  lemma LimiterStaysInBounds(s: ActionService, start: Time, commands: seq<Command>, a: Id, v: ActionType,
                             limit: int, overlap: int)
    requires HasRun(s, start, commands) && limit >= 1 && overlap >= 1
    requires RateBound.LimitsWithin(commands, a, v, limit)
    requires RateBound.OverlapWithin(Initial(s.config, start), commands, a, v, overlap)
    ensures |Since(s.rate.History.Of(RateKey(a, v)), s.model.now - RATE_WINDOW)|
            <= limit - 1 + overlap + Approvals(s.model.seen.executed, a, v, s.model.now)
  {
    RateBound.RateInvHolds(s.config, start, commands, s.model, a, v, limit, overlap);
    RecentHitsAreBounded(s.model, a, v, limit, overlap);
  }

  lemma CheckedHitsAreBounded(config: Config, start: Time, commands: seq<Command>, w: World, key: string, overlap: int)
    requires w == Run(Initial(config, start), commands)
    requires CoordinationBound.OverlapWithin(Initial(config, start), commands, key, overlap)
    ensures var actors := CoordinationBound.Actors(w.seen.executed, key, w.now);
            && actors <= Who(Since(w.trackers.coordination.Of(key), w.now - COORDINATION_WINDOW))
            && CoordinationBound.Within(actors, config.maxDistinctAccounts, overlap)
  {
    InitialWf(config, start);
    Conservation.RunKeeps(Initial(config, start), commands);
    CoordinationBound.CoordinationIsBounded(config, start, commands, w, key, overlap, w.now);
    CoordinationBound.ActorsAreRecorded(w.seen.executed, key, w.now);
    assert w.trackers.coordination.Of(key) == HitLogOf(w.seen.executed, key);
  }

  /** Of the accounts in the tracker's own window, those that were checked are no more than the overlap allows. */
  lemma TrackerStaysInBounds(s: ActionService, start: Time, commands: seq<Command>, key: string, overlap: int)
    requires HasRun(s, start, commands)
    requires CoordinationBound.OverlapWithin(Initial(s.config, start), commands, key, overlap)
    ensures var actors := CoordinationBound.Actors(s.model.seen.executed, key, s.model.now);
            && actors <= Who(Since(s.coordination.History.Of(key), s.model.now - COORDINATION_WINDOW))
            && CoordinationBound.Within(actors, s.config.maxDistinctAccounts, overlap)
  {
    CheckedHitsAreBounded(s.config, start, commands, s.model, key, overlap);
  }
}

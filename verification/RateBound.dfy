/** The rate bound under concurrency: a rolling window never holds more than the limit plus the overlap allows. */
module RateBound {
  import opened Domain
  import opened Ids
  import opened Policies
  import opened Trackers
  import opened Guards
  import opened ActionModel
  import opened Structure
  import opened Conservation
  import opened Flights

  /** Executions of one account and verb that passed the rate guard, within the closed window that ends at `to`. */
  function Spent(log: seq<Executed>, a: Id, v: ActionType, to: Time): nat {
    if log == [] then 0
    else Spent(log[..|log| - 1], a, v, to) + if Spends(log[|log| - 1], a, v, to) then 1 else 0
  }

  predicate Spends(e: Executed, a: Id, v: ActionType, to: Time) {
    e.account == a && e.verb == v && e.via == Submitted && to - RATE_WINDOW <= e.at <= to
  }

  predicate CheckedFor(t: Task, a: Id, v: ActionType) {
    !t.Resolving? && t.x.account.id == a && t.x.action.verb == v && (t.Running? ==> t.x.via == Submitted)
  }

  /** The guard-checked executions of one account and verb that wait for an adapter. */
  function RateFlight(tasks: map<nat, Task>, a: Id, v: ActionType): set<nat> {
    set c | c in tasks && CheckedFor(tasks[c], a, v)
  }

  predicate Governed(account: Account, a: Id, v: ActionType, limit: int) {
    account.id == a ==> 1 <= LimitFor(Resolve(account.platform, account.overrides), v) <= limit
  }

  /** All copies of the account that a guard may yet be shown. */
  ghost predicate Snapshots(w: World, a: Id, v: ActionType, limit: int) {
    && (forall id :: id in w.accounts ==> Governed(w.accounts[id], a, v, limit))
    && (forall c :: c in w.tasks && w.tasks[c].Resolving? ==> Governed(w.tasks[c].request.account, a, v, limit))
  }

  /** The window that ends now, plus what may still complete in it. */
  predicate Budget(log: seq<Executed>, tasks: map<nat, Task>, now: Time, a: Id, v: ActionType, limit: int,
                   overlap: int) {
    Spent(log, a, v, now) + |RateFlight(tasks, a, v)| <= limit - 1 + overlap
  }

  ghost predicate RateInv(w: World, a: Id, v: ActionType, limit: int, overlap: int) {
    && Timely(w) && Snapshots(w, a, v, limit)
    && Budget(w.seen.executed, w.tasks, w.now, a, v, limit, overlap)
    && forall t :: Spent(w.seen.executed, a, v, t) <= limit - 1 + overlap
  }

  // ---- windows ----

  lemma SpentAppend(log: seq<Executed>, e: Executed, a: Id, v: ActionType, to: Time)
    ensures Spent(log + [e], a, v, to) == Spent(log, a, v, to) + if Spends(e, a, v, to) then 1 else 0
  {
    assert (log + [e])[..|log|] == log;
  }

  /** Once everything lies at or before `now`, a later window holds no more than the one that ends now. */
  lemma {:induction false} LaterWindow(log: seq<Executed>, a: Id, v: ActionType, now: Time, t: Time)
    requires now <= t && forall i :: 0 <= i < |log| ==> log[i].at <= now
    ensures Spent(log, a, v, t) <= Spent(log, a, v, now)
  {
    if log != [] {
      LaterWindow(log[..|log| - 1], a, v, now, t);
    }
  }

  /** The limiter's list also holds the approved executions, so it is no shorter. */
  lemma {:induction false} SpentIsLogged(log: seq<Executed>, a: Id, v: ActionType, to: Time)
    ensures Spent(log, a, v, to) <= |Since(RateLogOf(log, a, v), to - RATE_WINDOW)|
  {
    if log != [] {
      var e, earlier := log[|log| - 1], RateLogOf(log[..|log| - 1], a, v);
      SpentIsLogged(log[..|log| - 1], a, v, to);
      if e.account == a && e.verb == v {
        assert RateLogOf(log, a, v) == earlier + [Hit("", e.at)];
        SinceAppend(earlier, Hit("", e.at), to - RATE_WINDOW);
      } else {
        assert RateLogOf(log, a, v) == earlier + [] == earlier;
      }
    }
  }

  /** The limiter's history is the log's. */
  predicate RateAgrees(w: World, a: Id, v: ActionType) {
    w.trackers.rate.Of(RateKey(a, v)) == RateLogOf(w.seen.executed, a, v)
  }

  lemma PassedIsUnderLimit(c: GuardContext, t: TrackerState)
    requires EvaluateAll(c, t).outcome != Deny
    ensures UnderLimit(t.rate.Of(RateKey(c.account.id, c.verb)), LimitFor(c.policy, c.verb), c.now)
  {
    NotDenied(c, t, RateLimit);
  }

  lemma UnderLimitLeavesRoom(w: World, a: Id, v: ActionType, applied: int, limit: int)
    requires RateAgrees(w, a, v) && 1 <= applied <= limit
    requires UnderLimit(w.trackers.rate.Of(RateKey(a, v)), applied, w.now)
    ensures Spent(w.seen.executed, a, v, w.now) < limit
  {
    SpentIsLogged(w.seen.executed, a, v, w.now);
  }

  /** A request the guards did not deny found budget left. */
  lemma PassedLeavesRoom(w: World, c: GuardContext, a: Id, limit: int)
    requires RateAgrees(w, a, c.verb) && EvaluateAll(c, w.trackers).outcome != Deny && c.now == w.now
    requires c.policy == Resolve(c.account.platform, c.account.overrides)
    requires c.account.id == a && Governed(c.account, a, c.verb, limit)
    ensures Spent(w.seen.executed, a, c.verb, w.now) < limit
  {
    PassedIsUnderLimit(c, w.trackers);
    UnderLimitLeavesRoom(w, a, c.verb, LimitFor(c.policy, c.verb), limit);
  }

  // ---- what a block does before its ending ----

  ghost predicate Room(w: World, a: Id, v: ActionType, limit: int) {
    Spent(w.seen.executed, a, v, w.now) < limit
  }

  /** A block keeps the copies governed, launches only governed requests, and admits a read only where there is room. */
  ghost predicate Restrained(w: World, b: Block, a: Id, v: ActionType, limit: int) {
    && Snapshots(b.world, a, v, limit)
    && (b.ending.Launching? && b.ending.x.via == Submitted ==> Governed(b.ending.x.account, a, v, limit))
    && (RateFlight(b.world.tasks, a, v) <= RateFlight(w.tasks, a, v) || (b.ending.Stop? && Room(w, a, v, limit)))
  }

  lemma DisposeRestrained(w: World, u: World, client: nat, r: Request, target: Option<TargetRef>, act: Action,
                          approvalId: Id, verdict: PolicyResult, a: Id, v: ActionType, limit: int)
    requires Snapshots(w, a, v, limit) && Governed(r.account, a, v, limit) && u == w.(used := u.used)
    ensures Restrained(w, Dispose(u, client, r, target, act, approvalId, verdict), a, v, limit)
  {
  }

  lemma SubmitRestrained(w: World, client: nat, r: Request, target: Option<TargetRef>, actionId: Id, approvalId: Id,
                         a: Id, v: ActionType, limit: int)
    requires Snapshots(w, a, v, limit) && Governed(r.account, a, v, limit)
    ensures Restrained(w, SubmitWrite(w, client, r, target, actionId, approvalId), a, v, limit)
  {
    if !KeyTaken(w.actions, r.key) {
      DisposeRestrained(w, w.(used := w.used + {actionId, approvalId}), client, r, target,
                        NewAction(r, actionId, target), approvalId, Judge(w, r, target), a, v, limit);
    }
  }

  lemma AdmitRestrained(w: World, u: World, client: nat, r: Request, target: Option<TargetRef>, act: Action,
                        verdict: PolicyResult, a: Id, v: ActionType, limit: int)
    requires client !in w.tasks && Snapshots(w, a, v, limit)
    requires u == w.(used := u.used) && act.verb == r.verb
    requires verdict.outcome != Deny && r.account.id == a && r.verb == v ==> Room(w, a, v, limit)
    ensures Restrained(w, Admit(u, client, r, target, act, verdict), a, v, limit)
  {
  }

  lemma ReadRestrained(w: World, client: nat, r: Request, target: Option<TargetRef>, actionId: Id,
                       a: Id, v: ActionType, limit: int)
    requires RateAgrees(w, a, v) && client !in w.tasks
    requires Snapshots(w, a, v, limit) && Governed(r.account, a, v, limit)
    ensures Restrained(w, RunRead(w, client, r, target, actionId), a, v, limit)
  {
    var u, verdict := w.(used := w.used + {actionId}), Judge(w, r, target);
    if verdict.outcome != Deny && r.account.id == a && r.verb == v {
      PassedLeavesRoom(w, ContextOf(w, r, target), a, limit);
    }
    AdmitRestrained(w, u, client, r, target, NewAction(r, actionId, target), verdict, a, v, limit);
  }

  lemma ResolvedRestrained(w: World, c: Command, a: Id, v: ActionType, limit: int)
    requires RateAgrees(w, a, v) && Snapshots(w, a, v, limit) && Enabled(w, c) && c.TargetResolved?
    ensures Restrained(w, Perform(w, c), a, v, limit)
  {
    var r, u := w.tasks[c.client].request, w.(tasks := w.tasks - {c.client});
    if IsWrite(r.verb) {
      SubmitRestrained(u, c.client, r, Some(c.target), c.actionId, c.approvalId, a, v, limit);
    } else {
      ReadRestrained(u, c.client, r, Some(c.target), c.actionId, a, v, limit);
    }
  }

  lemma PublishRestrained(w: World, c: Command, a: Id, v: ActionType, limit: int)
    requires Snapshots(w, a, v, limit) && Enabled(w, c) && c.SubmitPublish?
    ensures Restrained(w, Perform(w, c), a, v, limit)
  {
    if c.accountId in w.accounts && c.draftId in w.drafts {
      var r := PublishRequest(w, c);
      SubmitRestrained(w, c.client, r, None, c.actionId, c.approvalId, a, v, limit);
    }
  }

  lemma SearchRestrained(w: World, c: Command, a: Id, v: ActionType, limit: int)
    requires RateAgrees(w, a, v) && Snapshots(w, a, v, limit) && Enabled(w, c) && c.BeginSearch?
    ensures Restrained(w, Perform(w, c), a, v, limit)
  {
    if c.accountId in w.accounts {
      var r := Request(c.caller, w.accounts[c.accountId], Search, None, None, None, None);
      ReadRestrained(w, c.client, r, None, c.actionId, a, v, limit);
    }
  }

  lemma BeginRestrained(w: World, c: Command, a: Id, v: ActionType, limit: int)
    requires Snapshots(w, a, v, limit) && Enabled(w, c) && (c.BeginTargeted? || c.BeginRead?)
    ensures Restrained(w, Perform(w, c), a, v, limit)
  {
  }

  lemma DecisionsRestrained(w: World, c: Command, a: Id, v: ActionType, limit: int)
    requires Snapshots(w, a, v, limit) && Enabled(w, c) && (c.DecideApproval? || c.ResubmitApproval?)
    ensures Restrained(w, Perform(w, c), a, v, limit)
  {
    var b := Perform(w, c);
    assert b.world.accounts == w.accounts && b.world.tasks == w.tasks;
  }

  /** Whatever the account is saved as has a limit within bounds. */
  predicate SavesGoverned(c: Command, a: Id, v: ActionType, limit: int) {
    c.SaveAccount? ==> Governed(c.account, a, v, limit)
  }

  lemma BlockRestrained(w: World, c: Command, a: Id, v: ActionType, limit: int)
    requires RateAgrees(w, a, v) && Snapshots(w, a, v, limit) && Enabled(w, c) && SavesGoverned(c, a, v, limit)
    ensures Restrained(w, Perform(w, c), a, v, limit)
  {
    match c
    case TargetResolved(_, _, _, _, _) => ResolvedRestrained(w, c, a, v, limit);
    case SubmitPublish(_, _, _, _, _, _, _, _, _) => PublishRestrained(w, c, a, v, limit);
    case BeginTargeted(_, _, _, _, _, _, _, _, _) => BeginRestrained(w, c, a, v, limit);
    case BeginRead(_, _, _, _) => BeginRestrained(w, c, a, v, limit);
    case BeginSearch(_, _, _, _, _) => SearchRestrained(w, c, a, v, limit);
    case DecideApproval(_, _, _, _, _, _) => DecisionsRestrained(w, c, a, v, limit);
    case ResubmitApproval(_, _, _) => DecisionsRestrained(w, c, a, v, limit);
    case _ =>
  }

  // ---- what the ending does ----

  lemma LaunchHasRoom(w: World, b: Block, a: Id, v: ActionType, limit: int)
    requires RateAgrees(w, a, v) && Prepared(w, b) && Restrained(w, b, a, v, limit)
    requires b.ending.Launching? && CheckedFor(Running(b.ending.x), a, v)
    ensures Room(w, a, v, limit)
  {
    var x := b.ending.x;
    var token: Option<string> :| EvaluateAll(ContextFor(w, x, token), w.trackers).outcome == Allow;
    PassedLeavesRoom(w, ContextFor(w, x, token), a, limit);
  }

  /** A staged publish never overlaps another execution of its account and verb: those are all staged. */
  lemma StagedFliesAlone(w: World, b: Block, a: Id)
    requires TasksInv(w) && Prepared(w, b) && b.ending.Launching? && CheckedFor(Running(b.ending.x), a, Publish)
    requires TransportOf(b.ending.x) == Staged
    ensures RateFlight(w.tasks, a, Publish) == {}
  {
    forall c | c in w.tasks && !w.tasks[c].Resolving?
      ensures !CheckedFor(w.tasks[c], a, Publish)
    {
      assert TaskOk(w, w.tasks[c]);
      OverridesKeepTheSendingRules(b.ending.x.account.platform, b.ending.x.account.overrides);
      OverridesKeepTheSendingRules(w.tasks[c].x.account.platform, w.tasks[c].x.account.overrides);
    }
  }

  lemma StartedFlight(tasks: map<nat, Task>, client: nat, x: Execution, a: Id, v: ActionType)
    requires client !in tasks && !CheckedFor(Running(x), a, v)
    ensures RateFlight(tasks[client := Running(Started(x))], a, v) == RateFlight(tasks, a, v)
  {
  }

  lemma EndedFlight(tasks: map<nat, Task>, client: nat, a: Id, v: ActionType)
    requires client in tasks
    ensures |RateFlight(tasks - {client}, a, v)|
         == |RateFlight(tasks, a, v)| - if CheckedFor(tasks[client], a, v) then 1 else 0
  {
    assert RateFlight(tasks - {client}, a, v) == RateFlight(tasks, a, v) - {client};
  }

  lemma CheckedLaunchKeepsBudget(w: World, b: Block, a: Id, v: ActionType, limit: int, overlap: int)
    requires Room(w, a, v, limit) && b.ending.Launching?
    requires TransportOf(b.ending.x) == Staged ==> RateFlight(b.world.tasks, a, v) == {}
    requires |RateFlight(TasksAfter(w, b), a, v)| <= overlap && overlap >= 1
    ensures Budget(Logged(w.seen.executed, Entry(w, b)), TasksAfter(w, b), w.now, a, v, limit, overlap)
  {
    SpentAppend(w.seen.executed, ExecutedBy(w, b.ending.x), a, v, w.now);
  }

  lemma UncheckedSpendsNothing(w: World, x: Execution, a: Id, v: ActionType)
    requires !CheckedFor(Running(x), a, v)
    ensures Spent(w.seen.executed + [ExecutedBy(w, x)], a, v, w.now) == Spent(w.seen.executed, a, v, w.now)
  {
    SpentAppend(w.seen.executed, ExecutedBy(w, x), a, v, w.now);
  }

  lemma UncheckedLaunchKeepsBudget(w: World, b: Block, a: Id, v: ActionType, limit: int, overlap: int)
    requires RateFlight(b.world.tasks, a, v) <= RateFlight(w.tasks, a, v)
    requires Budget(w.seen.executed, w.tasks, w.now, a, v, limit, overlap)
    requires b.ending.Launching? && b.ending.client !in b.world.tasks && !CheckedFor(Running(b.ending.x), a, v)
    ensures Budget(Logged(w.seen.executed, Entry(w, b)), TasksAfter(w, b), w.now, a, v, limit, overlap)
  {
    SubsetSize(RateFlight(b.world.tasks, a, v), RateFlight(w.tasks, a, v));
    StartedFlight(b.world.tasks, b.ending.client, b.ending.x, a, v);
    UncheckedSpendsNothing(w, b.ending.x, a, v);
  }

  lemma LaunchKeepsBudget(w: World, b: Block, a: Id, v: ActionType, limit: int, overlap: int)
    requires TasksInv(w) && RateAgrees(w, a, v) && Prepared(w, b) && Restrained(w, b, a, v, limit)
    requires Budget(w.seen.executed, w.tasks, w.now, a, v, limit, overlap) && overlap >= 1 && b.ending.Launching?
    requires |RateFlight(TasksAfter(w, b), a, v)| <= overlap
    ensures Budget(Logged(w.seen.executed, Entry(w, b)), TasksAfter(w, b), w.now, a, v, limit, overlap)
  {
    if CheckedFor(Running(b.ending.x), a, v) {
      LaunchHasRoom(w, b, a, v, limit);
      if TransportOf(b.ending.x) == Staged {
        StagedFliesAlone(w, b, a);
        assert RateFlight(b.world.tasks, a, v) == {};
      }
      CheckedLaunchKeepsBudget(w, b, a, v, limit, overlap);
    } else {
      UncheckedLaunchKeepsBudget(w, b, a, v, limit, overlap);
    }
  }

  /** A returning execution moves from flight into the window, or leaves both. */
  lemma ReturnKeepsBudget(w: World, b: Block, a: Id, v: ActionType, limit: int, overlap: int)
    requires Prepared(w, b) && (b.ending.Returning? || b.ending.ReadReturning?)
    requires Budget(w.seen.executed, w.tasks, w.now, a, v, limit, overlap)
    ensures Budget(Logged(w.seen.executed, Entry(w, b)), TasksAfter(w, b), w.now, a, v, limit, overlap)
  {
    var e := if b.ending.Returning? then ExecutedBy(w, b.ending.x) else ReadEntry(w, b.ending.x);
    EndedFlight(w.tasks, b.ending.client, a, v);
    SpentInFlight(w, w.tasks[b.ending.client], e, a, v);
  }

  /** What a returning execution spends, its flight had reserved. */
  lemma SpentInFlight(w: World, t: Task, e: Executed, a: Id, v: ActionType)
    requires (t.Running? && e == ExecutedBy(w, t.x)) || (t.Reading? && e == ReadEntry(w, t.x))
    ensures Spent(w.seen.executed + [e], a, v, w.now)
         <= Spent(w.seen.executed, a, v, w.now) + if CheckedFor(t, a, v) then 1 else 0
  {
    SpentAppend(w.seen.executed, e, a, v, w.now);
  }

  /** Window count plus flight, after the ending. */
  lemma CloseKeepsBudget(w: World, b: Block, a: Id, v: ActionType, limit: int, overlap: int)
    requires TasksInv(w) && RateAgrees(w, a, v) && Prepared(w, b) && Restrained(w, b, a, v, limit)
    requires Budget(w.seen.executed, w.tasks, w.now, a, v, limit, overlap) && overlap >= 1
    requires |RateFlight(TasksAfter(w, b), a, v)| <= overlap
    ensures Budget(Logged(w.seen.executed, Entry(w, b)), TasksAfter(w, b), w.now, a, v, limit, overlap)
  {
    match b.ending {
      case Launching(_, _) => LaunchKeepsBudget(w, b, a, v, limit, overlap);
      case Returning(_, _, _) => ReturnKeepsBudget(w, b, a, v, limit, overlap);
      case ReadReturning(_, _) => ReturnKeepsBudget(w, b, a, v, limit, overlap);
      case _ =>
        if RateFlight(b.world.tasks, a, v) <= RateFlight(w.tasks, a, v) {
          SubsetSize(RateFlight(b.world.tasks, a, v), RateFlight(w.tasks, a, v));
        }
    }
  }

  /** Before `now` nothing changed; from `now` on, the window that ends now is the fullest. */
  lemma WindowsKept(log: seq<Executed>, e: Option<Executed>, now: Time, a: Id, v: ActionType, bound: int)
    requires forall t :: Spent(log, a, v, t) <= bound
    requires Spent(Logged(log, e), a, v, now) <= bound
    requires e.Some? ==> e.value.at == now
    requires forall i :: 0 <= i < |log| ==> log[i].at <= now
    ensures forall t :: Spent(Logged(log, e), a, v, t) <= bound
  {
    forall t
      ensures Spent(Logged(log, e), a, v, t) <= bound
    {
      if t >= now {
        LaterWindow(Logged(log, e), a, v, now, t);
      } else if e.Some? {
        SpentAppend(log, e.value, a, v, t);
      }
    }
  }

  lemma ClockKeepsRate(w: World, now: Time, a: Id, v: ActionType, limit: int, overlap: int)
    requires RateInv(w, a, v, limit, overlap) && w.now <= now
    ensures RateInv(w.(now := now), a, v, limit, overlap)
  {
    LaterWindow(w.seen.executed, a, v, w.now, now);
  }

  lemma RateInvAfter(w: World, t: World, e: Option<Executed>, a: Id, v: ActionType, limit: int, overlap: int)
    requires RateInv(w, a, v, limit, overlap) && Snapshots(t, a, v, limit)
    requires t.now == w.now && t.seen.executed == Logged(w.seen.executed, e) && (e.Some? ==> e.value.at == w.now)
    requires Budget(t.seen.executed, t.tasks, t.now, a, v, limit, overlap)
    ensures RateInv(t, a, v, limit, overlap)
  {
    WindowsKept(w.seen.executed, e, w.now, a, v, limit - 1 + overlap);
  }

  lemma CloseKeepsSnapshots(w: World, b: Block, a: Id, v: ActionType, limit: int)
    requires Prepared(w, b) && Snapshots(b.world, a, v, limit)
    ensures Snapshots(Close(b), a, v, limit)
  {
    CloseAdvances(w, b);
  }

  lemma EntryIsNow(w: World, b: Block)
    ensures Entry(w, b).Some? ==> Entry(w, b).value.at == w.now
  {
  }

  lemma CloseKeeps(w: World, b: Block, a: Id, v: ActionType, limit: int, overlap: int)
    requires TasksInv(w) && RateAgrees(w, a, v) && Prepared(w, b) && Restrained(w, b, a, v, limit)
    requires RateInv(w, a, v, limit, overlap) && overlap >= 1
    requires |RateFlight(Close(b).tasks, a, v)| <= overlap
    ensures RateInv(Close(b), a, v, limit, overlap)
  {
    CloseKeepsSnapshots(w, b, a, v, limit);
    EntryIsNow(w, b);
    CloseAdvances(w, b);
    CloseKeepsBudget(w, b, a, v, limit, overlap);
    RateInvAfter(w, Close(b), Entry(w, b), a, v, limit, overlap);
  }

  // ---- runs ----

  /** Every version of the account that is saved allows between 1 and `limit` acts of this verb per minute. */
  ghost predicate LimitsWithin(commands: seq<Command>, a: Id, v: ActionType, limit: int) {
    forall i :: 0 <= i < |commands| ==> SavesGoverned(commands[i], a, v, limit)
  }

  /** Nowhere in the run do more than `overlap` checked executions of the account and verb wait together. */
  ghost predicate OverlapWithin(w: World, commands: seq<Command>, a: Id, v: ActionType, overlap: int) {
    forall n :: 0 <= n <= |commands| ==> |RateFlight(Run(w, commands[..n]).tasks, a, v)| <= overlap
  }

  lemma OverlapEarlier(w: World, commands: seq<Command>, a: Id, v: ActionType, overlap: int)
    requires commands != [] && OverlapWithin(w, commands, a, v, overlap)
    ensures OverlapWithin(w, commands[..|commands| - 1], a, v, overlap)
    ensures |RateFlight(Run(w, commands).tasks, a, v)| <= overlap
  {
    var earlier := commands[..|commands| - 1];
    forall n | 0 <= n <= |earlier|
      ensures |RateFlight(Run(w, earlier[..n]).tasks, a, v)| <= overlap
    {
      assert earlier[..n] == commands[..n];
    }
    assert commands[..|commands|] == commands;
  }

  lemma {:induction false} RunKeepsRate(w: World, commands: seq<Command>, a: Id, v: ActionType, limit: int,
                                        overlap: int)
    requires Wf(w) && ConservationInv(w) && RateInv(w, a, v, limit, overlap) && overlap >= 1
    requires LimitsWithin(commands, a, v, limit) && OverlapWithin(w, commands, a, v, overlap)
    ensures RateInv(Run(w, commands), a, v, limit, overlap)
  {
    if commands != [] {
      var earlier, c := commands[..|commands| - 1], commands[|commands| - 1];
      OverlapEarlier(w, commands, a, v, overlap);
      RunKeepsRate(w, earlier, a, v, limit, overlap);
      RunKeepsWf(w, earlier);
      Conservation.RunKeeps(w, earlier);
      var r := Run(w, earlier);
      if Enabled(r, c) {
        var u := r.(now := c.now);
        NowKeepsWf(r, c.now);
        ClockKeepsRate(r, c.now, a, v, limit, overlap);
        BlockPrepared(u, c);
        assert RateAgrees(r, a, v);
        BlockRestrained(u, c, a, v, limit);
        CloseKeeps(u, Perform(u, c), a, v, limit, overlap);
      }
    }
  }

  lemma NothingIsSpent(config: Config, start: Time, a: Id, v: ActionType, limit: int, overlap: int)
    requires limit >= 1 && overlap >= 1
    ensures RateInv(Initial(config, start), a, v, limit, overlap)
  {
  }

  lemma RateInvHolds(config: Config, start: Time, commands: seq<Command>, w: World, a: Id, v: ActionType,
                     limit: int, overlap: int)
    requires w == Run(Initial(config, start), commands) && limit >= 1 && overlap >= 1
    requires LimitsWithin(commands, a, v, limit)
    requires OverlapWithin(Initial(config, start), commands, a, v, overlap)
    ensures RateInv(w, a, v, limit, overlap) && RateAgrees(w, a, v)
  {
    InitialWf(config, start);
    NothingIsSpent(config, start, a, v, limit, overlap);
    Conservation.RunKeeps(Initial(config, start), commands);
    RunKeepsRate(Initial(config, start), commands, a, v, limit, overlap);
  }

  /**
   * With at most `overlap` checked executions in flight, every closed 60-second window of the run holds at
   * most `limit - 1 + overlap` of them: exactly the limit when they do not overlap.
   */
  lemma RateIsBounded(config: Config, start: Time, commands: seq<Command>, w: World, a: Id, v: ActionType,
                      limit: int, overlap: int, t: Time)
    requires w == Run(Initial(config, start), commands) && limit >= 1 && overlap >= 1
    requires LimitsWithin(commands, a, v, limit)
    requires OverlapWithin(Initial(config, start), commands, a, v, overlap)
    ensures Spent(w.seen.executed, a, v, t) <= limit - 1 + overlap
  {
    RateInvHolds(config, start, commands, w, a, v, limit, overlap);
  }
}

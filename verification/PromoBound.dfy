/** The self-promotion ratio over whole runs: nine ordinary posts for every checked promotional one. */
module PromoBound {
  import opened Domain
  import opened Policies
  import opened Trackers
  import opened Guards
  import opened ActionModel
  import opened Structure
  import opened Conservation
  import opened Flights

  const RATIO: int := 9

  predicate Promotes(e: Executed, a: Id) { e.account == a && e.promo == Some(true) }

  /** Promotional executions of the account that passed the guards when they were submitted. */
  function CheckedPromo(log: seq<Executed>, a: Id): nat {
    if log == [] then 0
    else CheckedPromo(log[..|log| - 1], a)
         + if Promotes(log[|log| - 1], a) && log[|log| - 1].via == Submitted then 1 else 0
  }

  /** Promotional executions reached through an approval, which re-checks no ratio. */
  function ApprovedPromo(log: seq<Executed>, a: Id): nat {
    if log == [] then 0
    else ApprovedPromo(log[..|log| - 1], a)
         + if Promotes(log[|log| - 1], a) && log[|log| - 1].via.ApprovedBy? then 1 else 0
  }

  predicate Promoting(config: Config, t: Task, a: Id) {
    t.Running? && t.x.via == Submitted && t.x.account.id == a && PromoMark(config, t.x) == Some(true)
  }

  function PromoFlight(config: Config, tasks: map<nat, Task>, a: Id): set<nat> {
    set c | c in tasks && Promoting(config, tasks[c], a)
  }

  predicate OnReddit(accounts: map<Id, Account>, a: Id) { a in accounts ==> accounts[a].platform == Reddit }

  /** What is done and what may yet complete stays within a ninth of the ordinary posts, overlap aside. */
  predicate Covered(config: Config, log: seq<Executed>, tasks: map<nat, Task>, a: Id, overlap: int) {
    RATIO * (CheckedPromo(log, a) + |PromoFlight(config, tasks, a)|)
      <= PromoCountsOf(log, a).nonPromo + RATIO * (overlap - 1)
  }

  ghost predicate PromoInv(w: World, a: Id, overlap: int) {
    OnReddit(w.accounts, a) && Covered(w.config, w.seen.executed, w.tasks, a, overlap)
  }

  // ---- counting ----

  lemma PromoAppend(log: seq<Executed>, e: Executed, a: Id)
    ensures CheckedPromo(log + [e], a) == CheckedPromo(log, a) + if Promotes(e, a) && e.via == Submitted then 1 else 0
    ensures PromoCountsOf(log + [e], a).nonPromo >= PromoCountsOf(log, a).nonPromo
  {
    assert (log + [e])[..|log|] == log;
  }

  /** Every promotional mark was either checked or approved. */
  lemma {:induction false} PromoSplits(log: seq<Executed>, a: Id)
    ensures PromoCountsOf(log, a).promo == CheckedPromo(log, a) + ApprovedPromo(log, a)
  {
    if log != [] {
      PromoSplits(log[..|log| - 1], a);
    }
  }

  /** Floor division: below the quotient of a ratio of at least nine there is room for nine more. */
  lemma QuotientLeavesRoom(promo: nat, nonPromo: nat, ratio: int)
    requires ratio >= RATIO && promo < nonPromo / ratio
    ensures RATIO * (promo + 1) <= nonPromo
  {
    var q := nonPromo / ratio;
    assert ratio * q <= nonPromo;
    assert (ratio - RATIO) * q >= 0;
    assert ratio * q == RATIO * q + (ratio - RATIO) * q;
  }

  // ---- the guard ----

  lemma PassedIsWithinRatio(c: GuardContext, t: TrackerState)
    requires EvaluateAll(c, t).outcome != Deny && IsWrite(c.verb) && c.account.platform == Reddit && c.Promotional()
    ensures !t.PromoOf(c.account.id).WouldExceed(c.policy.selfPromoRatio)
  {
    NotDenied(c, t, PlatformRules);
  }

  predicate PromoAgrees(w: World, a: Id) { w.trackers.PromoOf(a) == PromoCountsOf(w.seen.executed, a) }

  lemma LaunchHasRoom(w: World, b: Block, a: Id)
    requires PromoAgrees(w, a) && Prepared(w, b) && OnReddit(b.world.accounts, a)
    requires b.ending.Launching? && Promoting(w.config, Running(b.ending.x), a)
    ensures RATIO * (CheckedPromo(w.seen.executed, a) + 1) <= PromoCountsOf(w.seen.executed, a).nonPromo
    ensures b.ending.x.account.platform == Reddit
  {
    var x := b.ending.x;
    var token: Option<string> :| EvaluateAll(ContextFor(w, x, token), w.trackers).outcome == Allow;
    var c := ContextFor(w, x, token);
    PassedIsWithinRatio(c, w.trackers);
    OverridesKeepTheSendingRules(x.account.platform, x.account.overrides);
    var counts := PromoCountsOf(w.seen.executed, a);
    PromoSplits(w.seen.executed, a);
    QuotientLeavesRoom(counts.promo, counts.nonPromo, c.policy.selfPromoRatio);
  }

  // ---- steps ----

  lemma FlightKept(config: Config, tasks: map<nat, Task>, after: map<nat, Task>, a: Id)
    requires SameRunning(tasks, after)
    ensures PromoFlight(config, after, a) == PromoFlight(config, tasks, a)
  {
    forall c
      ensures c in PromoFlight(config, after, a) <==> c in PromoFlight(config, tasks, a)
    {
      assert c in tasks && tasks[c].Running? ==> c in after && after[c] == tasks[c];
      assert c in after && after[c].Running? ==> c in tasks && after[c] == tasks[c];
    }
  }

  lemma StartedFlight(config: Config, tasks: map<nat, Task>, client: nat, x: Execution, a: Id)
    requires client !in tasks
    ensures PromoFlight(config, tasks[client := Running(Started(x))], a)
         == PromoFlight(config, tasks, a) + if Promoting(config, Running(x), a) then {client} else {}
  {
    assert Promoting(config, Running(Started(x)), a) == Promoting(config, Running(x), a);
  }

  lemma EndedFlight(config: Config, tasks: map<nat, Task>, client: nat, a: Id)
    requires client in tasks
    ensures |PromoFlight(config, tasks - {client}, a)|
         == |PromoFlight(config, tasks, a)| - if Promoting(config, tasks[client], a) then 1 else 0
  {
    assert PromoFlight(config, tasks - {client}, a) == PromoFlight(config, tasks, a) - {client};
  }

  lemma RedditIsLive(x: Execution)
    requires x.account.platform == Reddit && IsWrite(x.action.verb)
    ensures TransportOf(x) == Live
  {
  }

  lemma LaunchStaysCovered(w: World, b: Block, a: Id, overlap: int)
    requires PromoAgrees(w, a) && Prepared(w, b) && OnReddit(b.world.accounts, a) && b.ending.Launching?
    requires Covered(w.config, w.seen.executed, w.tasks, a, overlap)
    requires |PromoFlight(w.config, TasksAfter(w, b), a)| <= overlap
    ensures Covered(w.config, Logged(w.seen.executed, Entry(w, b)), TasksAfter(w, b), a, overlap)
  {
    var x := b.ending.x;
    FlightKept(w.config, w.tasks, b.world.tasks, a);
    StartedFlight(w.config, b.world.tasks, b.ending.client, x, a);
    if Promoting(w.config, Running(x), a) {
      LaunchHasRoom(w, b, a);
      RedditIsLive(x);
    } else {
      UncheckedAdds(w, x, a);
    }
  }

  /** An execution that is not a checked promotional one uses up nothing. */
  lemma UncheckedAdds(w: World, x: Execution, a: Id)
    requires !Promoting(w.config, Running(x), a)
    ensures var log := w.seen.executed + [ExecutedBy(w, x)];
            && CheckedPromo(log, a) == CheckedPromo(w.seen.executed, a)
            && PromoCountsOf(log, a).nonPromo >= PromoCountsOf(w.seen.executed, a).nonPromo
  {
    PromoAppend(w.seen.executed, ExecutedBy(w, x), a);
  }

  /** What a returning execution promotes, its flight had reserved. */
  lemma PromotesInFlight(w: World, t: Task, e: Executed, a: Id)
    requires (t.Running? && e == ExecutedBy(w, t.x)) || (t.Reading? && e == ReadEntry(w, t.x))
    ensures var log := w.seen.executed + [e];
            && CheckedPromo(log, a)
                 <= CheckedPromo(w.seen.executed, a) + (if Promoting(w.config, t, a) then 1 else 0)
            && PromoCountsOf(log, a).nonPromo >= PromoCountsOf(w.seen.executed, a).nonPromo
  {
    PromoAppend(w.seen.executed, e, a);
  }

  lemma ReturnStaysCovered(w: World, b: Block, a: Id, overlap: int)
    requires EndingOk(w, b) && (b.ending.Returning? || b.ending.ReadReturning?)
    requires Covered(w.config, w.seen.executed, w.tasks, a, overlap)
    ensures Covered(w.config, Logged(w.seen.executed, Entry(w, b)), TasksAfter(w, b), a, overlap)
  {
    var e := if b.ending.Returning? then ExecutedBy(w, b.ending.x) else ReadEntry(w, b.ending.x);
    EndedFlight(w.config, w.tasks, b.ending.client, a);
    PromotesInFlight(w, w.tasks[b.ending.client], e, a);
  }

  lemma CloseKeeps(w: World, b: Block, a: Id, overlap: int)
    requires PromoAgrees(w, a) && Prepared(w, b) && PromoInv(w, a, overlap) && OnReddit(b.world.accounts, a)
    requires |PromoFlight(w.config, Close(b).tasks, a)| <= overlap
    ensures PromoInv(Close(b), a, overlap)
  {
    CloseAdvances(w, b);
    match b.ending {
      case Launching(_, _) => LaunchStaysCovered(w, b, a, overlap);
      case Returning(_, _, _) => ReturnStaysCovered(w, b, a, overlap);
      case ReadReturning(_, _) => ReturnStaysCovered(w, b, a, overlap);
      case _ => FlightKept(w.config, w.tasks, b.world.tasks, a);
    }
  }

  /** Only saving an account writes the account table. */
  lemma AccountsAreSaved(w: World, c: Command)
    requires Enabled(w, c) && !c.SaveAccount?
    ensures Perform(w, c).world.accounts == w.accounts
  {
    if c.DecideApproval? {
      DecisionsSaveNoAccount(w, c.client, c.approvalId, c.decision, c.actor, c.reason);
    } else if c.TargetResolved? {
      ResolutionsSaveNoAccount(w, c);
    }
  }

  lemma ResolutionsSaveNoAccount(w: World, c: Command)
    requires Enabled(w, c) && c.TargetResolved?
    ensures Perform(w, c).world.accounts == w.accounts
  {
  }

  lemma DecisionsSaveNoAccount(w: World, client: nat, approvalId: Id, decision: ReviewDecision, actor: string,
                               reason: Option<string>)
    ensures Decide(w, client, approvalId, decision, actor, reason).world.accounts == w.accounts
  {
  }

  // ---- runs ----

  /** Every version of the account that is saved is a Reddit account; its overrides and domains are arbitrary. */
  ghost predicate SavedOnReddit(commands: seq<Command>, a: Id) {
    forall i :: 0 <= i < |commands| && commands[i].SaveAccount? && commands[i].account.id == a ==>
      commands[i].account.platform == Reddit
  }

  ghost predicate OverlapWithin(w: World, commands: seq<Command>, a: Id, overlap: int) {
    forall n :: 0 <= n <= |commands| ==> |PromoFlight(w.config, Run(w, commands[..n]).tasks, a)| <= overlap
  }

  lemma OverlapEarlier(w: World, commands: seq<Command>, a: Id, overlap: int)
    requires commands != [] && OverlapWithin(w, commands, a, overlap)
    ensures OverlapWithin(w, commands[..|commands| - 1], a, overlap)
    ensures |PromoFlight(w.config, Run(w, commands).tasks, a)| <= overlap
  {
    var earlier := commands[..|commands| - 1];
    forall n | 0 <= n <= |earlier|
      ensures |PromoFlight(w.config, Run(w, earlier[..n]).tasks, a)| <= overlap
    {
      assert earlier[..n] == commands[..n];
    }
    assert commands[..|commands|] == commands;
  }

  lemma {:induction false} RunKeepsPromo(w: World, commands: seq<Command>, a: Id, overlap: int)
    requires Wf(w) && ConservationInv(w) && PromoInv(w, a, overlap)
    requires SavedOnReddit(commands, a) && OverlapWithin(w, commands, a, overlap)
    ensures PromoInv(Run(w, commands), a, overlap)
    ensures Run(w, commands).config == w.config
  {
    if commands != [] {
      var earlier, c := commands[..|commands| - 1], commands[|commands| - 1];
      OverlapEarlier(w, commands, a, overlap);
      RunKeepsPromo(w, earlier, a, overlap);
      RunKeepsWf(w, earlier);
      Conservation.RunKeeps(w, earlier);
      var r := Run(w, earlier);
      if Enabled(r, c) {
        var u := r.(now := c.now);
        NowKeepsWf(r, c.now);
        BlockPrepared(u, c);
        if !c.SaveAccount? {
          AccountsAreSaved(u, c);
        }
        assert PromoAgrees(r, a);
        CloseKeeps(u, Perform(u, c), a, overlap);
        CloseAdvances(u, Perform(u, c));
      }
    }
  }

  /**
   * Whatever happens to overrides and owned domains between calls: with at most `overlap` checked promotional
   * executions in flight, a Reddit account's ledger satisfies nine times promotional (approved ones aside) at
   * most ordinary, plus nine for each overlapping call. Without overlap the ratio holds exactly.
   */
  lemma RatioHolds(config: Config, start: Time, commands: seq<Command>, w: World, a: Id, overlap: int)
    requires w == Run(Initial(config, start), commands) && overlap >= 1 && SavedOnReddit(commands, a)
    requires OverlapWithin(Initial(config, start), commands, a, overlap)
    ensures RATIO * (w.trackers.PromoOf(a).promo - ApprovedPromo(w.seen.executed, a))
              <= w.trackers.PromoOf(a).nonPromo + RATIO * (overlap - 1)
  {
    InitialWf(config, start);
    RunKeepsPromo(Initial(config, start), commands, a, overlap);
    Conservation.RunKeeps(Initial(config, start), commands);
    PromoSplits(w.seen.executed, a);
    assert PromoAgrees(w, a);
  }
}

/** The coordination bound: how many of the pool's accounts can pile onto one target within the window. */
module CoordinationBound {
  import opened Domain
  import opened Trackers
  import opened Guards
  import opened ActionModel
  import opened Structure
  import opened Conservation
  import opened Flights

  /** A guard-checked hit on the target within the closed window that ends at `to`. */
  predicate Hits(e: Executed, key: string, to: Time) {
    e.checkedHit && e.hit == Some(key) && to - COORDINATION_WINDOW <= e.at <= to
  }

  function Actors(log: seq<Executed>, key: string, to: Time): set<Id> {
    set e | e in log && Hits(e, key, to) :: e.account
  }

  /** An execution whose request the coordination guard let through. */
  predicate Flying(t: Task, key: string) {
    t.Running? && t.x.via == Submitted && HitKey(t.x) == Some(key) && !t.x.target.value.isOwned
  }

  function HitFlight(tasks: map<nat, Task>, key: string): set<nat> {
    set c | c in tasks && Flying(tasks[c], key)
  }

  function AccountsOf(tasks: map<nat, Task>, clients: set<nat>): set<Id>
    requires forall c :: c in clients ==> c in tasks && tasks[c].Running?
  {
    set c | c in clients :: tasks[c].x.account.id
  }

  /** Everyone who acted on the target in the window that ends now, or may yet turn out to have. */
  function Crowd(log: seq<Executed>, tasks: map<nat, Task>, key: string, now: Time): set<Id> {
    Actors(log, key, now) + AccountsOf(tasks, HitFlight(tasks, key))
  }

  predicate Within(s: set<Id>, max: int, overlap: int) { s == {} || |s| <= max - 1 + overlap }

  ghost predicate HitInv(w: World, key: string, overlap: int) {
    && Timely(w)
    && Within(Crowd(w.seen.executed, w.tasks, key, w.now), w.config.maxDistinctAccounts, overlap)
    && forall t :: Within(Actors(w.seen.executed, key, t), w.config.maxDistinctAccounts, overlap)
  }

  // ---- sets ----

  lemma SmallerWithin(s: set<Id>, t: set<Id>, max: int, overlap: int)
    requires s <= t && Within(t, max, overlap)
    ensures Within(s, max, overlap)
  {
    SubsetSize(s, t);
  }

  lemma {:induction false} AccountsAreFewer(tasks: map<nat, Task>, clients: set<nat>)
    requires forall c :: c in clients ==> c in tasks && tasks[c].Running?
    ensures |AccountsOf(tasks, clients)| <= |clients|
  {
    if clients != {} {
      var c :| c in clients;
      AccountsAreFewer(tasks, clients - {c});
      assert AccountsOf(tasks, clients) == AccountsOf(tasks, clients - {c}) + {tasks[c].x.account.id};
    }
  }

  // ---- windows ----

  lemma ActorsAppend(log: seq<Executed>, e: Executed, key: string, to: Time)
    ensures Actors(log + [e], key, to) == Actors(log, key, to) + if Hits(e, key, to) then {e.account} else {}
  {
    assert forall d :: d in log + [e] <==> d in log || d == e;
  }

  lemma LaterActors(log: seq<Executed>, key: string, now: Time, t: Time)
    requires now <= t && forall i :: 0 <= i < |log| ==> log[i].at <= now
    ensures Actors(log, key, t) <= Actors(log, key, now)
  {
    forall e | e in log && Hits(e, key, t)
      ensures Hits(e, key, now)
    {
    }
  }

  /** The tracker's list also holds owned and approved hits, so it shows no fewer accounts. */
  lemma {:induction false} ActorsAreRecorded(log: seq<Executed>, key: string, to: Time)
    ensures Actors(log, key, to) <= Who(Since(HitLogOf(log, key), to - COORDINATION_WINDOW))
  {
    if log != [] {
      var e, earlier := log[|log| - 1], log[..|log| - 1];
      ActorsAreRecorded(earlier, key, to);
      assert log == earlier + [e];
      ActorsAppend(earlier, e, key, to);
      if e.hit == Some(key) {
        SinceAppend(HitLogOf(earlier, key), Hit(e.account, e.at), to - COORDINATION_WINDOW);
        RecordedActors(HitLogOf(earlier, key), Hit(e.account, e.at), to - COORDINATION_WINDOW);
      } else {
        assert HitLogOf(log, key) == HitLogOf(earlier, key) + [] == HitLogOf(earlier, key);
      }
    }
  }

  lemma RecordedActors(log: Log, h: Hit, cutoff: Time)
    ensures Who(Since(log, cutoff)) <= Who(Since(log + [h], cutoff))
    ensures h.at >= cutoff ==> h.who in Who(Since(log + [h], cutoff))
  {
    SinceAppend(log, h, cutoff);
    forall x | x in Since(log, cutoff)
      ensures x in Since(log + [h], cutoff)
    {
    }
    if h.at >= cutoff {
      assert h in Since(log + [h], cutoff);
    }
  }

  // ---- the guard ----

  predicate HitsAgree(w: World, key: string) {
    w.trackers.coordination.Of(key) == HitLogOf(w.seen.executed, key)
  }

  /** The guard let this many accounts, the newcomer included, onto the target. */
  predicate Uncrowded(recorded: Log, a: Id, max: int, now: Time) {
    !WouldCoordinate(recorded, a, max, now, COORDINATION_WINDOW)
  }

  lemma PassedIsUncrowded(c: GuardContext, t: TrackerState)
    requires EvaluateAll(c, t).outcome != Deny && IsWrite(c.verb) && !c.OwnedTarget() && c.Key() != ""
    ensures Uncrowded(t.coordination.Of(c.Key()), c.account.id, c.config.maxDistinctAccounts, c.now)
  {
    NotDenied(c, t, Coordination);
  }

  lemma UncrowdedActors(log: seq<Executed>, key: string, a: Id, max: int, now: Time)
    requires Uncrowded(HitLogOf(log, key), a, max, now)
    ensures |Actors(log, key, now) + {a}| <= max
  {
    ActorsAreRecorded(log, key, now);
    SubsetSize(Actors(log, key, now) + {a}, Who(Since(HitLogOf(log, key), now - COORDINATION_WINDOW)) + {a});
  }

  lemma FlyingContext(w: World, x: Execution, token: Option<string>, key: string)
    requires Flying(Running(x), key)
    ensures var c := ContextFor(w, x, token); IsWrite(c.verb) && !c.OwnedTarget() && c.Key() == key && key != ""
  {
    assert |key| > 0;
  }

  /** A checked launch joins at most the configured number of accounts on its target. */
  lemma LaunchIsUncrowded(w: World, b: Block, key: string)
    requires HitsAgree(w, key) && Prepared(w, b) && b.ending.Launching? && Flying(Running(b.ending.x), key)
    ensures |Actors(w.seen.executed, key, w.now) + {b.ending.x.account.id}| <= w.config.maxDistinctAccounts
  {
    var x := b.ending.x;
    var token: Option<string> :| EvaluateAll(ContextFor(w, x, token), w.trackers).outcome == Allow;
    FlyingContext(w, x, token, key);
    PassedIsUncrowded(ContextFor(w, x, token), w.trackers);
    UncrowdedActors(w.seen.executed, key, x.account.id, w.config.maxDistinctAccounts, w.now);
  }

  // ---- steps ----

  lemma FlightKept(w: World, u: World, key: string)
    requires SameRunning(w.tasks, u.tasks)
    ensures HitFlight(u.tasks, key) == HitFlight(w.tasks, key)
    ensures AccountsOf(u.tasks, HitFlight(u.tasks, key)) == AccountsOf(w.tasks, HitFlight(w.tasks, key))
  {
    forall c
      ensures c in HitFlight(u.tasks, key) <==> c in HitFlight(w.tasks, key)
      ensures c in HitFlight(u.tasks, key) ==> u.tasks[c] == w.tasks[c]
    {
      assert c in w.tasks && w.tasks[c].Running? ==> c in u.tasks && u.tasks[c] == w.tasks[c];
      assert c in u.tasks && u.tasks[c].Running? ==> c in w.tasks && u.tasks[c] == w.tasks[c];
    }
  }

  lemma JoinedFlight(tasks: map<nat, Task>, client: nat, x: Execution, key: string)
    requires client !in tasks && Flying(Running(x), key)
    ensures var after := tasks[client := Running(x)];
            && HitFlight(after, key) == HitFlight(tasks, key) + {client}
            && AccountsOf(after, HitFlight(after, key)) == AccountsOf(tasks, HitFlight(tasks, key)) + {x.account.id}
  {
    var after := tasks[client := Running(x)];
    assert HitFlight(after, key) == HitFlight(tasks, key) + {client};
    forall c | c in HitFlight(tasks, key)
      ensures c != client && after[c] == tasks[c]
    {
    }
    assert after[client].x.account.id == x.account.id;
  }

  lemma JoinedSize(seen: set<Id>, a: Id, others: set<Id>, max: int, overlap: int)
    requires |seen + {a}| <= max && |others| <= overlap - 1
    ensures Within(seen + (others + {a}), max, overlap)
  {
    assert seen + (others + {a}) == (seen + {a}) + others;
  }

  /** The newcomer adds itself to whom the guard saw; the others in flight are fewer than `overlap`. */
  lemma JoinedCrowd(log: seq<Executed>, tasks: map<nat, Task>, client: nat, x: Execution, key: string, now: Time,
                    max: int, overlap: int)
    requires client !in tasks && Flying(Running(x), key)
    requires |Actors(log, key, now) + {x.account.id}| <= max
    requires |HitFlight(tasks[client := Running(x)], key)| <= overlap
    ensures Within(Crowd(log, tasks[client := Running(x)], key, now), max, overlap)
  {
    JoinedFlight(tasks, client, x, key);
    AccountsAreFewer(tasks, HitFlight(tasks, key));
    JoinedSize(Actors(log, key, now), x.account.id, AccountsOf(tasks, HitFlight(tasks, key)), max, overlap);
  }

  lemma UncheckedLaunch(tasks: map<nat, Task>, client: nat, x: Execution, key: string)
    requires client !in tasks && !Flying(Running(x), key)
    ensures var after := tasks[client := Running(x)];
            && HitFlight(after, key) == HitFlight(tasks, key)
            && AccountsOf(after, HitFlight(after, key)) == AccountsOf(tasks, HitFlight(tasks, key))
  {
    forall c | c in HitFlight(tasks, key)
      ensures tasks[client := Running(x)][c] == tasks[c]
    {
    }
  }

  lemma StagedKeepsActors(w: World, x: Execution, key: string)
    requires TransportOf(x) == Staged
    ensures Actors(w.seen.executed + [ExecutedBy(w, x)], key, w.now) == Actors(w.seen.executed, key, w.now)
  {
    ActorsAppend(w.seen.executed, ExecutedBy(w, x), key, w.now);
  }

  lemma CheckedLaunchKeepsCrowd(w: World, b: Block, key: string, overlap: int)
    requires HitsAgree(w, key) && Prepared(w, b) && b.ending.Launching? && Flying(Running(b.ending.x), key)
    requires TransportOf(b.ending.x) == Live && |HitFlight(TasksAfter(w, b), key)| <= overlap
    ensures Within(Crowd(w.seen.executed, TasksAfter(w, b), key, w.now), w.config.maxDistinctAccounts, overlap)
  {
    LaunchIsUncrowded(w, b, key);
    JoinedCrowd(w.seen.executed, b.world.tasks, b.ending.client, Started(b.ending.x), key, w.now,
                w.config.maxDistinctAccounts, overlap);
  }

  lemma LaunchKeepsCrowd(w: World, b: Block, key: string, overlap: int)
    requires HitsAgree(w, key) && Prepared(w, b) && b.ending.Launching?
    requires Within(Crowd(w.seen.executed, w.tasks, key, w.now), w.config.maxDistinctAccounts, overlap)
    requires |HitFlight(TasksAfter(w, b), key)| <= overlap
    ensures Within(Crowd(Logged(w.seen.executed, Entry(w, b)), TasksAfter(w, b), key, w.now),
                   w.config.maxDistinctAccounts, overlap)
  {
    var x, client := b.ending.x, b.ending.client;
    FlightKept(w, b.world, key);
    if TransportOf(x) == Staged {
      StagedKeepsActors(w, x, key);
    } else if Flying(Running(x), key) {
      CheckedLaunchKeepsCrowd(w, b, key, overlap);
    } else {
      UncheckedLaunch(b.world.tasks, client, Started(x), key);
    }
  }

  /** A returning execution's account was in the crowd already. */
  lemma ReturnKeepsCrowd(w: World, b: Block, key: string)
    requires Prepared(w, b) && (b.ending.Returning? || b.ending.ReadReturning?)
    ensures Crowd(Logged(w.seen.executed, Entry(w, b)), TasksAfter(w, b), key, w.now)
         <= Crowd(w.seen.executed, w.tasks, key, w.now)
  {
    var client, e := b.ending.client, Entry(w, b);
    assert HitFlight(w.tasks - {client}, key) == HitFlight(w.tasks, key) - {client};
    if e.Some? {
      ActorsAppend(w.seen.executed, e.value, key, w.now);
      if Hits(e.value, key, w.now) {
        assert client in HitFlight(w.tasks, key);
      }
    }
  }

  lemma CloseKeepsCrowd(w: World, b: Block, key: string, overlap: int)
    requires HitsAgree(w, key) && Prepared(w, b)
    requires Within(Crowd(w.seen.executed, w.tasks, key, w.now), w.config.maxDistinctAccounts, overlap)
    requires |HitFlight(TasksAfter(w, b), key)| <= overlap
    ensures Within(Crowd(Logged(w.seen.executed, Entry(w, b)), TasksAfter(w, b), key, w.now),
                   w.config.maxDistinctAccounts, overlap)
  {
    match b.ending {
      case Launching(_, _) => LaunchKeepsCrowd(w, b, key, overlap);
      case Returning(_, _, _) =>
        ReturnKeepsCrowd(w, b, key);
        SmallerWithin(Crowd(Logged(w.seen.executed, Entry(w, b)), TasksAfter(w, b), key, w.now),
                      Crowd(w.seen.executed, w.tasks, key, w.now), w.config.maxDistinctAccounts, overlap);
      case ReadReturning(_, _) =>
        ReturnKeepsCrowd(w, b, key);
        SmallerWithin(Crowd(Logged(w.seen.executed, Entry(w, b)), TasksAfter(w, b), key, w.now),
                      Crowd(w.seen.executed, w.tasks, key, w.now), w.config.maxDistinctAccounts, overlap);
      case _ => FlightKept(w, b.world, key);
    }
  }

  lemma WindowsKept(log: seq<Executed>, e: Option<Executed>, now: Time, key: string, max: int, overlap: int)
    requires forall t :: Within(Actors(log, key, t), max, overlap)
    requires Within(Actors(Logged(log, e), key, now), max, overlap)
    requires e.Some? ==> e.value.at == now
    requires forall i :: 0 <= i < |log| ==> log[i].at <= now
    ensures forall t :: Within(Actors(Logged(log, e), key, t), max, overlap)
  {
    forall t
      ensures Within(Actors(Logged(log, e), key, t), max, overlap)
    {
      if t >= now {
        LaterActors(Logged(log, e), key, now, t);
        SmallerWithin(Actors(Logged(log, e), key, t), Actors(Logged(log, e), key, now), max, overlap);
      } else if e.Some? {
        ActorsAppend(log, e.value, key, t);
      }
    }
  }

  lemma ClockKeepsHits(w: World, now: Time, key: string, overlap: int)
    requires HitInv(w, key, overlap) && w.now <= now
    ensures HitInv(w.(now := now), key, overlap)
  {
    LaterActors(w.seen.executed, key, w.now, now);
    SmallerWithin(Crowd(w.seen.executed, w.tasks, key, now), Crowd(w.seen.executed, w.tasks, key, w.now),
                  w.config.maxDistinctAccounts, overlap);
  }

  lemma CloseKeeps(w: World, b: Block, key: string, overlap: int)
    requires HitsAgree(w, key) && Prepared(w, b) && HitInv(w, key, overlap)
    requires |HitFlight(Close(b).tasks, key)| <= overlap
    ensures HitInv(Close(b), key, overlap)
  {
    CloseAdvances(w, b);
    StaysTimely(w, b);
    CloseKeepsCrowd(w, b, key, overlap);
    var log := Logged(w.seen.executed, Entry(w, b));
    SmallerWithin(Actors(log, key, w.now), Crowd(log, TasksAfter(w, b), key, w.now), w.config.maxDistinctAccounts,
                  overlap);
    WindowsKept(w.seen.executed, Entry(w, b), w.now, key, w.config.maxDistinctAccounts, overlap);
  }

  // ---- runs ----

  /** Nowhere in the run do more than `overlap` checked executions on the target wait together. */
  ghost predicate OverlapWithin(w: World, commands: seq<Command>, key: string, overlap: int) {
    forall n :: 0 <= n <= |commands| ==> |HitFlight(Run(w, commands[..n]).tasks, key)| <= overlap
  }

  lemma OverlapEarlier(w: World, commands: seq<Command>, key: string, overlap: int)
    requires commands != [] && OverlapWithin(w, commands, key, overlap)
    ensures OverlapWithin(w, commands[..|commands| - 1], key, overlap)
    ensures |HitFlight(Run(w, commands).tasks, key)| <= overlap
  {
    var earlier := commands[..|commands| - 1];
    forall n | 0 <= n <= |earlier|
      ensures |HitFlight(Run(w, earlier[..n]).tasks, key)| <= overlap
    {
      assert earlier[..n] == commands[..n];
    }
    assert commands[..|commands|] == commands;
  }

  lemma {:induction false} RunKeepsHits(w: World, commands: seq<Command>, key: string, overlap: int)
    requires Wf(w) && ConservationInv(w) && HitInv(w, key, overlap)
    requires OverlapWithin(w, commands, key, overlap)
    ensures HitInv(Run(w, commands), key, overlap)
    ensures Run(w, commands).config == w.config
  {
    if commands != [] {
      var earlier, c := commands[..|commands| - 1], commands[|commands| - 1];
      OverlapEarlier(w, commands, key, overlap);
      RunKeepsHits(w, earlier, key, overlap);
      RunKeepsWf(w, earlier);
      Conservation.RunKeeps(w, earlier);
      var r := Run(w, earlier);
      if Enabled(r, c) {
        var u := r.(now := c.now);
        NowKeepsWf(r, c.now);
        ClockKeepsHits(r, c.now, key, overlap);
        BlockPrepared(u, c);
        assert HitsAgree(r, key);
        CloseKeeps(u, Perform(u, c), key, overlap);
        CloseAdvances(u, Perform(u, c));
      }
    }
  }

  /**
   * With at most `overlap` checked executions in flight, every closed 300-second window holds checked hits
   * of at most `max - 1 + overlap` accounts on the target, although unchecked hits share the tracker's list.
   */
  lemma CoordinationIsBounded(config: Config, start: Time, commands: seq<Command>, w: World, key: string, overlap: int,
                              t: Time)
    requires w == Run(Initial(config, start), commands)
    requires OverlapWithin(Initial(config, start), commands, key, overlap)
    ensures Within(Actors(w.seen.executed, key, t), config.maxDistinctAccounts, overlap)
  {
    InitialWf(config, start);
    RunKeepsHits(Initial(config, start), commands, key, overlap);
  }
}

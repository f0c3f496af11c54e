/**
 * The lock and account services as clients of the interleaving: what one uninterrupted call does is a `Begin` and
 * its `Finish`, so the theorems about runs are about the tables that the services write.
 */
module LifecycleRefinement {
  import opened Domain
  import opened AccountStore
  import opened Lifecycle
  import opened Contention
  import opened Interleaving

  /** Nobody else is using the client's name or, for a checkout, its token. */
  predicate MayBegin(s: System, client: nat, op: Operation) {
    client !in s.clients && (op.Checkout? ==> op.token !in s.tokens)
  }

  function Call(at: Time, client: nat, id: Id, op: Operation): seq<Event> {
    [Begin(at, client, id, op), Finish(at, client)]
  }

  lemma CallIsTwoSteps(s: System, at: Time, client: nat, id: Id, op: Operation)
    ensures Run(s, Call(at, client, id, op)) == Step(Step(s, Begin(at, client, id, op)), Finish(at, client))
  {
    RunAppend(s, [], Begin(at, client, id, op));
    RunAppend(s, [Begin(at, client, id, op)], Finish(at, client));
    assert [] + [Begin(at, client, id, op)] == [Begin(at, client, id, op)];
    assert Call(at, client, id, op) == [Begin(at, client, id, op)] + [Finish(at, client)];
  }

  lemma {:induction false} RunsCompose(s: System, first: seq<Event>, second: seq<Event>)
    ensures Run(s, first + second) == Run(Run(s, first), second)
  {
    if second == [] {
      assert first + second == first;
    } else {
      var init := second[..|second| - 1];
      RunsCompose(s, first, init);
      assert (first + second)[..|first + second| - 1] == first + init;
    }
  }

  /** A call that is not permitted never begins, and its finish finds nothing to resume. */
  lemma UnpermittedCall(s: System, at: Time, client: nat, id: Id, op: Operation)
    requires s.now <= at && MayBegin(s, client, op)
    requires id !in s.table || !Permitted(op, s.table[id].data, at)
    ensures Step(Step(s, Begin(at, client, id, op)), Finish(at, client)) == s.(now := at)
  {
  }

  lemma PermittedCall(s: System, at: Time, client: nat, id: Id, op: Operation)
    requires s.now <= at && MayBegin(s, client, op) && WellFormed(s.table)
    requires id in s.table && Permitted(op, s.table[id].data, at)
    ensures var t := Step(Step(s, Begin(at, client, id, op)), Finish(at, client));
            var was := s.table[id].data;
            && t.table == s.table[id := RowOf(Bumped(Apply(op, was, at), was.version))]
            && t.log == s.log + [Wrote(id, op, at, was, t.table[id].data)]
            && t.clients == s.clients
  {
    assert s.table[id].data.id == id;
    assert s.clients[client := InFlight(op, at, s.table[id].data)] - {client} == s.clients;
  }

  /**
   * A method that performs an operation takes the store where the interleaving takes it, and logs it if and only
   * if it reports success.
   */
  lemma PerformedIsACall(s: System, after: Table, at: Time, client: nat, id: Id, op: Operation, r: Reply)
    requires s.now <= at && MayBegin(s, client, op) && WellFormed(s.table)
    requires Performed(s.table, after, id, op, at, r)
    ensures var t := Run(s, Call(at, client, id, op));
            && t.table == after && t.clients == s.clients
            && t.log == if r.Ok? then s.log + [Wrote(id, op, at, s.table[id].data, r.account)] else s.log
  {
    CallIsTwoSteps(s, at, client, id, op);
    if id in s.table && Permitted(op, s.table[id].data, at) {
      PermittedCall(s, at, client, id, op);
    } else {
      UnpermittedCall(s, at, client, id, op);
    }
  }

  /** So a repository that shows a run's table shows a longer run's table after any such method. */
  lemma MethodExtendsRun(events: seq<Event>, before: Table, after: Table, at: Time, client: nat, id: Id, op: Operation,
                         r: Reply)
    requires before == Run(EMPTY, events).table && Run(EMPTY, events).now <= at
    requires MayBegin(Run(EMPTY, events), client, op) && Performed(before, after, id, op, at, r)
    ensures var t := Run(EMPTY, events + Call(at, client, id, op));
            after == t.table && Chain(t.log) && (id in after ==> after[id].version == Entries(t.log, id))
  {
    NoLostUpdate(events);
    PerformedIsACall(Run(EMPTY, events), after, at, client, id, op, r);
    RunsCompose(EMPTY, events, Call(at, client, id, op));
    NoLostUpdate(events + Call(at, client, id, op));
  }

  /** The methods that resume after an await are the finish of the call that began with their snapshot. */
  lemma ResumptionIsAFinish(s: System, at: Time, client: nat, after: Table)
    requires client in s.clients && s.now <= at
    requires var f := s.clients[client]; after == Cas(s.table, Apply(f.op, f.snapshot, f.at), f.snapshot.version)
    ensures Step(s, Finish(at, client)).table == after
  {
  }

  lemma FinishCommitsOnSnapshot(s: System, at: Time, client: nat)
    requires SnapshotInv(s) && WellFormed(s.table) && client in s.clients && s.now <= at
    ensures var f, t := s.clients[client], Step(s, Finish(at, client));
            && f.snapshot.id in s.table
            && if s.table[f.snapshot.id].data == f.snapshot
               then t.log != s.log && t.table
                    == s.table[f.snapshot.id := RowOf(Bumped(Apply(f.op, f.snapshot, f.at), f.snapshot.version))]
               else t.log == s.log && t.table == s.table
  {
    CommitHitsSnapshot(s, client);
  }

  /**
   * So a method that resumes on the snapshot of a waiting call extends the run too: it commits exactly where the row
   * is still the snapshot, and then the next version is the operation applied to it.
   */
  lemma ResumptionExtendsRun(events: seq<Event>, at: Time, client: nat, after: Table)
    requires var s := Run(EMPTY, events);
             && client in s.clients && s.now <= at
             && var f := s.clients[client]; after == Cas(s.table, Apply(f.op, f.snapshot, f.at), f.snapshot.version)
    ensures var s, t := Run(EMPTY, events), Run(EMPTY, events + [Finish(at, client)]);
            var f := s.clients[client];
            && after == t.table && Chain(t.log) && f.snapshot.id in s.table
            && if s.table[f.snapshot.id].data == f.snapshot
               then t.log != s.log && after
                    == s.table[f.snapshot.id := RowOf(Bumped(Apply(f.op, f.snapshot, f.at), f.snapshot.version))]
               else t.log == s.log && after == s.table
  {
    RunKeepsInv(EMPTY, events);
    NoLostUpdate(events + [Finish(at, client)]);
    RunAppend(EMPTY, events, Finish(at, client));
    ResumptionIsAFinish(Run(EMPTY, events), at, client, after);
    FinishCommitsOnSnapshot(Run(EMPTY, events), at, client);
  }

  /**
   * A round of `checkout` is a begin, other clients' commits, and its finish: `s` is where the round reads and
   * `u` where it writes.
   */
  lemma RoundIsACall(
    t: Table, after: Table, id: Id, holder: string, ttl: int, a: Attempt, r: Reply, s: System, u: System, client: nat)
    requires Filed(t, id) && Round(t, after, id, holder, ttl, a, r)
    requires s.table == ForeignCommits(t, id, a.before) && s.now <= a.at
    requires MayBegin(s, client, CheckoutAt(a, holder, ttl))
    requires var b := Step(s, Begin(a.at, client, id, CheckoutAt(a, holder, ttl)));
             client in b.clients ==>
               && client in u.clients && u.clients[client] == b.clients[client]
               && u.table == ForeignCommits(s.table, id, a.during)
    ensures var b := Step(s, Begin(a.at, client, id, CheckoutAt(a, holder, ttl)));
            if client in b.clients then Step(u, Finish(u.now, client)).table == after
            else after == b.table && r == LockHeld
  {
    ForeignCommitsCount(t, id, a.before);
    var b := Step(s, Begin(a.at, client, id, CheckoutAt(a, holder, ttl)));
    if client in b.clients {
      ForeignCommitsCount(s.table, id, a.during);
      ForeignCommitsCompose(t, id, a.before, a.during);
      RoundFinishes(t, after, id, holder, ttl, a, r, s, u, client);
    }
  }

  lemma RoundFinishes(
    t: Table, after: Table, id: Id, holder: string, ttl: int, a: Attempt, r: Reply, s: System, u: System, client: nat)
    requires id in t && Filed(s.table, id) && s.table == ForeignCommits(t, id, a.before)
    requires Round(t, after, id, holder, ttl, a, r)
    requires Permitted(CheckoutAt(a, holder, ttl), s.table[id].data, a.at)
    requires client in u.clients && u.clients[client] == InFlight(CheckoutAt(a, holder, ttl), a.at, s.table[id].data)
    requires u.table == ForeignCommits(s.table, id, a.during) == ForeignCommits(t, id, a.before + a.during)
    requires id in u.table && u.table[id].version == s.table[id].version + |a.during|
    ensures Step(u, Finish(u.now, client)).table == after
  {
    var written := Apply(CheckoutAt(a, holder, ttl), s.table[id].data, a.at);
    ResumptionIsAFinish(u, u.now, client, Cas(u.table, written, s.table[id].data.version));
    if a.during == [] {
      assert u.table == s.table;
    }
  }

  // ---- calls one after the other, all at instant 0 ----

  /** The account is stored like this, these tokens are handed out, and nothing is under way. */
  predicate Quiet(s: System, id: Id, a: Account, tokens: set<string>) {
    && s.now == 0 && s.clients == map[] && s.tokens == tokens
    && id in s.table && s.table[id].data == a && a.id == id
  }

  lemma CallMints(s: System, id: Id, op: Operation)
    requires s.now == 0 && MayBegin(s, 0, op) && id in s.table && Permitted(op, s.table[id].data, 0)
    ensures var t := Step(Step(s, Begin(0, 0, id, op)), Finish(0, 0));
            t.now == 0 && t.tokens == s.tokens + if op.Checkout? then {op.token} else {}
  {
  }

  lemma CallCommits(events: seq<Event>, id: Id, op: Operation, a: Account, tokens: set<string>)
    requires Quiet(Run(EMPTY, events), id, a, tokens) && Permitted(op, a, 0) && (op.Checkout? ==> op.token !in tokens)
    ensures var t := Run(EMPTY, events + Call(0, 0, id, op));
            && Quiet(t, id, Bumped(Apply(op, a, 0), a.version), tokens + if op.Checkout? then {op.token} else {})
            && t.table == Run(EMPTY, events).table[id := RowOf(Bumped(Apply(op, a, 0), a.version))]
  {
    var s := Run(EMPTY, events);
    NoLostUpdate(events);
    RunsCompose(EMPTY, events, Call(0, 0, id, op));
    CallIsTwoSteps(s, 0, 0, id, op);
    PermittedCall(s, 0, 0, id, op);
    CallMints(s, id, op);
  }

  lemma RegistrationCommits(a: Account)
    requires Newborn(a)
    ensures Quiet(Run(EMPTY, [Register(0, a)]), a.id, a, {})
    ensures Run(EMPTY, [Register(0, a)]).table == map[a.id := RowOf(a)]
  {
    assert [] + [Register(0, a)] == [Register(0, a)];
    RunAppend(EMPTY, [], Register(0, a));
  }

  const LEASE := Operation.Checkout("agent", "token", 10)

  const REACTIVATE := Operation.Patch("agent", "token", 3, PatchUpdates(None, None, None, None, None, Some(Active)))

  function RetiredAt2(a: Account): Account { a.(status := Retired, version := 2) }

  function Retirement(a: Account): seq<Event> { [Register(0, a)] + Call(0, 0, a.id, Operation.Retire) }

  lemma RetirementCommits(a: Account)
    requires Newborn(a)
    ensures Quiet(Run(EMPTY, Retirement(a)), a.id, RetiredAt2(a), {})
  {
    RegistrationCommits(a);
    CallCommits([Register(0, a)], a.id, Operation.Retire, a, {});
  }

  lemma ReactivationCommits(events: seq<Event>, a: Account)
    requires Quiet(Run(EMPTY, events), a.id, RetiredAt2(a), {}) && a.lock.None?
    ensures var t := Run(EMPTY, events + Call(0, 0, a.id, LEASE) + Call(0, 0, a.id, REACTIVATE));
            a.id in t.table && t.table[a.id].data.status == Active
  {
    var leased := Bumped(Apply(LEASE, RetiredAt2(a), 0), 2);
    CallCommits(events, a.id, LEASE, RetiredAt2(a), {});
    CallCommits(events + Call(0, 0, a.id, LEASE), a.id, REACTIVATE, leased, {"token"});
  }

  /** Suspension need not last: any retired account can be checked out and patched back to ACTIVE. */
  lemma SuspensionCanBeLifted(a: Account) returns (lifting: seq<Event>)
    requires Newborn(a)
    ensures var s := Run(EMPTY, Retirement(a)); a.id in s.table && s.table[a.id].data.status == Retired
    ensures var t := Run(EMPTY, Retirement(a) + lifting); a.id in t.table && t.table[a.id].data.status == Active
  {
    lifting := Call(0, 0, a.id, LEASE) + Call(0, 0, a.id, REACTIVATE);
    RetirementCommits(a);
    ReactivationCommits(Retirement(a), a);
    assert Retirement(a) + lifting == Retirement(a) + Call(0, 0, a.id, LEASE) + Call(0, 0, a.id, REACTIVATE);
  }
}

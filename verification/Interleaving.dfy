/**
 * Any number of clients interleave snapshot, await and conditional update over one account table.
 * Every operation of the lock and lifecycle services is a `Begin` (read and check) and, at any later
 * instant, a `Finish` (update) or an `Abandon` (its await raised).
 */
module Interleaving {
  import opened Domain
  import opened AccountStore
  import opened Lifecycle

  datatype InFlight = InFlight(op: Operation, at: Time, snapshot: Account)

  datatype LogEntry =
    | Registered(account: Account)
    | Wrote(id: Id, op: Operation, at: Time, before: Account, after: Account)

  datatype System = System(
    now: Time, table: Table, clients: map<nat, InFlight>, tokens: set<string>, log: seq<LogEntry>)

  datatype Event =
    | Register(now: Time, account: Account)
    | Begin(now: Time, client: nat, id: Id, op: Operation)
    | Finish(now: Time, client: nat)
    | Abandon(now: Time, client: nat)

  /** What `register` stores. */
  predicate Newborn(a: Account) {
    && a.version == 1 && a.lock.None? && a.status == Draft && a.connectionId.None?
    && a.authorization == Authorization(false, {}, None) && a.requiresApproval
    && a.health == HealthUnknown && a.compliance == Compliance(false, None)
    && a.overrides == Overrides(map[], false, false, None, false)
  }

  predicate Enabled(s: System, e: Event) {
    && s.now <= e.now
    && match e
       case Register(_, account) => account.id !in s.table && Newborn(account)
       case Begin(_, client, _, op) => client !in s.clients && (op.Checkout? ==> op.token !in s.tokens)
       case Finish(_, client) => client in s.clients
       case Abandon(_, client) => client in s.clients
  }

  function Start(s: System, client: nat, id: Id, op: Operation): System {
    if id in s.table && Permitted(op, s.table[id].data, s.now)
    then s.(clients := s.clients[client := InFlight(op, s.now, s.table[id].data)],
            tokens := s.tokens + if op.Checkout? then {op.token} else {})
    else s
  }

  function Complete(s: System, client: nat): System
    requires client in s.clients
  {
    var f := s.clients[client];
    var written := Apply(f.op, f.snapshot, f.at);
    var rest := s.(clients := s.clients - {client});
    if CasResult(s.table, written, f.snapshot.version) == Committed
    then rest.(table := Cas(s.table, written, f.snapshot.version),
               log := s.log + [Wrote(written.id, f.op, f.at, s.table[written.id].data,
                                     Bumped(written, f.snapshot.version))])
    else rest
  }

  /** Events that cannot happen in a state leave it as it is. */
  function Step(s: System, e: Event): System {
    if !Enabled(s, e) then s
    else
      var s := s.(now := e.now);
      match e
      case Register(_, account) =>
        s.(table := s.table[account.id := RowOf(account)], log := s.log + [Registered(account)])
      case Begin(_, client, id, op) => Start(s, client, id, op)
      case Finish(_, client) => Complete(s, client)
      case Abandon(_, client) => s.(clients := s.clients - {client})
  }

  function Run(s: System, events: seq<Event>): System {
    if events == [] then s else Step(Run(s, events[..|events| - 1]), events[|events| - 1])
  }

  const EMPTY := System(0, map[], map[], {}, [])

  // ---- the committed values of one account ----

  function Subject(e: LogEntry): Id { if e.Registered? then e.account.id else e.id }

  function Value(e: LogEntry): Account { if e.Registered? then e.account else e.after }

  /** The value that the last entry about `id` left behind. */
  function Latest(log: seq<LogEntry>, id: Id): Option<Account> {
    if log == [] then None
    else if Subject(log[|log| - 1]) == id then Some(Value(log[|log| - 1]))
    else Latest(log[..|log| - 1], id)
  }

  function Entries(log: seq<LogEntry>, id: Id): nat {
    if log == [] then 0
    else Entries(log[..|log| - 1], id) + if Subject(log[|log| - 1]) == id then 1 else 0
  }

  /**
   * Each write is one permitted operation applied to the value committed just before it, never to an
   * older one, and carries the next version number.
   */
  ghost predicate Chain(log: seq<LogEntry>) {
    log != [] ==>
      var last, earlier := log[|log| - 1], log[..|log| - 1];
      && Chain(earlier)
      && match last
         case Registered(account) => Latest(earlier, account.id).None? && Newborn(account)
         case Wrote(id, op, at, before, after) =>
           && Latest(earlier, id) == Some(before)
           && Permitted(op, before, at)
           && after == Bumped(Apply(op, before, at), before.version)
           && after.version == Entries(log, id)
  }

  ghost predicate TableInv(s: System) {
    && WellFormed(s.table)
    && Chain(s.log)
    && (forall id :: id in s.table ==> Latest(s.log, id) == Some(s.table[id].data))
    && (forall id :: id !in s.table ==> Latest(s.log, id).None?)
    && (forall id :: id in s.table ==> s.table[id].version == Entries(s.log, id))
  }

  /** A snapshot is never newer than the row, and one of the same version is the row. */
  ghost predicate SnapshotInv(s: System) {
    forall c :: c in s.clients ==>
      var f := s.clients[c];
      && f.at <= s.now && f.snapshot.id in s.table && Permitted(f.op, f.snapshot, f.at)
      && f.snapshot.version <= s.table[f.snapshot.id].version
      && (f.snapshot.version == s.table[f.snapshot.id].version ==> f.snapshot == s.table[f.snapshot.id].data)
  }

  predicate Mints(f: InFlight) { f.op.Checkout? }

  /** Tokens under way are used, pairwise different, and not yet on any row. */
  ghost predicate TokenInv(s: System) {
    && (forall id :: id in s.table && TokenOf(s.table[id].data).Some? ==> TokenOf(s.table[id].data).value in s.tokens)
    && (forall c :: c in s.clients && Mints(s.clients[c]) ==> s.clients[c].op.token in s.tokens)
    && (forall c, d :: c in s.clients && d in s.clients && c != d && Mints(s.clients[c]) && Mints(s.clients[d])
          ==> s.clients[c].op.token != s.clients[d].op.token)
    && (forall c, id :: c in s.clients && Mints(s.clients[c]) && id in s.table
          ==> TokenOf(s.table[id].data) != Some(s.clients[c].op.token))
  }

  ghost predicate Inv(s: System) { TableInv(s) && SnapshotInv(s) && TokenInv(s) }

  lemma Appended(log: seq<LogEntry>, e: LogEntry, id: Id)
    ensures Latest(log + [e], id) == if Subject(e) == id then Some(Value(e)) else Latest(log, id)
    ensures Entries(log + [e], id) == Entries(log, id) + if Subject(e) == id then 1 else 0
  {
    assert (log + [e])[..|log|] == log;
  }

  lemma {:induction false} NoEntries(log: seq<LogEntry>, id: Id)
    requires Latest(log, id).None?
    ensures Entries(log, id) == 0
  {
    if log != [] {
      NoEntries(log[..|log| - 1], id);
    }
  }

  /** An update that finds the expected version finds its own snapshot: compare-and-set on versions is exact. */
  lemma CommitHitsSnapshot(s: System, client: nat)
    requires SnapshotInv(s) && WellFormed(s.table) && client in s.clients
    ensures var f := s.clients[client];
            CasResult(s.table, Apply(f.op, f.snapshot, f.at), f.snapshot.version) == Committed
            <==> s.table[f.snapshot.id].data == f.snapshot
  {
  }

  /** Filing the value of a new entry that continues the chain keeps table and log in agreement. */
  lemma EntryKeepsTable(s: System, t: System, entry: LogEntry)
    requires TableInv(s) && Chain(s.log + [entry])
    requires t.log == s.log + [entry] && t.table == s.table[Subject(entry) := RowOf(Value(entry))]
    requires Value(entry).id == Subject(entry) && Value(entry).version == Entries(t.log, Subject(entry))
    ensures TableInv(t)
  {
    forall id
      ensures id in t.table ==> Latest(t.log, id) == Some(t.table[id].data) && t.table[id].version == Entries(t.log, id)
      ensures id !in t.table ==> Latest(t.log, id).None?
    {
      Appended(s.log, entry, id);
    }
  }

  /** A new entry continues the chain: a first value, or an operation on the latest one. */
  lemma EntryContinuesChain(s: System, e: Event)
    requires Inv(s) && |Step(s, e).log| > |s.log|
    ensures var t := Step(s, e);
            var entry := t.log[|s.log|];
            && t.log == s.log + [entry] && t.table == s.table[Subject(entry) := RowOf(Value(entry))]
            && Value(entry).id == Subject(entry) && Value(entry).version == Entries(s.log, Subject(entry)) + 1
            && (if entry.Registered? then Latest(s.log, Subject(entry)).None? && Newborn(entry.account)
                else Latest(s.log, entry.id) == Some(entry.before) && Permitted(entry.op, entry.before, entry.at)
                     && entry.after == Bumped(Apply(entry.op, entry.before, entry.at), entry.before.version))
  {
    if e.Register? {
      NoEntries(s.log, e.account.id);
    } else {
      CommitHitsSnapshot(s, e.client);
    }
  }

  lemma TableStep(s: System, e: Event)
    requires Inv(s)
    ensures TableInv(Step(s, e))
  {
    var t := Step(s, e);
    if |t.log| > |s.log| {
      var entry := t.log[|s.log|];
      EntryContinuesChain(s, e);
      Appended(s.log, entry, Subject(entry));
      assert t.log[..|t.log| - 1] == s.log;
      EntryKeepsTable(s, t, entry);
    }
  }

  lemma BeginTakesSnapshot(s: System, e: Event)
    requires SnapshotInv(s) && WellFormed(s.table) && Enabled(s, e) && e.Begin?
    ensures SnapshotInv(Step(s, e))
  {
  }

  lemma SnapshotStep(s: System, e: Event)
    requires Inv(s)
    ensures SnapshotInv(Step(s, e))
  {
    if Enabled(s, e) {
      match e {
        case Begin(_, _, _, _) => BeginTakesSnapshot(s, e);
        case Finish(_, _) =>
          FinishRenumbers(s, e);
          RowsOnlyAge(s, Step(s, e));
        case _ => RowsOnlyAge(s, Step(s, e));
      }
    }
  }

  lemma FinishRenumbers(s: System, e: Event)
    requires TableInv(s) && SnapshotInv(s) && Enabled(s, e) && e.Finish?
    ensures var t := Step(s, e);
            forall id :: id in s.table ==>
              id in t.table && (t.table[id] == s.table[id] || t.table[id].version == s.table[id].version + 1)
  {
    CommitHitsSnapshot(s, e.client);
  }

  /** Snapshots outlive any change of the table that renumbers the rows it changes. */
  lemma RowsOnlyAge(s: System, t: System)
    requires SnapshotInv(s) && s.now <= t.now
    requires forall c :: c in t.clients ==> c in s.clients && t.clients[c] == s.clients[c]
    requires forall id :: id in s.table ==>
               id in t.table && (t.table[id] == s.table[id] || t.table[id].version == s.table[id].version + 1)
    ensures SnapshotInv(t)
  {
  }

  /** The token `a` carries, if it is locked at all. */
  function TokenOf(a: Account): Option<string> {
    if a.lock.Some? then Some(a.lock.value.token) else None
  }

  /** A write leaves no lock, the token that was there, or the token its own checkout minted. */
  lemma TokenOfWrite(op: Operation, a: Account, at: Time)
    requires Permitted(op, a, at)
    ensures var token := TokenOf(Apply(op, a, at));
            token == None || token == TokenOf(a) || (op.Checkout? && token == Some(op.token))
  {
  }

  lemma TokenStep(s: System, e: Event)
    requires Inv(s)
    ensures TokenInv(Step(s, e))
  {
    if Enabled(s, e) && e.Finish? {
      var f, t := s.clients[e.client], Step(s, e);
      TokenOfWrite(f.op, f.snapshot, f.at);
      CommitHitsSnapshot(s, e.client);
      FinishKeepsTokens(s, t, e.client);
    } else if Enabled(s, e) && e.Begin? {
      BeginKeepsTokens(s, e);
    }
  }

  lemma BeginKeepsTokens(s: System, e: Event)
    requires TokenInv(s) && Enabled(s, e) && e.Begin?
    ensures TokenInv(Step(s, e))
  {
  }

  lemma FinishKeepsTokens(s: System, t: System, client: nat)
    requires TokenInv(s) && client in s.clients && t.tokens == s.tokens && t.clients == s.clients - {client}
    requires forall id :: id in t.table ==>
      var token := TokenOf(t.table[id].data);
      || token == None
      || (id in s.table && token == TokenOf(s.table[id].data))
      || (Mints(s.clients[client]) && token == Some(s.clients[client].op.token))
    ensures TokenInv(t)
  {
  }

  lemma {:induction false} RunKeepsInv(s: System, events: seq<Event>)
    requires Inv(s)
    ensures Inv(Run(s, events))
    ensures s.now <= Run(s, events).now
  {
    if events != [] {
      var earlier, e := events[..|events| - 1], events[|events| - 1];
      RunKeepsInv(s, earlier);
      TableStep(Run(s, earlier), e);
      SnapshotStep(Run(s, earlier), e);
      TokenStep(Run(s, earlier), e);
    }
  }

  /**
   * No lost update, for every interleaving of any number of clients: the committed values of every account
   * form a chain of single operations, the table holds the last of them, and versions count them without gaps.
   */
  lemma NoLostUpdate(events: seq<Event>)
    ensures var s := Run(EMPTY, events);
            && Chain(s.log) && WellFormed(s.table)
            && forall id :: id in s.table ==>
                 Latest(s.log, id) == Some(s.table[id].data) && s.table[id].version == Entries(s.log, id)
  {
    RunKeepsInv(EMPTY, events);
  }

  /** Losing the race means someone else won it: the row is newer, and the loser changed nothing. */
  lemma LosersFollowWinners(events: seq<Event>, client: nat)
    requires client in Run(EMPTY, events).clients
    ensures var s := Run(EMPTY, events);
            var f, t := s.clients[client], Complete(s, client);
            && f.snapshot.id in s.table
            && (t.log == s.log ==> t.table == s.table && s.table[f.snapshot.id].version > f.snapshot.version)
            && (t.log != s.log ==>
                  && s.table[f.snapshot.id].data == f.snapshot
                  && t.table == s.table[f.snapshot.id := RowOf(Bumped(Apply(f.op, f.snapshot, f.at),
                                                                      f.snapshot.version))])
  {
    RunKeepsInv(EMPTY, events);
    CommitHitsSnapshot(Run(EMPTY, events), client);
  }

  // ---- facts about what a run adds to the log ----

  lemma LogGrowsByStep(s: System, e: Event)
    ensures s.log <= Step(s, e).log && |Step(s, e).log| <= |s.log| + 1
    ensures s.now <= Step(s, e).now
  {
  }

  lemma {:induction false} LogGrows(s: System, events: seq<Event>)
    ensures s.log <= Run(s, events).log
  {
    if events != [] {
      LogGrows(s, events[..|events| - 1]);
    }
  }

  /** What one step may do to the row of a registered account. */
  lemma RowStep(s: System, e: Event, id: Id)
    requires Inv(s) && id in s.table
    ensures var t := Step(s, e);
            && id in t.table
            && (t.table[id] != s.table[id] ==>
                  && |t.log| == |s.log| + 1 && t.log[|s.log|].Wrote? && Subject(t.log[|s.log|]) == id
                  && var w := t.log[|s.log|];
                     && w.before == s.table[id].data && t.table[id].data == w.after && w.at <= t.now
                     && Permitted(w.op, w.before, w.at)
                     && w.after == Bumped(Apply(w.op, w.before, w.at), w.before.version)
                     && (exists c :: c in s.clients && s.clients[c].op == w.op && s.clients[c].snapshot.id == id
                           && t.clients == s.clients - {c}))
  {
    if Enabled(s, e) && e.Finish? {
      CommitHitsSnapshot(s, e.client);
    }
  }

  // ---- leases ----

  predicate LockOperationOf(e: LogEntry, holder: string) {
    e.Wrote? && (e.op.Checkout? || e.op.Refresh? || e.op.Checkin?) && e.op.holder == holder
  }

  /** No lock operation of this agent on this account commits between `s` and `t`. */
  ghost predicate NoLockCommit(s: System, t: System, id: Id, agent: string) {
    forall i :: |s.log| <= i < |t.log| && Subject(t.log[i]) == id ==> !LockOperationOf(t.log[i], agent)
  }

  /** Until a lease expires, only its holder's lock operations change the lock. */
  lemma LockAfterWrite(op: Operation, a: Account, at: Time)
    requires Permitted(op, a, at) && a.lock.Some? && a.lock.value.IsActive(at)
    requires !((op.Checkout? || op.Refresh? || op.Checkin?) && op.holder == a.lock.value.holder)
    ensures Apply(op, a, at).lock == a.lock
  {
  }

  /** One step keeps an unexpired lease, unless what it logs is a lock operation of the holder. */
  lemma LeaseStep(s: System, e: Event, id: Id, lease: LockLease)
    requires Inv(s) && id in s.table && s.table[id].data.lock == Some(lease)
    requires Step(s, e).now < lease.expiresAt && NoLockCommit(s, Step(s, e), id, lease.holder)
    ensures var t := Step(s, e); id in t.table && t.table[id].data.lock == Some(lease)
  {
    var t := Step(s, e);
    RowStep(s, e, id);
    if t.table[id] != s.table[id] {
      var w := t.log[|s.log|];
      LockAfterWrite(w.op, w.before, w.at);
    }
  }

  /**
   * Lease safety: at every instant before its expiry, the row still holds exactly the committed lease,
   * whatever other agents' checkouts and all lifecycle writes did meanwhile, unless the holder's own
   * lock operation committed.
   */
  lemma {:induction false} LeaseSafety(s: System, events: seq<Event>, id: Id, lease: LockLease)
    requires Inv(s) && id in s.table && s.table[id].data.lock == Some(lease)
    requires Run(s, events).now < lease.expiresAt
    requires NoLockCommit(s, Run(s, events), id, lease.holder)
    ensures id in Run(s, events).table && Run(s, events).table[id].data.lock == Some(lease)
  {
    if events != [] {
      var earlier, e := events[..|events| - 1], events[|events| - 1];
      var r, t := Run(s, earlier), Run(s, events);
      LogGrows(s, earlier);
      LogGrowsByStep(r, e);
      assert r.log <= t.log;
      assert NoLockCommit(s, r, id, lease.holder) && NoLockCommit(r, t, id, lease.holder);
      RunKeepsInv(s, earlier);
      LeaseSafety(s, earlier, id, lease);
      LeaseStep(r, e, id, lease);
    }
  }

  // ---- fencing ----

  predicate Presents(op: Operation, token: string) {
    (op.Refresh? || op.Checkin? || op.Patch?) && op.token == token
  }

  /** `token` has been handed out, is no longer on the row, and no checkout under way can bring it. */
  ghost predicate Fenced(s: System, id: Id, token: string) {
    && token in s.tokens
    && id in s.table && TokenOf(s.table[id].data) != Some(token)
    && forall c :: c in s.clients && Mints(s.clients[c]) && s.clients[c].snapshot.id == id ==>
         s.clients[c].op.token != token
  }

  /** Every committed refresh, checkin or patch found its own token on the row it replaced. */
  lemma {:induction false} TokenHoldersCommit(log: seq<LogEntry>, i: nat, token: string)
    requires Chain(log) && i < |log| && log[i].Wrote? && Presents(log[i].op, token)
    ensures TokenOf(log[i].before) == Some(token) && Latest(log[..i], log[i].id) == Some(log[i].before)
  {
    if i < |log| - 1 {
      var earlier := log[..|log| - 1];
      TokenHoldersCommit(earlier, i, token);
      assert earlier[..i] == log[..i];
    }
  }

  /**
   * Every committed operation was entitled to its commit by the very row it replaced, at the instant it looked: a
   * checkout found no lease, an expired one or its own; a refresh or patch its own unexpired lease and token, a patch
   * also the version it expected; a checkin its own token.
   */
  lemma {:induction false} CommitsAreEntitled(log: seq<LogEntry>, i: nat)
    requires Chain(log) && i < |log| && log[i].Wrote?
    ensures var e := log[i];
            var lock := e.before.lock;
            && Latest(log[..i], e.id) == Some(e.before)
            && match e.op
               case Checkout(holder, _, _) => lock.None? || lock.value.expiresAt <= e.at || lock.value.holder == holder
               case Refresh(holder, token, _) =>
                 lock.Some? && lock.value.holder == holder && lock.value.token == token && e.at < lock.value.expiresAt
               case Checkin(holder, token) => lock.Some? && lock.value.holder == holder && lock.value.token == token
               case Patch(holder, token, expected, _) =>
                 && lock.Some? && lock.value.holder == holder && lock.value.token == token
                 && e.at < lock.value.expiresAt && e.before.version == expected
               case _ => true
  {
    if i < |log| - 1 {
      CommitsAreEntitled(log[..|log| - 1], i);
      assert log[..|log| - 1][..i] == log[..i];
    }
  }

  /** And an operation begins exactly when it is entitled to by the row as it is. */
  lemma BeginsExactlyWhenEntitled(s: System, e: Event)
    requires Enabled(s, e) && e.Begin?
    ensures e.client in Step(s, e).clients <==>
      && e.id in s.table
      && var a := s.table[e.id].data;
         match e.op
         case Checkout(holder, _, _) => a.lock.None? || e.now >= a.lock.value.expiresAt || a.lock.value.holder == holder
         case Refresh(holder, token, _) =>
           && a.lock.Some? && a.lock.value.holder == holder && a.lock.value.token == token
           && e.now < a.lock.value.expiresAt
         case Checkin(holder, token) => a.lock.Some? && a.lock.value.holder == holder && a.lock.value.token == token
         case Patch(holder, token, expected, _) =>
           && a.lock.Some? && a.lock.value.holder == holder && a.lock.value.token == token
           && e.now < a.lock.value.expiresAt && a.version == expected
         case _ => true
  {
  }

  /** A checkout that commits over a foreign lease fences that lease's token off. */
  lemma CheckoutFences(s: System, e: Event, id: Id, token: string)
    requires Inv(s) && id in s.table && TokenOf(s.table[id].data) == Some(token)
    requires var t := Step(s, e);
             && |t.log| > |s.log| && t.log[|s.log|].Wrote? && t.log[|s.log|].id == id
             && t.log[|s.log|].op.Checkout?
    ensures Fenced(Step(s, e), id, token)
  {
    CommitHitsSnapshot(s, e.client);
  }

  lemma FencedStep(s: System, e: Event, id: Id, token: string)
    requires Inv(s) && Fenced(s, id, token)
    ensures Fenced(Step(s, e), id, token)
    ensures NoPresentation(s, Step(s, e), id, token)
  {
    if Enabled(s, e) && e.Finish? {
      var f := s.clients[e.client];
      CommitHitsSnapshot(s, e.client);
      TokenOfWrite(f.op, f.snapshot, f.at);
    }
  }

  /** No operation presenting the token commits on this account between `s` and `t`. */
  ghost predicate NoPresentation(s: System, t: System, id: Id, token: string) {
    forall i :: |s.log| <= i < |t.log| && Subject(t.log[i]) == id && t.log[i].Wrote? ==> !Presents(t.log[i].op, token)
  }

  lemma NoPresentationLater(s: System, r: System, t: System, id: Id, token: string)
    requires s.log <= r.log <= t.log && NoPresentation(s, r, id, token) && NoPresentation(r, t, id, token)
    ensures NoPresentation(s, t, id, token)
  {
    forall i | |s.log| <= i < |t.log| && Subject(t.log[i]) == id && t.log[i].Wrote?
      ensures !Presents(t.log[i].op, token)
    {
      if i < |r.log| {
        assert r.log[i] == t.log[i];
      }
    }
  }

  /** A fenced token stays fenced, and no operation presenting it ever commits on that account again. */
  lemma {:induction false} FencedForever(s: System, events: seq<Event>, id: Id, token: string)
    requires Inv(s) && Fenced(s, id, token)
    ensures Fenced(Run(s, events), id, token) && NoPresentation(s, Run(s, events), id, token)
  {
    if events != [] {
      var earlier, e := events[..|events| - 1], events[|events| - 1];
      var r := Run(s, earlier);
      FencedForever(s, earlier, id, token);
      RunKeepsInv(s, earlier);
      LogGrows(s, earlier);
      LogGrowsByStep(r, e);
      FencedStep(r, e, id, token);
      NoPresentationLater(s, r, Step(r, e), id, token);
    }
  }

  // ---- lifecycle ----

  /** A status patch: the only operation that writes a status of the caller's choice. */
  predicate PatchesStatus(e: LogEntry) {
    e.Wrote? && e.op.Patch? && e.op.updates.status.Some?
  }

  /** Lifts the account out of suspension or retirement, whatever it was before. */
  predicate Reinstates(e: LogEntry) { PatchesStatus(e) && !Withheld(e.op.updates.status.value) }

  /** Sets a status that neither withholds the account nor is the one its connection and authorization call for. */
  predicate Misstates(e: LogEntry) {
    Reinstates(e) && e.op.updates.status.value != StatusFor(e.before)
  }

  /** Activates an account that is not both connected and authorized. */
  predicate Overactivates(e: LogEntry) {
    PatchesStatus(e) && e.op.updates.status.value == Active && StatusFor(e.before) != Active
  }

  /** Withheld, or exactly what connection and authorization call for. */
  predicate StatusLaw(a: Account) { Withheld(a.status) || a.status == StatusFor(a) }

  /** An active account is connected and effectively authorized. */
  predicate ActiveLaw(a: Account) {
    a.status == Active ==> a.connectionId.Some? && a.authorization.IsEffective()
  }

  /** What one write does to the three laws; only status patches can break any of them. */
  lemma StatusAfterWrite(op: Operation, a: Account, at: Time)
    ensures var r := Apply(op, a, at);
            if op.Patch? && op.updates.status.Some?
            then r.status == op.updates.status.value && StatusFor(r) == StatusFor(a)
            else
              && (Withheld(a.status) ==> Withheld(r.status))
              && (StatusLaw(a) ==> StatusLaw(r))
              && (ActiveLaw(a) ==> ActiveLaw(r))
              && (op.Revoke? || op.Retire? ==> Withheld(r.status))
  {
  }

  /** Every value committed for the account after the first `from` entries obeys the law. */
  ghost predicate Values(log: seq<LogEntry>, from: nat, id: Id, law: Account -> bool) {
    forall i :: from <= i < |log| && Subject(log[i]) == id ==> law(Value(log[i]))
  }

  ghost predicate NoEntry(log: seq<LogEntry>, from: nat, id: Id, bad: LogEntry -> bool) {
    forall i :: from <= i < |log| && Subject(log[i]) == id ==> !bad(log[i])
  }

  /** The entry is one permitted operation on the value before it. */
  predicate Lawful(e: LogEntry) {
    e.Wrote? ==> e.after == Bumped(Apply(e.op, e.before, e.at), e.before.version)
  }

  lemma {:induction false} ChainEntry(log: seq<LogEntry>, i: nat)
    requires Chain(log) && i < |log|
    ensures Lawful(log[i])
  {
    if i < |log| - 1 {
      ChainEntry(log[..|log| - 1], i);
    }
  }

  /** A law of single writes: it holds after every lawful write on a value that obeys it, bad ones aside. */
  ghost predicate Kept(law: Account -> bool, bad: LogEntry -> bool) {
    forall e: LogEntry | e.Wrote? && Lawful(e) && law(e.before) && !bad(e) :: law(e.after)
  }

  /** Along a chain, such a law holds of every value if no write is bad. */
  lemma {:induction false} GoodWritesKeep(log: seq<LogEntry>, from: nat, id: Id, law: Account -> bool,
                                          bad: LogEntry -> bool)
    requires Chain(log) && from <= |log| && NoEntry(log, from, id, bad) && Kept(law, bad)
    requires if Latest(log[..from], id).Some? then law(Latest(log[..from], id).value)
             else forall a :: Newborn(a) ==> law(a)
    ensures Values(log, from, id, law)
    ensures Latest(log, id).Some? ==> law(Latest(log, id).value)
    ensures Latest(log[..from], id).Some? ==> Latest(log, id).Some?
  {
    if |log| == from {
      assert log[..from] == log;
    } else {
      var last, earlier := log[|log| - 1], log[..|log| - 1];
      assert earlier[..from] == log[..from] && log == earlier + [last];
      GoodWritesKeep(earlier, from, id, law, bad);
      Appended(earlier, last, id);
      ChainEntry(log, |log| - 1);
    }
  }

  lemma StatusIsLawful(e: LogEntry)
    requires e.Wrote? && Lawful(e)
    ensures Withheld(e.before.status) && !Reinstates(e) ==> Withheld(e.after.status)
    ensures StatusLaw(e.before) && !Misstates(e) ==> StatusLaw(e.after)
    ensures ActiveLaw(e.before) && !Overactivates(e) ==> ActiveLaw(e.after)
    ensures Reinstates(e) ==> !Withheld(e.after.status)
    ensures Misstates(e) ==> !StatusLaw(e.after)
    ensures Overactivates(e) ==> !ActiveLaw(e.after)
  {
    StatusAfterWrite(e.op, e.before, e.at);
  }

  /** Each law is kept by every write but its bad ones, and broken by those. */
  lemma EntriesAreLawful(log: seq<LogEntry>)
    requires Chain(log)
    ensures Kept((a: Account) => Withheld(a.status), Reinstates)
    ensures Kept(StatusLaw, Misstates) && Kept(ActiveLaw, Overactivates)
    ensures forall i :: 0 <= i < |log| ==>
      && (Reinstates(log[i]) ==> !Withheld(Value(log[i]).status))
      && (Misstates(log[i]) ==> !StatusLaw(Value(log[i])))
      && (Overactivates(log[i]) ==> !ActiveLaw(Value(log[i])))
  {
    forall e: LogEntry | e.Wrote? && Lawful(e)
      ensures Withheld(e.before.status) && !Reinstates(e) ==> Withheld(e.after.status)
      ensures StatusLaw(e.before) && !Misstates(e) ==> StatusLaw(e.after)
      ensures ActiveLaw(e.before) && !Overactivates(e) ==> ActiveLaw(e.after)
    {
      StatusIsLawful(e);
    }
    forall i | 0 <= i < |log| && log[i].Wrote?
      ensures Reinstates(log[i]) ==> !Withheld(Value(log[i]).status)
      ensures Misstates(log[i]) ==> !StatusLaw(Value(log[i]))
      ensures Overactivates(log[i]) ==> !ActiveLaw(Value(log[i]))
    {
      ChainEntry(log, i);
      StatusIsLawful(log[i]);
    }
  }

  /**
   * Suspension is absorbing, exactly up to reinstating patches: once a revoke or retire has committed, every later
   * value is suspended or retired, even when connects and authorizations that began earlier finish, if and only
   * if no status patch to any other state commits.
   */
  lemma SuspensionIsAbsorbing(s: System, events: seq<Event>, id: Id)
    requires Inv(s) && id in s.table && Withheld(s.table[id].data.status)
    ensures var t := Run(s, events);
            && (Values(t.log, |s.log|, id, (a: Account) => Withheld(a.status))
                <==> NoEntry(t.log, |s.log|, id, Reinstates))
            && (NoEntry(t.log, |s.log|, id, Reinstates) ==> id in t.table && Withheld(t.table[id].data.status))
  {
    var t := Run(s, events);
    RunKeepsInv(s, events);
    LogGrows(s, events);
    EntriesAreLawful(t.log);
    assert t.log[..|s.log|] == s.log;
    if NoEntry(t.log, |s.log|, id, Reinstates) {
      GoodWritesKeep(t.log, |s.log|, id, (a: Account) => Withheld(a.status), Reinstates);
    }
  }

  /**
   * The status is what connection and authorization call for, or withheld, after every commit of a run if and
   * only if no status patch commits that misstates it.
   */
  lemma StatusIsRecomputed(events: seq<Event>, id: Id)
    ensures var s := Run(EMPTY, events);
            && (Values(s.log, 0, id, StatusLaw) <==> NoEntry(s.log, 0, id, Misstates))
            && (NoEntry(s.log, 0, id, Misstates) && id in s.table ==> StatusLaw(s.table[id].data))
  {
    var s := Run(EMPTY, events);
    RunKeepsInv(EMPTY, events);
    EntriesAreLawful(s.log);
    if NoEntry(s.log, 0, id, Misstates) {
      GoodWritesKeep(s.log, 0, id, StatusLaw, Misstates);
    }
  }

  /**
   * Active means connected and authorized, after every commit of a run if and only if no status patch
   * activates an account that is not.
   */
  lemma ActiveMeansConnectedAndAuthorized(events: seq<Event>, id: Id)
    ensures var s := Run(EMPTY, events);
            && (Values(s.log, 0, id, ActiveLaw) <==> NoEntry(s.log, 0, id, Overactivates))
            && (NoEntry(s.log, 0, id, Overactivates) && id in s.table ==> ActiveLaw(s.table[id].data))
  {
    var s := Run(EMPTY, events);
    RunKeepsInv(EMPTY, events);
    EntriesAreLawful(s.log);
    if NoEntry(s.log, 0, id, Overactivates) {
      GoodWritesKeep(s.log, 0, id, ActiveLaw, Overactivates);
    }
  }

  lemma RunAppend(s: System, events: seq<Event>, e: Event)
    ensures Run(s, events + [e]) == Step(Run(s, events), e)
  {
    assert (events + [e])[..|events|] == events;
  }

  /** Such patches do commit: the lock holder of any newborn account can patch it to ACTIVE. */
  lemma StatusPatchCanActivateAnything(a: Account) returns (events: seq<Event>)
    requires Newborn(a)
    ensures var s := Run(EMPTY, events);
            a.id in s.table && s.table[a.id].data.status == Active && s.table[a.id].data.connectionId.None?
  {
    var checkout := Operation.Checkout("agent", "token", 10);
    var patch := Operation.Patch("agent", "token", 2, PatchUpdates(None, None, None, None, None, Some(Active)));
    var registered := [Register(0, a)];
    var leasing := registered + [Begin(0, 0, a.id, checkout)];
    var leased := leasing + [Finish(0, 0)];
    var patching := leased + [Begin(0, 0, a.id, patch)];
    events := patching + [Finish(0, 0)];
    assert [] + registered == registered;
    RunAppend(EMPTY, [], Register(0, a));
    RunAppend(EMPTY, registered, Begin(0, 0, a.id, checkout));
    RunAppend(EMPTY, leasing, Finish(0, 0));
    RunAppend(EMPTY, leased, Begin(0, 0, a.id, patch));
    RunAppend(EMPTY, patching, Finish(0, 0));
  }
}

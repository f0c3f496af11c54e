/** `checkout`: the bounded retry loop around the conditional update, under other clients' commits. */
module Contention {
  import opened Domain
  import opened AccountStore
  import opened Lifecycle

  const MAX_CAS_RETRIES: nat := 4

  /** Other clients' successful commits to one account, in order, each of any content. */
  function ForeignCommits(t: Table, id: Id, writes: seq<Account>): (r: Table)
    requires id in t
    ensures id in r
  {
    if writes == [] then t
    else
      var earlier := ForeignCommits(t, id, writes[..|writes| - 1]);
      Cas(earlier, writes[|writes| - 1].(id := id), earlier[id].version)
  }

  /** The account is on file, with columns that repeat its payload. */
  predicate Filed(t: Table, id: Id) {
    id in t && t[id].data.id == id && t[id] == RowOf(t[id].data)
  }

  lemma {:induction false} ForeignCommitsCount(t: Table, id: Id, writes: seq<Account>)
    requires id in t
    ensures ForeignCommits(t, id, writes)[id].version == t[id].version + |writes|
    ensures Filed(t, id) ==> Filed(ForeignCommits(t, id, writes), id)
  {
    if writes != [] {
      ForeignCommitsCount(t, id, writes[..|writes| - 1]);
    }
  }

  lemma {:induction false} ForeignCommitsCompose(t: Table, id: Id, first: seq<Account>, second: seq<Account>)
    requires id in t
    ensures ForeignCommits(ForeignCommits(t, id, first), id, second) == ForeignCommits(t, id, first + second)
  {
    if second == [] {
      assert first + second == first;
    } else {
      var init := second[..|second| - 1];
      ForeignCommitsCompose(t, id, first, init);
      assert (first + second)[..|first + second| - 1] == first + init;
    }
  }

  /** What lands before an attempt's read, and what lands between its read and its update. */
  datatype Attempt = Attempt(before: seq<Account>, during: seq<Account>, at: Time, token: string)

  /** All foreign commits of the first `k` attempts. */
  function Landed(schedule: seq<Attempt>, k: nat): seq<Account>
    requires k <= |schedule|
  {
    if k == 0 then [] else Landed(schedule, k - 1) + schedule[k - 1].before + schedule[k - 1].during
  }

  lemma RoundLands(t: Table, id: Id, schedule: seq<Attempt>, k: nat)
    requires id in t && k < |schedule|
    ensures ForeignCommits(ForeignCommits(t, id, Landed(schedule, k)), id, schedule[k].before + schedule[k].during)
         == ForeignCommits(t, id, Landed(schedule, k + 1))
  {
    ForeignCommitsCompose(t, id, Landed(schedule, k), schedule[k].before + schedule[k].during);
    assert Landed(schedule, k) + (schedule[k].before + schedule[k].during) == Landed(schedule, k + 1);
  }

  /** Each of the first `k` rounds has a foreign commit between its read and its write. */
  ghost predicate Interrupted(schedule: seq<Attempt>, k: nat) {
    k > 0 ==> k <= |schedule| && schedule[k - 1].during != [] && Interrupted(schedule, k - 1)
  }

  function CheckoutAt(a: Attempt, holder: string, ttl: int): Operation {
    Operation.Checkout(holder, a.token, ttl)
  }

  method Interfere(accounts: AccountRepository, id: Id, writes: seq<Account>)
    requires Filed(accounts.table, id)
    modifies accounts
    ensures accounts.table == ForeignCommits(old(accounts.table), id, writes)
    ensures Filed(accounts.table, id)
  {
    for i := 0 to |writes|
      invariant Filed(accounts.table, id)
      invariant accounts.table == ForeignCommits(old(accounts.table), id, writes[..i])
    {
      assert writes[..i + 1][..i] == writes[..i];
      var _, _ := accounts.Update(writes[i].(id := id), accounts.table[id].version);
    }
    assert writes[..|writes|] == writes;
  }

  /** What one round does, given what the others commit around it. */
  ghost predicate Round(t: Table, after: Table, id: Id, holder: string, ttl: int, a: Attempt, r: Reply)
    requires id in t
  {
    var seen := ForeignCommits(t, id, a.before);
    if !Permitted(CheckoutAt(a, holder, ttl), seen[id].data, a.at)
    then r == LockHeld && after == seen
    else if a.during == []
    then after == Commit(seen, id, CheckoutAt(a, holder, ttl), a.at) && id in after && r == Ok(after[id].data)
    else r == Conflict && after == ForeignCommits(t, id, a.before + a.during)
  }

  /** What a round answers: refused under another's unexpired lease, lost to a commit, or a new lease from now on. */
  lemma RoundByFields(t: Table, after: Table, id: Id, holder: string, ttl: int, a: Attempt, r: Reply)
    requires Filed(t, id) && Round(t, after, id, holder, ttl, a, r)
    ensures var seen := ForeignCommits(t, id, a.before)[id].data;
            if seen.lock.Some? && a.at < seen.lock.value.expiresAt && seen.lock.value.holder != holder
            then r == LockHeld
            else if a.during != [] then r == Conflict
            else r == Ok(seen.(lock := Some(LockLease(holder, a.token, a.at, a.at + ttl)), version := seen.version + 1))
  {
    ForeignCommitsCount(t, id, a.before);
  }

  /** One round: read, check the lease, write. It is lost exactly when someone commits in between. */
  method TryOnce(accounts: AccountRepository, id: Id, holder: string, ttl: int, a: Attempt) returns (r: Reply)
    requires Filed(accounts.table, id)
    modifies accounts
    ensures Filed(accounts.table, id)
    ensures Round(old(accounts.table), accounts.table, id, holder, ttl, a, r)
    ensures r == Conflict ==>
      a.during != [] && accounts.table == ForeignCommits(old(accounts.table), id, a.before + a.during)
  {
    ghost var start := accounts.table;
    Interfere(accounts, id, a.before);
    ghost var seen := accounts.table;
    var found := accounts.Get(id);
    var account := found.value;
    if account.lock.Some? && account.lock.value.IsActive(a.at) && account.lock.value.holder != holder {
      return LockHeld;
    }
    var expected := account.version;
    account := account.(lock := Some(LockLease(holder, a.token, a.at, a.at + ttl)));
    Interfere(accounts, id, a.during);
    ForeignCommitsCompose(start, id, a.before, a.during);
    ForeignCommitsCount(seen, id, a.during);
    ghost var reached := accounts.table;
    var result, stored := accounts.Update(account, expected);
    if result == Committed {
      assert a.during == [] && reached == seen;
      r := Ok(stored);
    } else {
      assert accounts.table == reached;
      r := Conflict;
    }
  }

  /**
   * Up to four rounds. The caller learns in `k` how many rounds were lost, each to a foreign commit
   * between its own read and write; so `Conflict` means at least four foreign commits hit the account.
   */
  method Checkout(
    accounts: AccountRepository, id: Id, holder: string, ttl: int, schedule: seq<Attempt>)
    returns (r: Reply, ghost k: nat, ghost start: Table)
    requires (id in accounts.table ==> Filed(accounts.table, id)) && |schedule| == MAX_CAS_RETRIES
    modifies accounts
    ensures id in old(accounts.table) ==> Filed(accounts.table, id)
    ensures r == NotFound <==> id !in old(accounts.table)
    ensures r == NotFound ==> accounts.table == old(accounts.table)
    ensures r != NotFound ==>
      k <= |schedule| && Interrupted(schedule, k)
    ensures r.Ok? || r == LockHeld ==>
      && k < |schedule| && start == ForeignCommits(old(accounts.table), id, Landed(schedule, k))
      && Round(start, accounts.table, id, holder, ttl, schedule[k], r)
    ensures r == Conflict ==>
      k == |schedule| && accounts.table == ForeignCommits(old(accounts.table), id, Landed(schedule, k))
    ensures r != InvalidState
  {
    k := 0;
    ghost var first := accounts.table;
    start := first;
    if id !in accounts.table {
      r := NotFound;
      return;
    }
    r := Conflict;
    for attempt := 0 to |schedule|
      invariant k == attempt && r == Conflict && id in first && Filed(accounts.table, id)
      invariant accounts.table == ForeignCommits(first, id, Landed(schedule, attempt))
      invariant Interrupted(schedule, attempt)
    {
      var a := schedule[attempt];
      start := accounts.table;
      r := TryOnce(accounts, id, holder, ttl, a);
      if r != Conflict {
        return;
      }
      RoundLands(first, id, schedule, attempt);
      k := k + 1;
    }
  }

  lemma {:induction false} LostRoundsAreForeignCommits(schedule: seq<Attempt>, k: nat)
    requires k <= |schedule| && Interrupted(schedule, k)
    ensures |Landed(schedule, k)| >= k
  {
    if k > 0 {
      LostRoundsAreForeignCommits(schedule, k - 1);
    }
  }

  /** A checkout that succeeds adds exactly one version of its own to what the others committed. */
  lemma SuccessAddsOneVersion(t: Table, after: Table, id: Id, holder: string, ttl: int, a: Attempt, r: Reply)
    requires Filed(t, id)
    requires Round(t, after, id, holder, ttl, a, r) && r.Ok?
    ensures r.account.version == t[id].version + |a.before| + 1
    ensures r.account.lock == Some(LockLease(holder, a.token, a.at, a.at + ttl))
  {
    ForeignCommitsCount(t, id, a.before);
  }

  /** `Conflict` needs four lost rounds, hence at least four foreign commits during the call. */
  lemma ConflictMeansFourForeignCommits(t: Table, id: Id, schedule: seq<Attempt>)
    requires Filed(t, id) && |schedule| == MAX_CAS_RETRIES
    requires Interrupted(schedule, MAX_CAS_RETRIES)
    ensures ForeignCommits(t, id, Landed(schedule, MAX_CAS_RETRIES))[id].version >= t[id].version + 4
  {
    LostRoundsAreForeignCommits(schedule, MAX_CAS_RETRIES);
    ForeignCommitsCount(t, id, Landed(schedule, MAX_CAS_RETRIES));
  }
}

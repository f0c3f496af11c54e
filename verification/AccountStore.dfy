/** The account table: rows with indexed columns beside the payload, and the conditional update. */
module AccountStore {
  import opened Domain

  /** A row repeats some payload fields in columns, so that queries need not decode the payload. */
  datatype Row = Row(
    platform: Platform, status: LifecycleState, version: int, pool: Option<string>,
    lockHolder: Option<string>, lockExpiresAt: Option<Time>, data: Account)

  function RowOf(a: Account): Row {
    Row(a.platform, a.status, a.version, a.pool,
        if a.lock.None? then None else Some(a.lock.value.holder),
        if a.lock.None? then None else Some(a.lock.value.expiresAt), a)
  }

  type Table = map<Id, Row>

  /** Every row is filed under its account's id and its columns repeat its payload. */
  ghost predicate WellFormed(t: Table) {
    forall id :: id in t ==> t[id].data.id == id && t[id] == RowOf(t[id].data)
  }

  datatype UpdateResult = Committed | VersionConflict | Missing

  function Bumped(a: Account, expected: int): Account { a.(version := expected + 1) }

  function CasResult(t: Table, a: Account, expected: int): UpdateResult {
    if a.id !in t then Missing
    else if t[a.id].version == expected then Committed
    else VersionConflict
  }

  function Cas(t: Table, a: Account, expected: int): Table {
    if CasResult(t, a, expected) == Committed then t[a.id := RowOf(Bumped(a, expected))] else t
  }

  datatype Filter = Filter(platform: Option<Platform>, status: Option<LifecycleState>, pool: Option<string>,
                           tag: Option<string>)
  {
    /** The WHERE clause, on columns. */
    predicate Selects(r: Row) {
      && (platform.Some? ==> r.platform == platform.value)
      && (status.Some? ==> r.status == status.value)
      && (pool.Some? ==> r.pool == pool)
    }

    /** The same question put to a decoded account. */
    predicate Accepts(a: Account) {
      && (platform.Some? ==> a.platform == platform.value)
      && (status.Some? ==> a.status == status.value)
      && (pool.Some? ==> a.pool == pool)
      && (tag.Some? ==> tag.value in a.tags)
    }
  }

  class AccountRepository {
    var table: Table

    constructor ()
      ensures table == map[]
    {
      table := map[];
    }

    method Add(account: Account) returns (ok: bool)
      modifies this
      ensures ok == (account.id !in old(table))
      ensures table == if ok then old(table)[account.id := RowOf(account)] else old(table)
      ensures old(WellFormed(table)) ==> WellFormed(table)
    {
      if account.id in table {
        return false;
      }
      table := table[account.id := RowOf(account)];
      ok := true;
    }

    method Get(id: Id) returns (found: Option<Account>)
      ensures found == if id in table then Some(table[id].data) else None
    {
      found := if id in table then Some(table[id].data) else None;
    }

    /** The atomic conditional update: a stale or unknown account leaves the table as it was. */
    method Update(account: Account, expected: int) returns (result: UpdateResult, stored: Account)
      modifies this
      ensures result == CasResult(old(table), account, expected)
      ensures table == Cas(old(table), account, expected)
      ensures result == Missing <==> account.id !in old(table)
      ensures result == Committed <==> account.id in old(table) && old(table)[account.id].version == expected
      ensures result != Committed ==> table == old(table)
      ensures result == Committed ==> stored == Bumped(account, expected) && table[account.id].data == stored
      ensures old(WellFormed(table)) ==> WellFormed(table)
    {
      stored := account.(version := expected + 1);
      if stored.id in table && table[stored.id].version == expected {
        table := table[stored.id := RowOf(stored)];
        result := Committed;
      } else if stored.id !in table {
        result := Missing;
      } else {
        result := VersionConflict;
      }
    }

    /** Filtering by columns finds exactly the accounts whose payload passes the filter, each once. */
    method List(f: Filter) returns (accounts: seq<Account>)
      requires WellFormed(table)
      ensures forall a :: a in accounts <==> a.id in table && table[a.id].data == a && f.Accepts(a)
      ensures forall a :: f.Accepts(a) <==>
        && (f.platform == None || f.platform == Some(a.platform)) && (f.status == None || f.status == Some(a.status))
        && (f.pool == None || f.pool == a.pool) && (f.tag == None || f.tag.value in a.tags)
      ensures forall i, j :: 0 <= i < j < |accounts| ==> accounts[i].id != accounts[j].id
    {
      accounts := [];
      var todo := table.Keys;
      while todo != {}
        invariant todo <= table.Keys
        invariant forall a :: a in accounts <==> a.id in table && a.id !in todo && table[a.id].data == a && f.Accepts(a)
        invariant forall i, j :: 0 <= i < j < |accounts| ==> accounts[i].id != accounts[j].id
        decreases todo
      {
        var id :| id in todo;
        todo := todo - {id};
        var row := table[id];
        if f.Selects(row) {
          var account := row.data;
          if f.tag.None? || f.tag.value in account.tags {
            assert account.id == id && forall a :: a in accounts ==> a.id != id;
            accounts := accounts + [account];
          }
        }
      }
    }
  }
}

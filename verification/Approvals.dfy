/** The approval queue: a thin layer over rows with a `review_state` column beside the payload. */
module Approvals {
  import opened Domain
  import opened Ids

  function ExpiryFrom(now: Time, ttl: int): Option<Time> {
    if ttl > 0 then Some(now + ttl) else None
  }

  /** A new item, bound to the draft revision it was submitted with. */
  function NewItem(id: Id, action: Action, pinned: Option<int>, now: Time, ttl: int): Approval {
    Approval(id, action.id, action.accountId, Open, pinned, None, None, None, ExpiryFrom(now, ttl))
  }

  /** Reopening forgets the decision, pins the latest revision and restarts the clock. */
  function Reopened(a: Approval, pinned: Option<int>, now: Time, ttl: int): Approval {
    Approval(a.id, a.actionId, a.accountId, Open, pinned, None, None, None, ExpiryFrom(now, ttl))
  }

  /** A decision keeps the binding: action, account, pinned revision and expiry. */
  function Reviewed(a: Approval, review: ReviewState, actor: string, reason: Option<string>, now: Time): Approval {
    a.(review := review, decidedBy := Some(actor), decidedAt := Some(now),
       reason := if reason.Some? then reason else a.reason)
  }

  datatype ApprovalRow = ApprovalRow(review: ReviewState, updatedAt: Time, data: Approval)

  predicate Listed(a: Approval, platform: Option<string>, account: Option<Id>, includeExpired: bool, now: Time) {
    && a.review == Open
    && (account.Some? ==> a.accountId == account.value)
    && (platform.Some? ==> HasPlatformPrefix(a.accountId, platform.value))
    && (includeExpired || !a.IsExpired(now))
  }

  /** `a` at the end of the items that are not younger. */
  function InOrder(items: seq<Approval>, a: Approval, age: Id -> Time): (r: seq<Approval>)
    ensures forall b :: b in r <==> b in items || b == a
    ensures |r| == |items| + 1
  {
    if items == [] || age(items[|items| - 1].id) <= age(a.id) then items + [a]
    else InOrder(items[..|items| - 1], a, age) + [items[|items| - 1]]
  }

  ghost predicate Ordered(items: seq<Approval>, age: Id -> Time) {
    forall i, j :: 0 <= i < j < |items| ==> age(items[i].id) <= age(items[j].id) && items[i].id != items[j].id
  }

  lemma {:induction false} InsertionKeepsOrder(items: seq<Approval>, a: Approval, age: Id -> Time)
    requires Ordered(items, age) && forall b :: b in items ==> b.id != a.id
    ensures Ordered(InOrder(items, a, age), age)
  {
    if items != [] && age(items[|items| - 1].id) > age(a.id) {
      var init, last := items[..|items| - 1], items[|items| - 1];
      InsertionKeepsOrder(init, a, age);
      var r := InOrder(init, a, age);
      forall i | 0 <= i < |r|
        ensures age(r[i].id) <= age(last.id) && r[i].id != last.id
      {
        assert r[i] in init || r[i] == a;
      }
    }
  }

  class ApprovalQueue {
    const ttl: int
    var rows: map<Id, ApprovalRow>

    ghost predicate Valid()
      reads this
    {
      forall id :: id in rows ==> rows[id].data.id == id && rows[id].review == rows[id].data.review
    }

    ghost function Items(): (items: map<Id, Approval>)
      reads this
    {
      map id | id in rows :: rows[id].data
    }

    constructor (ttlSeconds: int)
      ensures Valid() && ttl == ttlSeconds && Items() == map[]
    {
      ttl, rows := ttlSeconds, map[];
    }

    method Upsert(a: Approval, now: Time)
      requires Valid()
      modifies this
      ensures Valid() && Items() == old(Items())[a.id := a]
    {
      rows := rows[a.id := ApprovalRow(a.review, now, a)];
    }

    method Get(id: Id) returns (found: Option<Approval>)
      ensures found == if id in Items() then Some(Items()[id]) else None
    {
      found := if id in rows then Some(rows[id].data) else None;
    }

    method Submit(id: Id, action: Action, pinned: Option<int>, now: Time) returns (a: Approval)
      requires Valid()
      modifies this
      ensures Valid() && a == NewItem(id, action, pinned, now, ttl) && Items() == old(Items())[id := a]
      ensures a.id == id && a.actionId == action.id && a.accountId == action.accountId
      ensures a.review == Open && a.pinnedRevision == pinned && a.expiresAt == if ttl > 0 then Some(now + ttl) else None
      ensures a.decidedBy == None && a.decidedAt == None && a.reason == None
    {
      a := Approval(id, action.id, action.accountId, Open, pinned, None, None, None,
                    if ttl > 0 then Some(now + ttl) else None);
      Upsert(a, now);
    }

    method Reopen(item: Approval, pinned: Option<int>, now: Time) returns (a: Approval)
      requires Valid()
      modifies this
      ensures Valid() && a == Reopened(item, pinned, now, ttl) && Items() == old(Items())[item.id := a]
      ensures a.id == item.id && a.actionId == item.actionId && a.accountId == item.accountId
      ensures a.review == Open && a.pinnedRevision == pinned && a.expiresAt == if ttl > 0 then Some(now + ttl) else None
      ensures a.decidedBy == None && a.decidedAt == None && a.reason == None
    {
      a := item.(review := Open);
      a := a.(pinnedRevision := pinned);
      a := a.(decidedBy := None, decidedAt := None, reason := None);
      a := a.(expiresAt := if ttl > 0 then Some(now + ttl) else None);
      Upsert(a, now);
    }

    method SetState(item: Approval, review: ReviewState, actor: string, reason: Option<string>, now: Time)
      returns (a: Approval)
      requires Valid()
      modifies this
      ensures Valid() && a == Reviewed(item, review, actor, reason, now) && Items() == old(Items())[item.id := a]
      ensures a.id == item.id && a.actionId == item.actionId && a.accountId == item.accountId
      ensures a.review == review && a.pinnedRevision == item.pinnedRevision && a.expiresAt == item.expiresAt
      ensures a.decidedBy == Some(actor) && a.decidedAt == Some(now)
      ensures a.reason == if reason == None then item.reason else reason
    {
      a := item.(review := review);
      a := a.(decidedBy := Some(actor), decidedAt := Some(now));
      if reason.Some? {
        a := a.(reason := reason);
      }
      Upsert(a, now);
    }

    /** When the row of an item was last written. */
    function Age(): Id -> Time
      reads this
    {
      var ages := rows;
      id => if id in ages then ages[id].updatedAt else 0
    }

    /**
     * The column query in the order of last writing, plus three list filters, finds exactly the payloads that ask
     * for review, each once.
     */
    method ListOpen(platform: Option<string>, account: Option<Id>, includeExpired: bool, now: Time)
      returns (items: seq<Approval>)
      requires Valid()
      ensures forall a :: a in items <==>
        a.id in Items() && Items()[a.id] == a && Listed(a, platform, account, includeExpired, now)
      ensures forall a :: Listed(a, platform, account, includeExpired, now) <==>
        && a.review == Open && (account == None || account == Some(a.accountId))
        && (platform == None || "acct_" + platform.value + "_" <= a.accountId)
        && (includeExpired || a.expiresAt == None || now <= a.expiresAt.value)
      ensures Ordered(items, Age())
    {
      items := [];
      var todo := rows.Keys;
      while todo != {}
        invariant todo <= rows.Keys
        invariant forall a :: a in items <==>
          a.id in rows && a.id !in todo && rows[a.id].data == a && Listed(a, platform, account, includeExpired, now)
        invariant Ordered(items, Age())
        decreases todo
      {
        var id :| id in todo;
        todo := todo - {id};
        var row := rows[id];
        if row.review == Open {
          var a := row.data;
          if (account.None? || a.accountId == account.value)
             && (platform.None? || "acct_" + platform.value + "_" <= a.accountId)
             && (includeExpired || !a.IsExpired(now))
          {
            assert a.id == id && forall b :: b in items ==> b.id != id;
            InsertionKeepsOrder(items, a, Age());
            items := InOrder(items, a, Age());
          }
        }
      }
    }
  }

  /** Listing by platform lists that platform: for minted ids the prefix filter is exact. */
  lemma PlatformListingIsExact(a: Approval, p: Platform, q: Platform, slug: string, suffix: string, now: Time)
    requires a.accountId == AccountId(q, slug, suffix)
    ensures Listed(a, Some(PlatformName(p)), None, true, now) <==> a.review == Open && p == q
  {
    PrefixMatchesPlatform(p, q, slug, suffix);
  }
}

/** The verbs that act upon an account, as operations on one account value and as service methods. */
module Lifecycle {
  import opened Domain
  import opened AccountStore

  datatype PatchUpdates = PatchUpdates(
    ownedDomains: Option<set<string>>, tags: Option<set<string>>, pool: Option<Option<string>>,
    overrides: Option<Overrides>, requiresApproval: Option<bool>, status: Option<LifecycleState>)

  /** The fields a patch may name. */
  datatype PatchField = DomainsField | TagsField | PoolField | OverridesField | ApprovalField | StatusField

  function Supplied(u: PatchUpdates): set<PatchField> {
    (if u.ownedDomains.Some? then {DomainsField} else {}) + (if u.tags.Some? then {TagsField} else {})
    + (if u.pool.Some? then {PoolField} else {}) + (if u.overrides.Some? then {OverridesField} else {})
    + (if u.requiresApproval.Some? then {ApprovalField} else {}) + (if u.status.Some? then {StatusField} else {})
  }

  /** The updates of some fields only. */
  function Only(u: PatchUpdates, fields: set<PatchField>): PatchUpdates {
    PatchUpdates(
      if DomainsField in fields then u.ownedDomains else None,
      if TagsField in fields then u.tags else None,
      if PoolField in fields then u.pool else None,
      if OverridesField in fields then u.overrides else None,
      if ApprovalField in fields then u.requiresApproval else None,
      if StatusField in fields then u.status else None)
  }

  datatype Operation =
    | Checkout(holder: string, token: string, ttl: int)
    | Refresh(holder: string, token: string, ttl: int)
    | Checkin(holder: string, token: string)
    | Authorize(scopes: set<ConsentScope>)
    | Revoke
    | Connect(connectionId: Id, botFlag: bool, selfLabel: Option<string>)
    | RefreshCredentials(ok: bool)
    | HealthCheck(status: Health)
    | Patch(holder: string, token: string, expected: int, updates: PatchUpdates)
    | Retire
    | Disconnect

  /** `_recompute_status` where the account is neither suspended nor retired. */
  function StatusFor(a: Account): LifecycleState {
    if a.connectionId.Some? && a.authorization.IsEffective() then Active
    else if a.connectionId.Some? then Connected
    else Draft
  }

  predicate Withheld(s: LifecycleState) { s == Suspended || s == Retired }

  function Recompute(a: Account): Account {
    if Withheld(a.status) then a else a.(status := StatusFor(a))
  }

  /** The checks an operation makes on its snapshot, at the instant it reads it. */
  predicate Permitted(op: Operation, a: Account, at: Time) {
    match op
    case Checkout(holder, _, _) => a.lock.None? || !a.lock.value.IsActive(at) || a.lock.value.holder == holder
    case Refresh(holder, token, _) => a.lock.Some? && a.lock.value.HeldBy(holder, token, at)
    case Checkin(holder, token) => a.lock.Some? && a.lock.value.holder == holder && a.lock.value.token == token
    case Patch(holder, token, expected, _) =>
      a.lock.Some? && a.lock.value.HeldBy(holder, token, at) && a.version == expected
    case _ => true
  }

  function ApplyPatch(a: Account, u: PatchUpdates): Account {
    a.(ownedDomains := if u.ownedDomains.Some? then u.ownedDomains.value else a.ownedDomains,
       tags := if u.tags.Some? then u.tags.value else a.tags,
       pool := if u.pool.Some? then u.pool.value else a.pool,
       overrides := if u.overrides.Some? then u.overrides.value else a.overrides,
       requiresApproval := if u.requiresApproval.Some? then u.requiresApproval.value else a.requiresApproval,
       status := if u.status.Some? then u.status.value else a.status)
  }

  /** The value an operation writes, computed from the value it read. */
  function Apply(op: Operation, a: Account, at: Time): (r: Account)
    ensures r.id == a.id && r.platform == a.platform && r.version == a.version
  {
    match op
    case Checkout(holder, token, ttl) => a.(lock := Some(LockLease(holder, token, at, at + ttl)))
    case Refresh(holder, token, ttl) =>
      a.(lock := Some(LockLease(holder, token, if a.lock.Some? then a.lock.value.acquiredAt else at, at + ttl)))
    case Checkin(_, _) => a.(lock := None)
    case Authorize(scopes) => Recompute(a.(authorization := Authorization(true, scopes, None)))
    case Revoke => a.(authorization := a.authorization.(revokedAt := Some(at)), status := Suspended)
    case Connect(connection, botFlag, selfLabel) =>
      Recompute(a.(connectionId := Some(connection),
                   compliance := a.compliance.(botFlagSet := botFlag, selfLabel := selfLabel)))
    case RefreshCredentials(ok) => a.(health := if ok then HealthOk else ReauthNeeded)
    case HealthCheck(status) => a.(health := status)
    case Patch(_, _, _, updates) => ApplyPatch(a, updates)
    case Retire => a.(status := Retired)
    case Disconnect =>
      Recompute(a.(connectionId := None, compliance := a.compliance.(botFlagSet := false, selfLabel := None)))
  }

  /** Each part of an account has its own writers; everything else an operation leaves as it was. */
  lemma OperationsKeepApart(op: Operation, a: Account, at: Time)
    ensures var r := Apply(op, a, at);
            var rest := r.(lock := a.lock, authorization := a.authorization, connectionId := a.connectionId,
                           compliance := a.compliance, health := a.health, status := a.status);
            && (r.lock != a.lock ==> op.Checkout? || op.Refresh? || op.Checkin?)
            && (r.authorization != a.authorization ==> op.Authorize? || op.Revoke?)
            && (r.connectionId != a.connectionId || r.compliance != a.compliance ==> op.Connect? || op.Disconnect?)
            && (r.health != a.health ==> op.RefreshCredentials? || op.HealthCheck?)
            && (rest != a ==> op.Patch?)
            && (r.status != a.status ==>
                  op.Authorize? || op.Revoke? || op.Connect? || op.Patch? || op.Retire? || op.Disconnect?)
  {
  }

  datatype Reply = Ok(account: Account) | NotFound | LockHeld | InvalidState | Conflict

  /** The table after `op` has read and written the account in one uninterrupted block. */
  function Commit(t: Table, id: Id, op: Operation, at: Time): Table
    requires id in t
  {
    Cas(t, Apply(op, t[id].data, at), t[id].data.version)
  }

  /** What an uninterrupted operation does: everything or nothing, and its reply says which. */
  ghost predicate Performed(before: Table, after: Table, id: Id, op: Operation, at: Time, r: Reply) {
    if id in before && Permitted(op, before[id].data, at)
    then
      && after == before[id := RowOf(Bumped(Apply(op, before[id].data, at), before[id].version))]
      && r == Ok(after[id].data)
    else after == before && (r.NotFound? <==> id !in before) && !r.Ok?
  }

  /** The connection that a stored account names, if it names one. */
  function Named(t: Table, id: Id): set<Id> {
    if id in t && t[id].data.connectionId.Some? && t[id].data.connectionId.value != ""
    then {t[id].data.connectionId.value} else {}
  }

  function EffectiveTtl(requested: Option<int>, default: int): int {
    if requested.Some? && requested.value != 0 then requested.value else default
  }

  class LockService {
    const accounts: AccountRepository
    const defaultTtl: int

    constructor (repository: AccountRepository, ttl: int)
      ensures accounts == repository && defaultTtl == ttl
    {
      accounts, defaultTtl := repository, ttl;
    }

    method Refresh(id: Id, holder: string, token: string, requested: Option<int>, now: Time) returns (r: Reply)
      requires WellFormed(accounts.table)
      modifies accounts
      ensures WellFormed(accounts.table)
      ensures Performed(old(accounts.table), accounts.table, id,
                        Operation.Refresh(holder, token, EffectiveTtl(requested, defaultTtl)), now, r)
      ensures id in old(accounts.table) ==>
        var a := old(accounts.table)[id].data;
        var ttl := if requested == None || requested == Some(0) then defaultTtl else requested.value;
        if a.lock.Some? && a.lock.value.holder == holder && a.lock.value.token == token && now < a.lock.value.expiresAt
        then r == Ok(a.(lock := Some(LockLease(holder, token, a.lock.value.acquiredAt, now + ttl)),
                        version := a.version + 1))
        else r == LockHeld
    {
      var ttl := if requested.Some? && requested.value != 0 then requested.value else defaultTtl;
      var found := accounts.Get(id);
      if found.None? {
        return NotFound;
      }
      var account := found.value;
      if account.lock.None? || !account.lock.value.HeldBy(holder, token, now) {
        return LockHeld;
      }
      var expected := account.version;
      account := account.(lock := Some(LockLease(holder, token, account.lock.value.acquiredAt, now + ttl)));
      var result, stored := accounts.Update(account, expected);
      r := if result == Committed then Ok(stored) else Conflict;
    }

    method Checkin(id: Id, holder: string, token: string, ghost now: Time) returns (r: Reply)
      requires WellFormed(accounts.table)
      modifies accounts
      ensures WellFormed(accounts.table)
      ensures Performed(old(accounts.table), accounts.table, id, Operation.Checkin(holder, token), now, r)
      ensures id in old(accounts.table) ==>
        var a := old(accounts.table)[id].data;
        if a.lock.None? then r == InvalidState
        else if a.lock.value.holder == holder && a.lock.value.token == token
        then r == Ok(a.(lock := None, version := a.version + 1))
        else r == LockHeld
    {
      var found := accounts.Get(id);
      if found.None? {
        return NotFound;
      }
      var account := found.value;
      if account.lock.None? {
        return InvalidState;
      }
      if !(account.lock.value.holder == holder && account.lock.value.token == token) {
        return LockHeld;
      }
      var expected := account.version;
      account := account.(lock := None);
      var result, stored := accounts.Update(account, expected);
      r := if result == Committed then Ok(stored) else Conflict;
    }
  }

  class AccountService {
    const accounts: AccountRepository
    var connections: set<Id>

    constructor (repository: AccountRepository)
      ensures accounts == repository && connections == {}
    {
      accounts, connections := repository, {};
    }

    method Authorize(id: Id, scopes: set<ConsentScope>, ghost now: Time) returns (r: Reply)
      requires WellFormed(accounts.table)
      modifies accounts
      ensures WellFormed(accounts.table)
      ensures Performed(old(accounts.table), accounts.table, id, Operation.Authorize(scopes), now, r)
      ensures id in old(accounts.table) ==>
        var a := old(accounts.table)[id].data;
        r == Ok(a.(authorization := Authorization(true, scopes, None), version := a.version + 1,
                   status := if a.status in {Suspended, Retired} then a.status
                             else if a.connectionId.Some? then Active else Draft))
    {
      var found := accounts.Get(id);
      if found.None? {
        return NotFound;
      }
      var account, expected := found.value, found.value.version;
      account := account.(authorization := Authorization(true, scopes, None));
      account := RecomputeStatus(account);
      var result, stored := accounts.Update(account, expected);
      r := if result == Committed then Ok(stored) else Conflict;
    }

    method RevokeAuthorization(id: Id, now: Time) returns (r: Reply)
      requires WellFormed(accounts.table)
      modifies accounts
      ensures WellFormed(accounts.table)
      ensures Performed(old(accounts.table), accounts.table, id, Revoke, now, r)
      ensures id in old(accounts.table) ==>
        var a := old(accounts.table)[id].data;
        r == Ok(a.(authorization := Authorization(a.authorization.authorized, a.authorization.consentScope, Some(now)),
                   status := Suspended, version := a.version + 1))
    {
      var found := accounts.Get(id);
      if found.None? {
        return NotFound;
      }
      var account, expected := found.value, found.value.version;
      account := account.(authorization := account.authorization.(revokedAt := Some(now)));
      account := account.(status := Suspended);
      var result, stored := accounts.Update(account, expected);
      r := if result == Committed then Ok(stored) else Conflict;
    }

    /** `_recompute_status` never leaves the withheld states. */
    static method RecomputeStatus(account: Account) returns (r: Account)
      ensures r == Recompute(account)
      ensures r.(status := account.status) == account
      ensures r.status == if account.status in {Suspended, Retired} then account.status
                          else if account.connectionId.None? then Draft
                          else if account.authorization.authorized && account.authorization.revokedAt.None? then Active
                          else Connected
    {
      r := account;
      if account.status == Suspended || account.status == Retired {
        return;
      }
      if account.connectionId.Some? && account.authorization.IsEffective() {
        r := r.(status := Active);
      } else if account.connectionId.Some? {
        r := r.(status := Connected);
      } else {
        r := r.(status := Draft);
      }
    }

    /** The part of `connect` before its awaits: the connection row is there before any account names it. */
    method BeginConnect(id: Id, connection: Id) returns (snapshot: Option<Account>)
      modifies this`connections
      ensures snapshot == if id in accounts.table then Some(accounts.table[id].data) else None
      ensures connections == if id in accounts.table then old(connections) + {connection} else old(connections)
    {
      snapshot := accounts.Get(id);
      if snapshot.Some? {
        connections := connections + {connection};
      }
    }

    /**
     * The part of `connect` after its awaits: it writes from the snapshot it took before them,
     * so it commits only if nothing else did meanwhile.
     */
    method FinishConnect(snapshot: Account, connection: Id, botFlag: bool, selfLabel: Option<string>, ghost at: Time)
      returns (r: Reply)
      requires WellFormed(accounts.table)
      modifies accounts
      ensures WellFormed(accounts.table)
      ensures accounts.table == Cas(old(accounts.table), Apply(Connect(connection, botFlag, selfLabel), snapshot, at),
                                    snapshot.version)
      ensures r.Ok? <==>
        snapshot.id in old(accounts.table) && old(accounts.table)[snapshot.id].version == snapshot.version
      ensures r.Ok? ==>
        && accounts.table == old(accounts.table)[snapshot.id := RowOf(r.account)]
        && r.account == snapshot.(
             connectionId := Some(connection), compliance := Compliance(botFlag, selfLabel),
             version := snapshot.version + 1,
             status := if snapshot.status in {Suspended, Retired} then snapshot.status
                       else if snapshot.authorization.authorized && snapshot.authorization.revokedAt.None? then Active
                       else Connected)
      ensures !r.Ok? ==> r == Conflict && accounts.table == old(accounts.table)
    {
      var account, expected := snapshot, snapshot.version;
      account := account.(connectionId := Some(connection));
      account := account.(compliance := account.compliance.(botFlagSet := botFlag, selfLabel := selfLabel));
      account := RecomputeStatus(account);
      var result, stored := accounts.Update(account, expected);
      r := if result == Committed then Ok(stored) else Conflict;
    }

    /** The part of `health_check` after its await. */
    method FinishHealthCheck(snapshot: Account, status: Health, ghost at: Time) returns (r: Reply)
      requires WellFormed(accounts.table)
      modifies accounts
      ensures WellFormed(accounts.table)
      ensures accounts.table == Cas(old(accounts.table), Apply(HealthCheck(status), snapshot, at), snapshot.version)
      ensures r.Ok? <==>
        snapshot.id in old(accounts.table) && old(accounts.table)[snapshot.id].version == snapshot.version
      ensures r.Ok? ==>
        && accounts.table == old(accounts.table)[snapshot.id := RowOf(r.account)]
        && r.account == snapshot.(health := status, version := snapshot.version + 1)
      ensures !r.Ok? ==> r == Conflict && accounts.table == old(accounts.table)
    {
      var account, expected := snapshot, snapshot.version;
      account := account.(health := status);
      var result, stored := accounts.Update(account, expected);
      r := if result == Committed then Ok(stored) else Conflict;
    }

    /** The part of `refresh_credentials` after its await. */
    method FinishRefreshCredentials(snapshot: Account, ok: bool, ghost at: Time) returns (r: Reply)
      requires WellFormed(accounts.table)
      modifies accounts
      ensures WellFormed(accounts.table)
      ensures accounts.table == Cas(old(accounts.table), Apply(RefreshCredentials(ok), snapshot, at), snapshot.version)
      ensures r.Ok? <==>
        snapshot.id in old(accounts.table) && old(accounts.table)[snapshot.id].version == snapshot.version
      ensures r.Ok? ==>
        && accounts.table == old(accounts.table)[snapshot.id := RowOf(r.account)]
        && r.account == snapshot.(health := if ok then HealthOk else ReauthNeeded, version := snapshot.version + 1)
      ensures !r.Ok? ==> r == Conflict && accounts.table == old(accounts.table)
    {
      var account, expected := snapshot, snapshot.version;
      account := account.(health := if ok then HealthOk else ReauthNeeded);
      var result, stored := accounts.Update(account, expected);
      r := if result == Committed then Ok(stored) else Conflict;
    }

    /** One pass of the loop of `patch`. */
    static method SetField(account: Account, updates: PatchUpdates, field: PatchField) returns (r: Account)
      requires field in Supplied(updates)
      ensures r == ApplyPatch(account, Only(updates, {field}))
    {
      match field {
        case DomainsField => r := account.(ownedDomains := updates.ownedDomains.value);
        case TagsField => r := account.(tags := updates.tags.value);
        case PoolField => r := account.(pool := updates.pool.value);
        case OverridesField => r := account.(overrides := updates.overrides.value);
        case ApprovalField => r := account.(requiresApproval := updates.requiresApproval.value);
        case StatusField => r := account.(status := updates.status.value);
      }
    }

    /** The loop of `patch` over the supplied fields; in whatever order, each sets a field of its own. */
    static method SetFields(account: Account, updates: PatchUpdates) returns (r: Account)
      ensures r == ApplyPatch(account, updates)
      ensures r == account.(
        ownedDomains := if updates.ownedDomains.None? then account.ownedDomains else updates.ownedDomains.value,
        tags := if updates.tags.None? then account.tags else updates.tags.value,
        pool := if updates.pool.None? then account.pool else updates.pool.value,
        overrides := if updates.overrides.None? then account.overrides else updates.overrides.value,
        requiresApproval := if updates.requiresApproval.None? then account.requiresApproval
                            else updates.requiresApproval.value,
        status := if updates.status.None? then account.status else updates.status.value)
    {
      r := account;
      var todo := Supplied(updates);
      while todo != {}
        invariant todo <= Supplied(updates)
        invariant r == ApplyPatch(account, Only(updates, Supplied(updates) - todo))
        decreases todo
      {
        var field :| field in todo;
        r := SetField(r, updates, field);
        todo := todo - {field};
      }
      assert Only(updates, Supplied(updates) - todo) == updates;
    }

    method Patch(id: Id, caller: string, token: string, expected: int, updates: PatchUpdates, now: Time)
      returns (r: Reply)
      requires WellFormed(accounts.table)
      modifies accounts
      ensures WellFormed(accounts.table)
      ensures Performed(old(accounts.table), accounts.table, id, Operation.Patch(caller, token, expected, updates),
                        now, r)
      ensures id in old(accounts.table) ==>
        var a := old(accounts.table)[id].data;
        if a.lock.None? || a.lock.value.holder != caller || a.lock.value.token != token
           || now >= a.lock.value.expiresAt
        then r == LockHeld
        else if a.version != expected then r == Conflict
        else r == Ok(ApplyPatch(a, updates).(version := expected + 1))
    {
      var found := accounts.Get(id);
      if found.None? {
        return NotFound;
      }
      var account := found.value;
      if account.lock.None? || !account.lock.value.HeldBy(caller, token, now) {
        return LockHeld;
      }
      if account.version != expected {
        return Conflict;
      }
      account := SetFields(account, updates);
      var result, stored := accounts.Update(account, expected);
      r := if result == Committed then Ok(stored) else Conflict;
    }

    method Retire(id: Id, ghost now: Time) returns (r: Reply)
      requires WellFormed(accounts.table)
      modifies accounts
      ensures WellFormed(accounts.table)
      ensures Performed(old(accounts.table), accounts.table, id, Operation.Retire, now, r)
      ensures id in old(accounts.table) ==>
        var a := old(accounts.table)[id].data;
        r == Ok(a.(status := Retired, version := a.version + 1))
    {
      var found := accounts.Get(id);
      if found.None? {
        return NotFound;
      }
      var account, expected := found.value, found.value.version;
      account := account.(status := Retired);
      var result, stored := accounts.Update(account, expected);
      r := if result == Committed then Ok(stored) else Conflict;
    }

    /** The connection row goes before the account stops naming it. */
    method Disconnect(id: Id, ghost now: Time) returns (r: Reply)
      requires WellFormed(accounts.table)
      modifies this`connections, accounts
      ensures WellFormed(accounts.table)
      ensures Performed(old(accounts.table), accounts.table, id, Operation.Disconnect, now, r)
      ensures connections == old(connections) - Named(old(accounts.table), id)
      ensures forall c :: c in connections <==>
        c in old(connections)
        && !(id in old(accounts.table) && c != "" && old(accounts.table)[id].data.connectionId == Some(c))
      ensures id in old(accounts.table) ==>
        var a := old(accounts.table)[id].data;
        r == Ok(a.(connectionId := None, compliance := Compliance(false, None), version := a.version + 1,
                   status := if a.status in {Suspended, Retired} then a.status else Draft))
    {
      var found := accounts.Get(id);
      if found.None? {
        return NotFound;
      }
      var account, expected := found.value, found.value.version;
      if account.connectionId.Some? && account.connectionId.value != "" {
        if account.connectionId.value in connections {
          connections := connections - {account.connectionId.value};
        }
      }
      account := account.(connectionId := None);
      account := account.(compliance := account.compliance.(botFlagSet := false, selfLabel := None));
      account := RecomputeStatus(account);
      var result, stored := accounts.Update(account, expected);
      r := if result == Committed then Ok(stored) else Conflict;
    }
  }
}

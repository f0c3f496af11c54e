/**
 * What a stored account says, told from the log of committed operations alone: every field is what the last operation
 * of its kind made it.
 */
module AccountHistory {
  import opened Domain
  import opened Lifecycle
  import opened Interleaving

  /** The last wanted entry about the account. */
  function Last(log: seq<LogEntry>, id: Id, wanted: LogEntry -> bool): (r: Option<LogEntry>)
    ensures r.Some? ==> Subject(r.value) == id && wanted(r.value) && r.value in log
  {
    if log == [] then None
    else
      var e := log[|log| - 1];
      if Subject(e) == id && wanted(e) then Some(e) else Last(log[..|log| - 1], id, wanted)
  }

  lemma LastAppend(log: seq<LogEntry>, e: LogEntry, id: Id, wanted: LogEntry -> bool)
    ensures Last(log + [e], id, wanted) == if Subject(e) == id && wanted(e) then Some(e) else Last(log, id, wanted)
  {
    assert (log + [e])[..|log|] == log;
  }

  /** It comes no earlier than any wanted entry about the account. */
  lemma {:induction false} LastIsLast(log: seq<LogEntry>, id: Id, wanted: LogEntry -> bool, i: nat)
    requires i < |log| && Subject(log[i]) == id && wanted(log[i])
    ensures Last(log, id, wanted).Some? && Last(log, id, wanted).value in log[i..]
  {
    var e, earlier := log[|log| - 1], log[..|log| - 1];
    if Subject(e) == id && wanted(e) {
      assert e == log[i..][|log| - 1 - i];
    } else {
      LastIsLast(earlier, id, wanted, i);
      assert log[i..] == earlier[i..] + [e];
    }
  }

  /** An account with no value has no entries of any kind. */
  lemma {:induction false} NoValueNoEntry(log: seq<LogEntry>, id: Id, wanted: LogEntry -> bool)
    requires Latest(log, id).None?
    ensures Last(log, id, wanted).None?
  {
    if log != [] {
      NoValueNoEntry(log[..|log| - 1], id, wanted);
    }
  }

  // ---- the kinds of operations ----

  predicate Registers(e: LogEntry) { e.Registered? }

  predicate Grants(e: LogEntry) { e.Wrote? && e.op.Authorize? }

  predicate GrantsOrRevokes(e: LogEntry) { e.Wrote? && (e.op.Authorize? || e.op.Revoke?) }

  predicate Connects(e: LogEntry) { e.Wrote? && (e.op.Connect? || e.op.Disconnect?) }

  predicate Examines(e: LogEntry) { e.Wrote? && (e.op.RefreshCredentials? || e.op.HealthCheck?) }

  predicate ChecksOut(e: LogEntry) { e.Wrote? && e.op.Checkout? }

  predicate Locks(e: LogEntry) { e.Wrote? && (e.op.Checkout? || e.op.Refresh? || e.op.Checkin?) }

  predicate SetsDomains(e: LogEntry) { e.Wrote? && e.op.Patch? && e.op.updates.ownedDomains.Some? }

  predicate SetsTags(e: LogEntry) { e.Wrote? && e.op.Patch? && e.op.updates.tags.Some? }

  predicate SetsPool(e: LogEntry) { e.Wrote? && e.op.Patch? && e.op.updates.pool.Some? }

  predicate SetsOverrides(e: LogEntry) { e.Wrote? && e.op.Patch? && e.op.updates.overrides.Some? }

  predicate SetsApproval(e: LogEntry) { e.Wrote? && e.op.Patch? && e.op.updates.requiresApproval.Some? }

  /** Sets the status outright. */
  predicate SetsStatus(e: LogEntry) {
    e.Wrote? && (e.op.Revoke? || e.op.Retire? || (e.op.Patch? && e.op.updates.status.Some?))
  }

  function StatusSet(e: LogEntry): LifecycleState
    requires SetsStatus(e)
  {
    if e.op.Revoke? then Suspended else if e.op.Retire? then Retired else e.op.updates.status.value
  }

  /** Sets the status, or has it recomputed. */
  predicate MovesStatus(e: LogEntry) {
    SetsStatus(e) || (e.Wrote? && (e.op.Authorize? || e.op.Connect? || e.op.Disconnect?))
  }

  // ---- what they leave behind ----

  /** The consent is the last grant's, whole: authorized if there was one, revoked if a revocation came after it. */
  ghost predicate ConsentTold(log: seq<LogEntry>, id: Id, a: Account) {
    var grant, last := Last(log, id, Grants), Last(log, id, GrantsOrRevokes);
    && (grant.Some? ==> last.Some?) && (last.Some? && last.value.op.Authorize? ==> last == grant)
    && (a.authorization.authorized <==> grant.Some?)
    && a.authorization.consentScope == (if grant.Some? then grant.value.op.scopes else {})
    && a.authorization.revokedAt == if last.Some? && last.value.op.Revoke? then Some(last.value.at) else None
  }

  /** Connection and self-identification are those of the last connect, gone after a disconnect. */
  ghost predicate ConnectionTold(log: seq<LogEntry>, id: Id, a: Account) {
    var last := Last(log, id, Connects);
    if last.Some? && last.value.op.Connect?
    then
      && a.connectionId == Some(last.value.op.connectionId)
      && a.compliance == Compliance(last.value.op.botFlag, last.value.op.selfLabel)
    else a.connectionId == None && a.compliance == Compliance(false, None)
  }

  ghost predicate HealthTold(log: seq<LogEntry>, id: Id, a: Account) {
    match Last(log, id, Examines)
    case None => a.health == HealthUnknown
    case Some(e) =>
      a.health == if e.op.HealthCheck? then e.op.status else if e.op.ok then HealthOk else ReauthNeeded
  }

  /** The lease is that of the last checkout, as long as the last refresh asked for; a checkin leaves none. */
  ghost predicate LockTold(log: seq<LogEntry>, id: Id, a: Account) {
    var last, taken := Last(log, id, Locks), Last(log, id, ChecksOut);
    if last.None? || last.value.op.Checkin? then a.lock == None
    else
      && taken.Some? && a.lock == Some(LockLease(last.value.op.holder, last.value.op.token, taken.value.at,
                                                 last.value.at + last.value.op.ttl))
      && taken.value.op.holder == last.value.op.holder && taken.value.op.token == last.value.op.token
  }

  /** The patched fields: the last patch that names a field sets it; before that it is as registered. */
  ghost predicate ProfileTold(log: seq<LogEntry>, id: Id, a: Account) {
    var born, domains := Last(log, id, Registers), Last(log, id, SetsDomains);
    && born.Some? && a.id == id && a.platform == born.value.account.platform
    && a.ownedDomains == if domains.Some? then domains.value.op.updates.ownedDomains.value
                         else born.value.account.ownedDomains
  }

  ghost predicate TagsTold(log: seq<LogEntry>, id: Id, a: Account) {
    var born, tags := Last(log, id, Registers), Last(log, id, SetsTags);
    && born.Some?
    && a.tags == if tags.Some? then tags.value.op.updates.tags.value else born.value.account.tags
  }

  ghost predicate PoolTold(log: seq<LogEntry>, id: Id, a: Account) {
    var born, pool := Last(log, id, Registers), Last(log, id, SetsPool);
    && born.Some?
    && a.pool == if pool.Some? then pool.value.op.updates.pool.value else born.value.account.pool
  }

  /** Until a patch says otherwise, nothing is overridden. */
  ghost predicate OverridesTold(log: seq<LogEntry>, id: Id, a: Account) {
    var last := Last(log, id, SetsOverrides);
    a.overrides == if last.Some? then last.value.op.updates.overrides.value
                   else Overrides(map[], false, false, None, false)
  }

  /** Until a patch says otherwise, acts on other people's targets need approval. */
  ghost predicate GateTold(log: seq<LogEntry>, id: Id, a: Account) {
    var last := Last(log, id, SetsApproval);
    a.requiresApproval == if last.Some? then last.value.op.updates.requiresApproval.value else true
  }

  /**
   * The status is the last one set outright, if that withholds the account or nothing has recomputed it since, and
   * else what connection and consent call for.
   */
  ghost predicate StatusTold(log: seq<LogEntry>, id: Id, a: Account) {
    var outright, moved := Last(log, id, SetsStatus), Last(log, id, MovesStatus);
    && (outright.Some? ==> moved.Some?)
    && a.status ==
       if moved.None? then Draft
       else if outright.Some? && (StatusSet(outright.value) in {Suspended, Retired} || SetsStatus(moved.value))
       then StatusSet(outright.value)
       else if a.connectionId.None? then Draft
       else if a.authorization.authorized && a.authorization.revokedAt.None? then Active
       else Connected
  }

  ghost predicate Told(log: seq<LogEntry>, id: Id, a: Account) {
    && ConsentTold(log, id, a) && ConnectionTold(log, id, a) && HealthTold(log, id, a)
    && LockTold(log, id, a) && ProfileTold(log, id, a)
    && TagsTold(log, id, a) && PoolTold(log, id, a) && OverridesTold(log, id, a) && GateTold(log, id, a)
    && StatusTold(log, id, a)
  }

  // ---- one entry more ----

  /** An entry about another account, or a permitted write over this value. */
  predicate Follows(e: LogEntry, id: Id, a: Account) {
    Subject(e) == id ==> e.Wrote? && e.before == a && Lawful(e) && Permitted(e.op, a, e.at)
  }

  function After(e: LogEntry, id: Id, a: Account): Account {
    if Subject(e) == id then Value(e) else a
  }

  lemma ConsentStep(log: seq<LogEntry>, e: LogEntry, id: Id, a: Account)
    requires ConsentTold(log, id, a) && Follows(e, id, a)
    ensures ConsentTold(log + [e], id, After(e, id, a))
  {
    LastAppend(log, e, id, Grants);
    LastAppend(log, e, id, GrantsOrRevokes);
  }

  lemma ConnectionStep(log: seq<LogEntry>, e: LogEntry, id: Id, a: Account)
    requires ConnectionTold(log, id, a) && Follows(e, id, a)
    ensures ConnectionTold(log + [e], id, After(e, id, a))
  {
    LastAppend(log, e, id, Connects);
  }

  lemma HealthStep(log: seq<LogEntry>, e: LogEntry, id: Id, a: Account)
    requires HealthTold(log, id, a) && Follows(e, id, a)
    ensures HealthTold(log + [e], id, After(e, id, a))
  {
    LastAppend(log, e, id, Examines);
  }

  lemma LockStep(log: seq<LogEntry>, e: LogEntry, id: Id, a: Account)
    requires LockTold(log, id, a) && Follows(e, id, a)
    ensures LockTold(log + [e], id, After(e, id, a))
  {
    LastAppend(log, e, id, Locks);
    LastAppend(log, e, id, ChecksOut);
  }

  lemma ProfileStep(log: seq<LogEntry>, e: LogEntry, id: Id, a: Account)
    requires ProfileTold(log, id, a) && Follows(e, id, a)
    ensures ProfileTold(log + [e], id, After(e, id, a))
  {
    LastAppend(log, e, id, Registers);
    LastAppend(log, e, id, SetsDomains);
  }

  lemma TagsStep(log: seq<LogEntry>, e: LogEntry, id: Id, a: Account)
    requires TagsTold(log, id, a) && Follows(e, id, a)
    ensures TagsTold(log + [e], id, After(e, id, a))
  {
    LastAppend(log, e, id, Registers);
    LastAppend(log, e, id, SetsTags);
  }

  lemma PoolStep(log: seq<LogEntry>, e: LogEntry, id: Id, a: Account)
    requires PoolTold(log, id, a) && Follows(e, id, a)
    ensures PoolTold(log + [e], id, After(e, id, a))
  {
    LastAppend(log, e, id, Registers);
    LastAppend(log, e, id, SetsPool);
  }

  lemma OverridesStep(log: seq<LogEntry>, e: LogEntry, id: Id, a: Account)
    requires OverridesTold(log, id, a) && Follows(e, id, a)
    ensures OverridesTold(log + [e], id, After(e, id, a))
  {
    LastAppend(log, e, id, SetsOverrides);
  }

  lemma GateStep(log: seq<LogEntry>, e: LogEntry, id: Id, a: Account)
    requires GateTold(log, id, a) && Follows(e, id, a)
    ensures GateTold(log + [e], id, After(e, id, a))
  {
    LastAppend(log, e, id, SetsApproval);
  }

  /** What one more entry leaves of the status, given the last outright and the last of any kind before it. */
  lemma StatusWrite(e: LogEntry, id: Id, a: Account)
    requires Follows(e, id, a)
    ensures var b := After(e, id, a);
            if Subject(e) == id && SetsStatus(e) then b.status == StatusSet(e)
            else if Subject(e) == id && MovesStatus(e) && a.status !in {Suspended, Retired}
            then b.status == if b.connectionId.None? then Draft
                             else if b.authorization.authorized && b.authorization.revokedAt.None? then Active
                             else Connected
            else
              && b.status == a.status
              && ((Subject(e) == id && MovesStatus(e))
                  || (b.connectionId == a.connectionId && b.authorization == a.authorization))
  {
  }

  lemma StatusStep(log: seq<LogEntry>, e: LogEntry, id: Id, a: Account)
    requires StatusTold(log, id, a) && Follows(e, id, a)
    ensures StatusTold(log + [e], id, After(e, id, a))
  {
    LastAppend(log, e, id, SetsStatus);
    LastAppend(log, e, id, MovesStatus);
    StatusWrite(e, id, a);
  }

  lemma BornWith(log: seq<LogEntry>, e: LogEntry, wanted: LogEntry -> bool)
    requires e.Registered? && Latest(log, e.account.id).None?
    ensures Last(log + [e], e.account.id, wanted) == if wanted(e) then Some(e) else None
  {
    NoValueNoEntry(log, e.account.id, wanted);
    LastAppend(log, e, e.account.id, wanted);
  }

  lemma BirthTold(log: seq<LogEntry>, e: LogEntry)
    requires e.Registered? && Newborn(e.account) && Latest(log, e.account.id).None?
    ensures Told(log + [e], e.account.id, e.account)
  {
    BornWith(log, e, Grants);
    BornWith(log, e, GrantsOrRevokes);
    BornWith(log, e, Connects);
    BornWith(log, e, Examines);
    BornWith(log, e, Locks);
    BornWith(log, e, ChecksOut);
    BornWith(log, e, Registers);
    BornWith(log, e, SetsDomains);
    BornWith(log, e, SetsTags);
    BornWith(log, e, SetsPool);
    BornWith(log, e, SetsOverrides);
    BornWith(log, e, SetsApproval);
    BornWith(log, e, SetsStatus);
    BornWith(log, e, MovesStatus);
  }

  lemma ToldStep(log: seq<LogEntry>, e: LogEntry, id: Id, a: Account)
    requires Told(log, id, a) && Follows(e, id, a)
    ensures Told(log + [e], id, After(e, id, a))
  {
    ConsentStep(log, e, id, a);
    ConnectionStep(log, e, id, a);
    HealthStep(log, e, id, a);
    LockStep(log, e, id, a);
    ProfileStep(log, e, id, a);
    TagsStep(log, e, id, a);
    PoolStep(log, e, id, a);
    OverridesStep(log, e, id, a);
    GateStep(log, e, id, a);
    StatusStep(log, e, id, a);
  }

  lemma {:induction false} ChainTells(log: seq<LogEntry>, id: Id)
    requires Chain(log) && Latest(log, id).Some?
    ensures Told(log, id, Latest(log, id).value)
  {
    var earlier, e := log[..|log| - 1], log[|log| - 1];
    assert log == earlier + [e];
    if Subject(e) == id && e.Registered? {
      BirthTold(earlier, e);
    } else {
      ChainTells(earlier, id);
      ToldStep(earlier, e, id, Latest(earlier, id).value);
    }
  }

  /**
   * In every run, whatever the interleaving, each field of a stored account is what the last committed operation of
   * its kind made it, and as registered before the first.
   */
  lemma RowsTellTheirHistory(events: seq<Event>, id: Id)
    requires id in Run(EMPTY, events).table
    ensures var s := Run(EMPTY, events); Told(s.log, id, s.table[id].data)
  {
    NoLostUpdate(events);
    ChainTells(Run(EMPTY, events).log, id);
  }

  /**
   * Consent is the last grant's and only that one's: the scopes of the account's last committed authorize, standing
   * until a revoke commits after it; before the first authorize there is none.
   */
  lemma ConsentIsTheLastGrant(events: seq<Event>, id: Id, i: nat)
    requires var log := Run(EMPTY, events).log;
             && i < |log| && Subject(log[i]) == id && log[i].Wrote? && log[i].op.Authorize?
             && forall j :: i < j < |log| && Subject(log[j]) == id && log[j].Wrote? ==> !log[j].op.Authorize?
    ensures var s := Run(EMPTY, events);
            && id in s.table
            && var consent := s.table[id].data.authorization;
               && consent.authorized && consent.consentScope == s.log[i].op.scopes
               && (consent.revokedAt.None? <==>
                     forall j :: i < j < |s.log| && Subject(s.log[j]) == id && s.log[j].Wrote? ==> !s.log[j].op.Revoke?)
  {
    var s := Run(EMPTY, events);
    RunKeepsInv(EMPTY, events);
    LatestExists(s.log, id, i);
    RowsTellTheirHistory(events, id);
    LastIsLast(s.log, id, Grants, i);
    LastIsLast(s.log, id, GrantsOrRevokes, i);
    forall j | i < j < |s.log| && Subject(s.log[j]) == id && s.log[j].Wrote? && s.log[j].op.Revoke?
      ensures s.table[id].data.authorization.revokedAt.Some?
    {
      LastIsLast(s.log, id, GrantsOrRevokes, j);
    }
  }

  lemma NoConsentBeforeTheFirstGrant(events: seq<Event>, id: Id)
    requires var s := Run(EMPTY, events);
             id in s.table && forall i :: 0 <= i < |s.log| && Subject(s.log[i]) == id ==> !Grants(s.log[i])
    ensures var consent := Run(EMPTY, events).table[id].data.authorization;
            !consent.authorized && consent.consentScope == {}
  {
    RowsTellTheirHistory(events, id);
  }

  lemma {:induction false} LatestExists(log: seq<LogEntry>, id: Id, i: nat)
    requires i < |log| && Subject(log[i]) == id
    ensures Latest(log, id).Some?
  {
    if i < |log| - 1 {
      LatestExists(log[..|log| - 1], id, i);
    }
  }
}

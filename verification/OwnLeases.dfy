/**
 * What an agent knows about its lease from its own lock operations alone, and that it is all there is to know:
 * the row is leased to the agent exactly when the last of them, and the clock, say so.
 */
module OwnLeases {
  import opened Domain
  import opened Lifecycle
  import opened Interleaving

  /** The account carries an unexpired lease of this agent under this token. */
  predicate Leased(a: Account, agent: string, token: string, at: Time) {
    a.lock.Some? && a.lock.value.HeldBy(agent, token, at)
  }

  /** The account carries an unexpired lease of this agent under some token. */
  predicate Holds(a: Account, agent: string, at: Time) {
    a.lock.Some? && a.lock.value.IsActive(at) && a.lock.value.holder == agent
  }

  /** The agent's last lock operation on the account that committed after the first `from` entries. */
  function LastOwn(log: seq<LogEntry>, from: nat, id: Id, agent: string): Option<LogEntry> {
    if |log| <= from then None
    else
      var last := log[|log| - 1];
      if Subject(last) == id && LockOperationOf(last, agent) then Some(last)
      else LastOwn(log[..|log| - 1], from, id, agent)
  }

  /** The agent still holds the account: by the lease it had, or by one it took or refreshed itself since. */
  predicate StillHolds(lease: LockLease, last: Option<LogEntry>, at: Time) {
    match last
    case None => at < lease.expiresAt
    case Some(e) => e.Wrote? && (e.op.Checkout? || e.op.Refresh?) && at < e.at + e.op.ttl
  }

  /** It does so under the token it had: its last lock operation, if any, refreshed that token. */
  predicate StillLeased(lease: LockLease, last: Option<LogEntry>, at: Time) {
    StillHolds(lease, last, at) && (last.Some? ==> last.value.op.Refresh? && last.value.op.token == lease.token)
  }

  /** The lease that the last own operation left, if it left one. */
  function Left(lease: LockLease, last: Option<LogEntry>): Option<LockLease>
    requires last.Some? ==> last.value.Wrote?
  {
    if last.None? then Some(lease) else last.value.after.lock
  }

  /** The token is handed out and no checkout under way can hand it out again. */
  ghost predicate HandedOut(s: System, token: string) {
    token in s.tokens && forall c :: c in s.clients && Mints(s.clients[c]) ==> s.clients[c].op.token != token
  }

  ghost predicate Recorded(s: System, from: nat, id: Id, lease: LockLease) {
    var last := LastOwn(s.log, from, id, lease.holder);
    && id in s.table && HandedOut(s, lease.token)
    && (last.Some? ==> OwnEntry(last.value, lease))
    && var own, row := Left(lease, last), s.table[id].data.lock;
       && (own.Some? ==> own.value.holder == lease.holder)
       && (own.Some? && own.value.IsActive(s.now) ==> row == own)
       && (row.Some? && row.value.holder == lease.holder ==> row == own)
  }

  predicate OwnEntry(e: LogEntry, lease: LockLease) {
    && LockOperationOf(e, lease.holder) && Lawful(e) && Permitted(e.op, e.before, e.at)
    && (e.op.Checkout? ==> e.op.token != lease.token)
  }

  /** A step either leaves the row and its history alone or writes the row with the one entry it logs about it. */
  lemma StepOnRow(s: System, e: Event, id: Id)
    requires Inv(s) && id in s.table
    ensures var t := Step(s, e);
            && id in t.table && s.now <= t.now
            && (t.log == s.log || exists w :: t.log == s.log + [w])
            && (t.log == s.log || Subject(t.log[|s.log|]) != id ==> t.table[id] == s.table[id])
            && (t.log != s.log && Subject(t.log[|s.log|]) == id ==>
                  var w := t.log[|s.log|];
                  && w.Wrote? && Lawful(w) && Permitted(w.op, w.before, w.at) && w.at <= t.now
                  && w.before == s.table[id].data && w.after == t.table[id].data
                  && (w.op.Checkout? ==> exists c :: c in s.clients && Mints(s.clients[c]) && s.clients[c].op == w.op))
  {
    if Enabled(s, e) && e.Finish? {
      CommitHitsSnapshot(s, e.client);
    }
  }

  lemma StaysHandedOut(s: System, e: Event, token: string)
    requires HandedOut(s, token)
    ensures HandedOut(Step(s, e), token)
  {
  }

  lemma LastOwnAppend(log: seq<LogEntry>, w: LogEntry, from: nat, id: Id, agent: string)
    requires from <= |log|
    ensures LastOwn(log + [w], from, id, agent)
         == if Subject(w) == id && LockOperationOf(w, agent) then Some(w) else LastOwn(log, from, id, agent)
  {
    assert (log + [w])[..|log|] == log;
  }

  /** What a write of somebody else can do to the lock. */
  lemma ForeignWrite(w: LogEntry, agent: string)
    requires w.Wrote? && Lawful(w) && Permitted(w.op, w.before, w.at) && !LockOperationOf(w, agent)
    ensures w.after.lock.Some? && w.after.lock.value.holder == agent ==> w.after.lock == w.before.lock
    ensures Holds(w.before, agent, w.at) ==> w.after.lock == w.before.lock
  {
    if Holds(w.before, agent, w.at) {
      LockAfterWrite(w.op, w.before, w.at);
    }
  }

  lemma OwnWrite(w: LogEntry, lease: LockLease)
    requires OwnEntry(w, lease)
    ensures w.after.lock.Some? ==> w.after.lock.value.holder == lease.holder
    ensures forall at :: StillHolds(lease, Some(w), at) <==> w.after.lock.Some? && w.after.lock.value.IsActive(at)
    ensures w.after.lock.Some? ==>
              (w.after.lock.value.token == lease.token <==> w.op.Refresh? && w.op.token == lease.token)
  {
  }

  lemma QuietRecord(s: System, t: System, from: nat, id: Id, lease: LockLease)
    requires Recorded(s, from, id, lease) && s.now <= t.now && HandedOut(t, lease.token)
    requires id in t.table && t.table[id] == s.table[id]
    requires LastOwn(t.log, from, id, lease.holder) == LastOwn(s.log, from, id, lease.holder)
    ensures Recorded(t, from, id, lease)
  {
  }

  lemma WrittenRecord(s: System, t: System, w: LogEntry, from: nat, id: Id, lease: LockLease)
    requires Recorded(s, from, id, lease) && from <= |s.log| && s.now <= t.now && HandedOut(t, lease.token)
    requires t.log == s.log + [w] && Subject(w) == id && w.Wrote? && Lawful(w) && w.at <= t.now
    requires id in t.table && w.before == s.table[id].data && w.after == t.table[id].data
    requires Permitted(w.op, w.before, w.at) && (w.op.Checkout? ==> w.op.token != lease.token)
    ensures Recorded(t, from, id, lease)
  {
    LastOwnAppend(s.log, w, from, id, lease.holder);
    if LockOperationOf(w, lease.holder) {
      OwnWrite(w, lease);
    } else {
      ForeignWrite(w, lease.holder);
    }
  }

  lemma RecordStep(s: System, e: Event, from: nat, id: Id, lease: LockLease)
    requires Inv(s) && Recorded(s, from, id, lease) && from <= |s.log|
    ensures Recorded(Step(s, e), from, id, lease) && |s.log| <= |Step(s, e).log|
  {
    var t := Step(s, e);
    StepOnRow(s, e, id);
    StaysHandedOut(s, e, lease.token);
    if t.log == s.log {
      QuietRecord(s, t, from, id, lease);
    } else {
      var w := t.log[|s.log|];
      assert t.log == s.log + [w];
      if Subject(w) == id {
        WrittenRecord(s, t, w, from, id, lease);
      } else {
        LastOwnAppend(s.log, w, from, id, lease.holder);
        QuietRecord(s, t, from, id, lease);
      }
    }
  }

  lemma {:induction false} RecordedAlways(s: System, events: seq<Event>, id: Id, lease: LockLease)
    requires Inv(s) && id in s.table && s.table[id].data.lock == Some(lease)
    ensures Recorded(Run(s, events), |s.log|, id, lease) && |s.log| <= |Run(s, events).log|
  {
    if events == [] {
      assert TokenOf(s.table[id].data) == Some(lease.token);
    } else {
      var earlier := events[..|events| - 1];
      RecordedAlways(s, earlier, id, lease);
      RunKeepsInv(s, earlier);
      RecordStep(Run(s, earlier), events[|events| - 1], |s.log|, id, lease);
    }
  }

  /** The agent's last lock operation on the account between two points of a run. */
  function OwnSince(s: System, events: seq<Event>, id: Id, agent: string): Option<LogEntry> {
    LastOwn(Run(s, events).log, |s.log|, id, agent)
  }

  /**
   * Whoever holds a lease can tell from its own lock operations and the clock whether it still does: whatever
   * everybody else's operations did, the row is leased to it if and only if its own record says so.
   */
  lemma RecordDecides(s: System, events: seq<Event>, id: Id, lease: LockLease)
    requires Inv(s) && id in s.table && s.table[id].data.lock == Some(lease)
    ensures var t := Run(s, events);
            var last := OwnSince(s, events, id, lease.holder);
            && id in t.table
            && (Holds(t.table[id].data, lease.holder, t.now) <==> StillHolds(lease, last, t.now))
            && (Leased(t.table[id].data, lease.holder, lease.token, t.now) <==> StillLeased(lease, last, t.now))
  {
    RecordedAlways(s, events, id, lease);
    var last := OwnSince(s, events, id, lease.holder);
    if last.Some? {
      OwnWrite(last.value, lease);
    }
  }
}

/** The rolling-window trackers, each specified by an append-only history that is never pruned. */
module Trackers {
  import opened Domain

  const RATE_WINDOW: int := 60 * SECOND
  const COORDINATION_WINDOW: int := 300 * SECOND

  /** One recorded act; rate events leave `who` empty, as the key already names the account. */
  datatype Hit = Hit(who: Id, at: Time)

  type Log = seq<Hit>

  /** The list comprehension of both `_prune` methods: what happened at or after the cutoff. */
  function Since(log: Log, cutoff: Time): (kept: Log)
    ensures forall h :: h in kept <==> h in log && h.at >= cutoff
    ensures |kept| <= |log|
  {
    if log == [] then []
    else
      var last, rest := log[|log| - 1], Since(log[..|log| - 1], cutoff);
      if last.at >= cutoff then rest + [last] else rest
  }

  function Who(log: Log): set<Id> { set h | h in log :: h.who }

  /** The answers of the trackers, read off the unpruned history. */
  function UnderLimit(history: Log, limit: int, now: Time): bool {
    limit <= 0 || |Since(history, now - RATE_WINDOW)| < limit
  }

  function WouldCoordinate(history: Log, account: Id, max: int, now: Time, window: int): bool {
    |Who(Since(history, now - window)) + {account}| > max
  }

  datatype PromoCounts = PromoCounts(promo: nat, nonPromo: nat) {
    function Add(promotional: bool): PromoCounts {
      if promotional then this.(promo := promo + 1) else this.(nonPromo := nonPromo + 1)
    }

    /** Python's floor division of a natural number by a positive ratio. */
    predicate WouldExceed(ratio: int) {
      ratio > 0 && promo >= nonPromo / ratio
    }
  }

  lemma SinceAppend(log: Log, h: Hit, cutoff: Time)
    ensures Since(log + [h], cutoff) == Since(log, cutoff) + (if h.at >= cutoff then [h] else [])
  {
    assert (log + [h])[..|log|] == log;
  }

  /** Pruning at one cutoff loses nothing that any later cutoff would have kept. */
  lemma {:induction false} SincePrune(log: Log, early: Time, late: Time)
    requires early <= late
    ensures Since(Since(log, early), late) == Since(log, late)
  {
    if log != [] {
      var last, rest := log[|log| - 1], log[..|log| - 1];
      SincePrune(rest, early, late);
      if last.at >= early {
        SinceAppend(Since(rest, early), last, late);
      }
    }
  }

  /** `kept` answers every question with a cutoff of at least `cutoff` as the whole history would. */
  ghost predicate Represents(kept: Log, history: Log, cutoff: Time) {
    forall c {:trigger Since(history, c)} :: c >= cutoff ==> Since(kept, c) == Since(history, c)
  }

  lemma PruneRepresents(kept: Log, history: Log, cutoff: Time, later: Time)
    requires Represents(kept, history, cutoff) && cutoff <= later
    ensures Represents(Since(kept, later), history, later)
  {
    forall c | c >= later
      ensures Since(Since(kept, later), c) == Since(history, c)
    {
      SincePrune(kept, later, c);
    }
  }

  lemma AppendRepresents(kept: Log, history: Log, cutoff: Time, h: Hit)
    requires Represents(kept, history, cutoff)
    ensures Represents(kept + [h], history + [h], cutoff)
  {
    forall c | c >= cutoff
      ensures Since(kept + [h], c) == Since(history + [h], c)
    {
      SinceAppend(kept, h, c);
      SinceAppend(history, h, c);
    }
  }

  /** The histories of every key, and the instant of the last call. */
  datatype Histories = Histories(logs: map<string, Log>) {
    function Of(key: string): Log { GetOr(logs, key, []) }

    function Add(key: string, h: Hit): Histories { Histories(logs[key := Of(key) + [h]]) }
  }

  /** Every key's list represents its history. */
  ghost predicate AllRepresent(lists: map<string, Log>, history: Histories, cutoff: Time) {
    forall key {:trigger history.Of(key)} :: Represents(GetOr(lists, key, []), history.Of(key), cutoff)
  }

  /** Pruning one key's list at a later cutoff keeps all lists representative from there on. */
  lemma PruneKeepsAll(lists: map<string, Log>, history: Histories, key: string, cutoff: Time, later: Time)
    requires AllRepresent(lists, history, cutoff) && cutoff <= later
    ensures AllRepresent(lists[key := Since(GetOr(lists, key, []), later)], history, later)
    ensures Since(GetOr(lists, key, []), later) == Since(history.Of(key), later)
  {
    forall k
      ensures Represents(GetOr(lists[key := Since(GetOr(lists, key, []), later)], k, []), history.Of(k), later)
    {
      assert Represents(GetOr(lists, k, []), history.Of(k), cutoff);
      PruneRepresents(GetOr(lists, k, []), history.Of(k), cutoff, later);
    }
    assert Represents(GetOr(lists, key, []), history.Of(key), cutoff);
  }

  lemma AppendKeepsAll(lists: map<string, Log>, history: Histories, key: string, cutoff: Time, h: Hit)
    requires AllRepresent(lists, history, cutoff)
    ensures AllRepresent(lists[key := GetOr(lists, key, []) + [h]], history.Add(key, h), cutoff)
  {
    forall k
      ensures Represents(GetOr(lists[key := GetOr(lists, key, []) + [h]], k, []), history.Add(key, h).Of(k), cutoff)
    {
      assert Represents(GetOr(lists, k, []), history.Of(k), cutoff);
      AppendRepresents(GetOr(lists, k, []), history.Of(k), cutoff, h);
    }
  }

  /** Per account and verb rolling-window limiter. `check` never consumes; `consume` appends. */
  class RateLimiter {
    var events: map<string, Log>
    ghost var History: Histories
    ghost var Last: Time

    ghost predicate Valid()
      reads this
    {
      AllRepresent(events, History, Last - RATE_WINDOW)
    }

    constructor (ghost start: Time)
      ensures Valid() && History == Histories(map[]) && Last == start
    {
      events, History, Last := map[], Histories(map[]), start;
    }

    method Prune(key: string, now: Time)
      requires Valid() && Last <= now
      modifies this
      ensures Valid() && History == old(History) && Last == now
      ensures key in events && events[key] == Since(GetOr(old(events), key, []), now - RATE_WINDOW)
      ensures events[key] == Since(History.Of(key), now - RATE_WINDOW)
    {
      var cutoff := now - RATE_WINDOW;
      PruneKeepsAll(events, History, key, Last - RATE_WINDOW, cutoff);
      events := events[key := Since(GetOr(events, key, []), cutoff)];
      Last := now;
    }

    /** However often the lists were pruned before, the answer is the one the whole history gives. */
    method Check(key: string, limit: int, now: Time) returns (ok: bool)
      requires Valid() && Last <= now
      modifies this
      ensures Valid() && History == old(History) && old(Last) <= Last <= now
      ensures ok == UnderLimit(History.Of(key), limit, now)
    {
      if limit <= 0 {
        return true;
      }
      Prune(key, now);
      ok := |events[key]| < limit;
    }

    method Consume(key: string, now: Time)
      requires Valid() && Last <= now
      modifies this
      ensures Valid() && Last == now
      ensures History == old(History).Add(key, Hit("", now))
    {
      Prune(key, now);
      AppendKeepsAll(events, History, key, now - RATE_WINDOW, Hit("", now));
      events := events[key := events[key] + [Hit("", now)]];
      History := History.Add(key, Hit("", now));
    }

    method Snapshot(key: string, now: Time) returns (n: nat)
      requires Valid() && Last <= now
      modifies this
      ensures Valid() && History == old(History) && Last == now
      ensures n == |Since(History.Of(key), now - RATE_WINDOW)|
    {
      Prune(key, now);
      n := |events[key]|;
    }
  }

  /** Flags several accounts acting on one target within the window. `record` does not prune. */
  class CoordinationTracker {
    const window: int
    const max: int
    var hits: map<string, Log>
    ghost var History: Histories
    ghost var Last: Time

    ghost predicate Valid()
      reads this
    {
      AllRepresent(hits, History, Last - window)
    }

    constructor (windowLength: int, maxDistinctAccounts: int, ghost start: Time)
      ensures Valid() && History == Histories(map[]) && Last == start
      ensures window == windowLength && max == maxDistinctAccounts
    {
      window, max := windowLength, maxDistinctAccounts;
      hits, History, Last := map[], Histories(map[]), start;
    }

    method Prune(key: string, now: Time)
      requires Valid() && Last <= now
      modifies this
      ensures Valid() && History == old(History) && Last == now
      ensures key in hits && hits[key] == Since(History.Of(key), now - window)
    {
      var cutoff := now - window;
      var kept := Since(GetOr(hits, key, []), cutoff);
      PruneKeepsAll(hits, History, key, Last - window, cutoff);
      assert kept == Since(History.Of(key), cutoff);
      hits, Last := hits[key := kept], now;
    }

    method Would(key: string, account: Id, now: Time) returns (flagged: bool)
      requires Valid() && Last <= now
      modifies this
      ensures Valid() && History == old(History) && old(Last) <= Last <= now
      ensures flagged == (key != "" && WouldCoordinate(History.Of(key), account, max, now, window))
    {
      if key == "" {
        return false;
      }
      Prune(key, now);
      var distinct := (set h | h in hits[key] :: h.who) + {account};
      flagged := |distinct| > max;
    }

    method Record(key: string, account: Id, now: Time)
      requires Valid() && Last <= now
      modifies this
      ensures Valid() && Last == old(Last)
      ensures History == if key == "" then old(History) else old(History).Add(key, Hit(account, now))
    {
      if key == "" {
        return;
      }
      AppendKeepsAll(hits, History, key, Last - window, Hit(account, now));
      hits := hits[key := GetOr(hits, key, []) + [Hit(account, now)]];
      History := History.Add(key, Hit(account, now));
    }
  }

  /** Counts promotional and other writes per account. */
  class SelfPromoLedger {
    var promo: map<Id, nat>
    var nonPromo: map<Id, nat>

    function Counts(account: Id): PromoCounts
      reads this
    {
      PromoCounts(GetOr(promo, account, 0), GetOr(nonPromo, account, 0))
    }

    constructor ()
      ensures forall a :: Counts(a) == PromoCounts(0, 0)
    {
      promo, nonPromo := map[], map[];
    }

    method Exceeds(account: Id, ratio: int) returns (exceeded: bool)
      ensures exceeded == Counts(account).WouldExceed(ratio)
    {
      if ratio <= 0 {
        return false;
      }
      var allowed := GetOr(nonPromo, account, 0) / ratio;
      exceeded := GetOr(promo, account, 0) >= allowed;
    }

    method Record(account: Id, promotional: bool)
      modifies this
      ensures forall a :: Counts(a) == if a == account then old(Counts(a)).Add(promotional) else old(Counts(a))
    {
      if promotional {
        promo := promo[account := GetOr(promo, account, 0) + 1];
      } else {
        nonPromo := nonPromo[account := GetOr(nonPromo, account, 0) + 1];
      }
    }
  }

  /** The trackers as values: three histories no call ever prunes. */
  datatype TrackerState = TrackerState(rate: Histories, coordination: Histories, promo: map<Id, PromoCounts>) {
    function PromoOf(account: Id): PromoCounts { GetOr(promo, account, PromoCounts(0, 0)) }
  }

  // ---- whole runs of calls on the pruned lists and on the history ----

  datatype Call =
    | Check(limit: int, at: Time)
    | Snapshot(at: Time)
    | Consume(who: Id, at: Time)
    | Distinct(who: Id, max: int, at: Time)
    | Record(who: Id, at: Time)
  {
    predicate Appends() { Consume? || Record? }
  }

  /** A call's answer on a list, as a number: a truth value, a count, or nothing. */
  function Reply(log: Log, c: Call, window: int): int {
    match c
    case Check(limit, at) => if limit <= 0 || |Since(log, at - window)| < limit then 1 else 0
    case Snapshot(at) => |Since(log, at - window)|
    case Distinct(who, max, at) => if WouldCoordinate(log, who, max, at, window) then 1 else 0
    case _ => 0
  }

  /** The destructive effect: an unlimited check and `record` leave the old entries, the rest prune them. */
  function AfterCall(kept: Log, c: Call, window: int): Log {
    if c.Appends() then Pruned(kept, c, window) + [Hit(c.who, c.at)] else Pruned(kept, c, window)
  }

  function Pruned(kept: Log, c: Call, window: int): Log {
    if c.Record? || (c.Check? && c.limit <= 0) then kept else Since(kept, c.at - window)
  }

  function AfterHistory(history: Log, c: Call): Log {
    if c.Appends() then history + [Hit(c.who, c.at)] else history
  }

  function AnswersPruned(kept: Log, calls: seq<Call>, window: int): seq<int>
    decreases |calls|
  {
    if calls == [] then []
    else [Reply(kept, calls[0], window)] + AnswersPruned(AfterCall(kept, calls[0], window), calls[1..], window)
  }

  function AnswersFromHistory(history: Log, calls: seq<Call>, window: int): seq<int>
    decreases |calls|
  {
    if calls == [] then []
    else [Reply(history, calls[0], window)] + AnswersFromHistory(AfterHistory(history, calls[0]), calls[1..], window)
  }

  ghost predicate Monotone(calls: seq<Call>, from: Time) {
    calls != [] ==> from <= calls[0].at && Monotone(calls[1..], calls[0].at)
  }

  lemma AfterCallRepresents(kept: Log, history: Log, c: Call, from: Time, window: int)
    requires from <= c.at && Represents(kept, history, from - window)
    ensures Represents(AfterCall(kept, c, window), AfterHistory(history, c), c.at - window)
  {
    var pruned := Pruned(kept, c, window);
    PruneRepresents(kept, history, from - window, c.at - window);
    assert Represents(pruned, history, c.at - window);
    if c.Appends() {
      AppendRepresents(pruned, history, c.at - window, Hit(c.who, c.at));
    }
  }

  lemma SameReply(kept: Log, history: Log, c: Call, from: Time, window: int)
    requires from <= c.at && Represents(kept, history, from - window)
    ensures Reply(kept, c, window) == Reply(history, c, window)
  {
    assert Since(kept, c.at - window) == Since(history, c.at - window);
  }

  /** Pruning is invisible: on a monotone clock no sequence of calls can tell the two apart. */
  lemma {:induction false} PruningIsInvisible(kept: Log, history: Log, calls: seq<Call>, from: Time, window: int)
    requires Monotone(calls, from) && Represents(kept, history, from - window)
    ensures AnswersPruned(kept, calls, window) == AnswersFromHistory(history, calls, window)
    decreases |calls|
  {
    if calls != [] {
      var c := calls[0];
      SameReply(kept, history, c, from, window);
      AfterCallRepresents(kept, history, c, from, window);
      PruningIsInvisible(AfterCall(kept, c, window), AfterHistory(history, c), calls[1..], c.at, window);
    }
  }

  /** Calls that append nothing, such as those of a dry validation, never change a later answer. */
  lemma {:induction false} ReadOnlyCallsChangeNothing(
    kept: Log, calls: seq<Call>, later: seq<Call>, from: Time, window: int)
    requires Monotone(calls + later, from)
    requires forall c :: c in calls ==> !c.Appends()
    requires Monotone(later, from)
    ensures |AnswersPruned(kept, calls + later, window)| >= |calls|
    ensures AnswersPruned(kept, calls + later, window)[|calls|..] == AnswersPruned(kept, later, window)
  {
    PruningIsInvisible(kept, kept, calls + later, from, window);
    PruningIsInvisible(kept, kept, later, from, window);
    HistorySkipsReads(kept, calls, later, window);
  }

  lemma {:induction false} HistorySkipsReads(history: Log, calls: seq<Call>, later: seq<Call>, window: int)
    requires forall c :: c in calls ==> !c.Appends()
    ensures |AnswersFromHistory(history, calls + later, window)| >= |calls|
    ensures AnswersFromHistory(history, calls + later, window)[|calls|..] == AnswersFromHistory(history, later, window)
  {
    if calls == [] {
      assert calls + later == later;
    } else {
      assert (calls + later)[0] == calls[0] && (calls + later)[1..] == calls[1..] + later;
      HistorySkipsReads(history, calls[1..], later, window);
    }
  }
}

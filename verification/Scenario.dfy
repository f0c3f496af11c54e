/** The account, draft and store runs that the runs of the neighbouring files share. */
module Scenario {
  import opened Domain
  import opened AccountStore
  import opened Lifecycle
  import opened Trackers
  import opened Guards
  import opened ActionModel
  import Interleaving
  import opened LifecycleRefinement
  import opened LeaseActing

  // ---- the store ----

  const ID: Id := "acct"

  const NO_OVERRIDES := Overrides(map[], false, false, None, false)

  /** As `register` adds it. */
  const NEWBORN := Account(
    ID, Twitter, {}, Authorization(false, {}, None), None, Draft, true, None, 1, HealthUnknown,
    Compliance(false, None), NO_OVERRIDES, {}, None)

  const CONSENT := Authorization(true, {MayPublish, MayComment}, None)

  const READY := NEWBORN.(connectionId := Some("conn"), authorization := CONSENT, status := Active, version := 3)

  const ALICE := LockLease("alice", "key of alice", 0, 10)

  const BOB := LockLease("bob", "key of bob", 0, 10)

  const LEASED := READY.(lock := Some(ALICE), version := 4)

  const FREED := READY.(version := 5)

  const TAKEN := READY.(lock := Some(BOB), version := 6)

  /** The owner has taken the consent back. */
  const REVOKED := LEASED.(authorization := CONSENT.(revokedAt := Some(0)), status := Suspended, version := 5)

  /** Every write of this account needs approval. */
  const GATED := LEASED.(overrides := NO_OVERRIDES.(approveAllWrites := true), version := 5)

  const GATED_FREED := GATED.(lock := None, version := 6)

  const SET_UP: seq<Operation> := [
    Connect("conn", false, None), Authorize({MayPublish, MayComment}), Operation.Checkout("alice", ALICE.token, 10)]

  const GIVE_BACK := Operation.Checkin("alice", ALICE.token)

  const TAKE_OVER := Operation.Checkout("bob", BOB.token, 10)

  const GATE := Operation.Patch(
    "alice", ALICE.token, 4, PatchUpdates(None, None, None, Some(GATED.overrides), None, None))

  /** One agent after the other calls the lock and account services, all at instant 0. */
  function Calls(ops: seq<Operation>): seq<Interleaving.Event> {
    if ops == [] then [Interleaving.Register(0, NEWBORN)]
    else Calls(ops[..|ops| - 1]) + LifecycleRefinement.Call(0, 0, ID, ops[|ops| - 1])
  }

  function Store(ops: seq<Operation>): Interleaving.System { Interleaving.Run(Interleaving.EMPTY, Calls(ops)) }

  /** The store holds just this account, and nothing is under way. */
  predicate Holding(s: Interleaving.System, a: Account, tokens: set<string>) {
    s.now == 0 && s.table == map[ID := RowOf(a)] && s.clients == map[] && s.tokens == tokens
  }

  lemma StoreStarts()
    ensures Holding(Store([]), NEWBORN, {})
  {
    RegistrationCommits(NEWBORN);
  }

  lemma StoreGoesOn(ops: seq<Operation>, op: Operation, a: Account, tokens: set<string>)
    requires Holding(Store(ops), a, tokens) && a.id == ID && Permitted(op, a, 0)
    requires op.Checkout? ==> op.token !in tokens
    ensures Holding(Store(ops + [op]), Bumped(Apply(op, a, 0), a.version),
                    tokens + if op.Checkout? then {op.token} else {})
  {
    assert (ops + [op])[..|ops|] == ops;
    CallCommits(Calls(ops), ID, op, a, tokens);
  }

  /** Registered, connected, authorized and checked out by alice. */
  lemma StoreIsLeased()
    ensures Holding(Store(SET_UP), LEASED, {ALICE.token})
  {
    StoreStarts();
    StoreGoesOn([], SET_UP[0], NEWBORN, {});
    assert [] + [SET_UP[0]] == SET_UP[..1] && SET_UP[..1] + [SET_UP[1]] == SET_UP[..2]
           && SET_UP[..2] + [SET_UP[2]] == SET_UP;
    var connected := NEWBORN.(connectionId := Some("conn"), status := Connected, version := 2);
    assert Bumped(Apply(SET_UP[0], NEWBORN, 0), 1) == connected;
    StoreGoesOn(SET_UP[..1], SET_UP[1], connected, {});
    assert Bumped(Apply(SET_UP[1], connected, 0), 2) == READY;
    StoreGoesOn(SET_UP[..2], SET_UP[2], READY, {});
  }

  lemma StoreIsFreed()
    ensures Holding(Store(SET_UP + [GIVE_BACK]), FREED, {ALICE.token})
  {
    StoreIsLeased();
    StoreGoesOn(SET_UP, GIVE_BACK, LEASED, {ALICE.token});
  }

  lemma StoreIsTaken()
    ensures Holding(Store(SET_UP + [GIVE_BACK] + [TAKE_OVER]), TAKEN, {ALICE.token, BOB.token})
  {
    StoreIsFreed();
    assert |BOB.token| != |ALICE.token|;
    StoreGoesOn(SET_UP + [GIVE_BACK], TAKE_OVER, FREED, {ALICE.token});
  }

  lemma StoreIsRevoked()
    ensures Holding(Store(SET_UP + [Revoke]), REVOKED, {ALICE.token})
  {
    StoreIsLeased();
    StoreGoesOn(SET_UP, Revoke, LEASED, {ALICE.token});
  }

  lemma StoreIsGated()
    ensures Holding(Store(SET_UP + [GATE]), GATED, {ALICE.token})
  {
    StoreIsLeased();
    StoreGoesOn(SET_UP, GATE, LEASED, {ALICE.token});
  }

  lemma StoreIsGatedAndFreed()
    ensures Holding(Store(SET_UP + [GATE] + [GIVE_BACK]), GATED_FREED, {ALICE.token})
  {
    StoreIsGated();
    StoreGoesOn(SET_UP + [GATE], GIVE_BACK, GATED, {ALICE.token});
  }

  /** The acting service has this account, as the store does. */
  lemma ShowsIt(w: World, s: Interleaving.System, a: Account, tokens: set<string>)
    requires Holding(s, a, tokens) && w.now == 0 && w.accounts == map[ID := a]
    ensures Shows(w, s)
  {
  }

  // ---- acting ----

  const POST := ContentDraft("draft", ID, "text", None, [], None, 1, 0)

  const TARGET := TargetRef("post", None, true)

  /** The account as saved, and its draft. */
  function SetUp(config: Config, a: Account): World {
    StoreDraft(Initial(config, 0).(accounts := map[ID := a]), POST)
  }

  predicate SetsUp(commands: seq<Command>, a: Account) {
    |commands| >= 2 && commands[0] == SaveAccount(0, a, None) && commands[1] == CreateDraft(0, POST)
  }

  lemma AfterRecords(config: Config, commands: seq<Command>, a: Account)
    requires SetsUp(commands, a) && a.id == ID
    ensures Run(Initial(config, 0), commands[..2]) == SetUp(config, a)
  {
    var w := Initial(config, 0);
    assert commands[..0] == [];
    RunOfPrefix(w, commands, 0);
    RunOfPrefix(w, commands, 1);
    assert w.(now := 0) == w;
    assert Step(w, commands[0]) == w.(accounts := map[ID := a]);
  }

  /** A request that every guard but the last lets through, under the account's lease. */
  predicate Sound(w: World, r: Request, target: Option<TargetRef>) {
    && w.now == 0 && w.trackers == Initial(w.config, 0).trackers
    && r.account.platform == Twitter && r.account.status == Active && r.account.authorization == CONSENT
    && r.account.lock.Some? && r.account.lock.value.HeldBy(r.caller, r.account.lock.value.token, 0)
    && r.lockToken == Some(r.account.lock.value.token)
    && r.account.overrides.(approveAllWrites := false) == NO_OVERRIDES
    && r.draft == Some(POST) && r.kind.None?
    && ((r.verb == Publish && target.None? && w.config.capabilities(Twitter).canPublish)
        || (r.verb == Comment && target == Some(TARGET) && w.config.capabilities(Twitter).canComment))
  }

  lemma SoundIsJudged(w: World, r: Request, target: Option<TargetRef>)
    requires Sound(w, r, target)
    ensures Judge(w, r, target).outcome == if r.account.overrides.approveAllWrites then Route else Allow
  {
    var c, t := ContextOf(w, r, target), w.trackers;
    forall g | g != Autonomy
      ensures Verdict(g, c, t).outcome == Allow
    {
      assert Since([], 0 - RATE_WINDOW) == [];
    }
    LastDecides(c, t);
  }

  /** A sound request with a new action is launched, unless it must be approved. */
  lemma SoundLaunches(w: World, client: nat, r: Request, target: Option<TargetRef>, actionId: Id, approvalId: Id)
    requires Sound(w, r, target) && !r.account.overrides.approveAllWrites && r.key.None?
    ensures var x := Submission(NewAction(r, actionId, target), r, target);
            && SubmitWrite(w, client, r, target, actionId, approvalId)
               == Block(w.(used := w.used + {actionId, approvalId}), Launching(client, x))
            && TransportOf(x) == Live
  {
    SoundIsJudged(w, r, target);
  }

  lemma PublishStep(w: World, c: Command)
    requires Enabled(w, c) && c.SubmitPublish? && c.now == w.now && c.accountId in w.accounts && c.draftId in w.drafts
    ensures Step(w, c) == Close(SubmitWrite(w, c.client, PublishRequest(w, c), None, c.actionId, c.approvalId))
  {
    assert w.(now := c.now) == w;
  }

  lemma ResolvedStep(w: World, c: Command, r: Request)
    requires Enabled(w, c) && c.TargetResolved? && c.now == w.now
    requires w.tasks[c.client] == Resolving(r) && IsWrite(r.verb)
    ensures Step(w, c)
         == Close(SubmitWrite(w.(tasks := w.tasks - {c.client}), c.client, r, Some(c.target), c.actionId, c.approvalId))
  {
    assert w.(now := c.now) == w;
  }

  lemma ExecutionWaits(w: World, client: nat, x: Execution)
    requires TransportOf(x) == Live
    ensures var y := x.(action := x.action.(state := Executing));
            var t := Execute(w, client, x);
            t == WithAction(w, y.action).(tasks := w.tasks[client := Running(y)], seen := t.seen)
  {
  }

  lemma DecisionStep(w: World, c: Command)
    requires Enabled(w, c) && c.DecideApproval? && c.now == w.now
    ensures Step(w, c) == Close(Decide(w, c.client, c.approvalId, c.decision, c.actor, c.reason))
  {
    assert w.(now := c.now) == w;
  }

  lemma SaveStep(w: World, a: Account)
    requires w.now == 0 && a.id in w.accounts && w.accounts[a.id].platform == a.platform
    ensures Step(w, SaveAccount(0, a, None)) == w.(accounts := w.accounts[a.id := a])
  {
    assert w.(now := 0) == w;
  }
}

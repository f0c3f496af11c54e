/**
 * Two runs with an execution that waits: in one a second agent takes the account over and publishes beside it, in
 * the other the adapter raises and no event is ever recorded.
 */
module OverlapRun {
  import opened Domain
  import opened ActionModel
  import opened LeaseActing
  import opened Scenario

  const START: seq<Command> := [
    SaveAccount(0, LEASED, None),
    CreateDraft(0, POST),
    SubmitPublish(0, 0, "alice", ID, ALICE.token, "draft", None, "act", "appr")]

  const OVERLAP: seq<Command> := START + [
    SaveAccount(0, FREED, None),
    SaveAccount(0, TAKEN, None),
    SubmitPublish(0, 1, "bob", ID, BOB.token, "draft", None, "action", "approval")]

  const SILENCE: seq<Command> := START + [AdapterReturned(0, 0, RaisedOther)]

  /** A guard-checked publish of this agent waits for the adapter. */
  predicate Publishes(tasks: map<nat, Task>, client: nat, agent: string) {
    && client in tasks && tasks[client].Running? && tasks[client].x.via == Submitted
    && tasks[client].x.action.verb == Publish && tasks[client].x.actor == agent && tasks[client].x.account.id == ID
  }

  /** Only alice's publish waits, and nothing else happened on the account. */
  ghost predicate AliceWaits(w: World, config: Config, a: Account) {
    && w.config == config && w.now == 0 && w.accounts == map[ID := a] && w.drafts == map["draft" := POST]
    && w.trackers == Initial(config, 0).trackers && w.used == {"draft", "act", "appr"} && w.audit == []
    && w.tasks.Keys == {0} && Publishes(w.tasks, 0, "alice") && w.tasks[0].x.action.id == "act"
    && "act" in w.actions && w.actions["act"].state == Executing
  }

  lemma IdsDiffer()
    ensures {"act", "appr"} !! {"draft"} && {"action", "approval"} !! {"draft", "act", "appr"}
    ensures "act" != "appr" && "action" != "approval"
  {
    assert |"act"| == 3 && |"appr"| == 4 && |"draft"| == 5 && |"action"| == 6 && |"approval"| == 8;
  }

  /** A publish under the account's lease is launched, whatever else waits. */
  lemma PublishLaunches(w: World, c: Command, a: Account)
    requires Enabled(w, c) && c.SubmitPublish? && c.now == w.now && c.key.None?
    requires c.accountId in w.accounts && c.draftId in w.drafts && Sound(w, PublishRequest(w, c), None)
    requires w.accounts[c.accountId] == a && !a.overrides.approveAllWrites
    ensures var r := PublishRequest(w, c);
            Step(w, c) == Execute(w.(used := w.used + {c.actionId, c.approvalId}), c.client,
                                  Submission(NewAction(r, c.actionId, None), r, None))
  {
    var r := PublishRequest(w, c);
    PublishStep(w, c);
    SoundLaunches(w, c.client, r, None, c.actionId, c.approvalId);
  }

  lemma AliceLaunches(config: Config)
    requires config.capabilities(Twitter).canPublish
    ensures var w := SetUp(config, LEASED);
            var r := Request("alice", LEASED, Publish, Some(ALICE.token), Some(POST), None, None);
            && Step(w, START[2]) == Execute(w.(used := w.used + {"act", "appr"}), 0,
                                            Submission(NewAction(r, "act", None), r, None))
            && TransportOf(Submission(NewAction(r, "act", None), r, None)) == Live
  {
    var w := SetUp(config, LEASED);
    IdsDiffer();
    PublishLaunches(w, START[2], LEASED);
    SoundLaunches(w, 0, PublishRequest(w, START[2]), None, "act", "appr");
  }

  lemma AlicePublishes(config: Config)
    requires config.capabilities(Twitter).canPublish
    ensures AliceWaits(Step(SetUp(config, LEASED), START[2]), config, LEASED)
  {
    var w := SetUp(config, LEASED);
    var r := Request("alice", LEASED, Publish, Some(ALICE.token), Some(POST), None, None);
    AliceLaunches(config);
    ExecutionWaits(w.(used := w.used + {"act", "appr"}), 0, Submission(NewAction(r, "act", None), r, None));
  }

  lemma AccountIsSaved(w: World, config: Config, a: Account, b: Account)
    requires AliceWaits(w, config, a) && a.id == b.id == ID && a.platform == b.platform
    ensures AliceWaits(Step(w, SaveAccount(0, b, None)), config, b)
  {
    SaveStep(w, b);
  }

  predicate BothPublish(w: World) {
    Publishes(w.tasks, 0, "alice") && Publishes(w.tasks, 1, "bob") && w.accounts == map[ID := TAKEN]
  }

  lemma BobPublishes(w: World, config: Config)
    requires AliceWaits(w, config, TAKEN) && config.capabilities(Twitter).canPublish
    ensures BothPublish(Step(w, OVERLAP[5]))
  {
    var r := PublishRequest(w, OVERLAP[5]);
    IdsDiffer();
    PublishLaunches(w, OVERLAP[5], TAKEN);
    SoundLaunches(w, 1, r, None, "action", "approval");
    ExecutionWaits(w.(used := w.used + {"action", "approval"}), 1, Submission(NewAction(r, "action", None), r, None));
  }

  /** Alice's action is left executing; nothing waits, and nothing was ever recorded. */
  predicate Silent(w: World) {
    "act" in w.actions && w.actions["act"].state == Executing && w.tasks == map[] && w.audit == []
  }

  lemma ExceptionIsSilent(w: World, config: Config)
    requires AliceWaits(w, config, LEASED)
    ensures Silent(Step(w, SILENCE[3]))
  {
    assert w.(now := 0) == w;
    assert w.tasks - {0} == map[];
  }

  lemma AfterStart(config: Config, commands: seq<Command>)
    requires config.capabilities(Twitter).canPublish && |commands| >= 3 && commands[..3] == START
    ensures Run(Initial(config, 0), commands[..2]) == SetUp(config, LEASED)
    ensures AliceWaits(Run(Initial(config, 0), commands[..3]), config, LEASED)
  {
    assert forall i :: 0 <= i < 3 ==> commands[i] == commands[..3][i];
    AfterRecords(config, commands, LEASED);
    RunOfPrefix(Initial(config, 0), commands, 2);
    AlicePublishes(config);
  }

  lemma AfterSave(commands: seq<Command>, n: nat, config: Config, a: Account, b: Account)
    requires n < |commands| && commands[n] == SaveAccount(0, b, None)
    requires AliceWaits(Run(Initial(config, 0), commands[..n]), config, a)
    requires a.id == b.id == ID && a.platform == b.platform
    ensures AliceWaits(Run(Initial(config, 0), commands[..n + 1]), config, b)
  {
    RunOfPrefix(Initial(config, 0), commands, n);
    AccountIsSaved(Run(Initial(config, 0), commands[..n]), config, a, b);
  }

  lemma AfterTakeover(config: Config)
    requires config.capabilities(Twitter).canPublish
    ensures Run(Initial(config, 0), OVERLAP[..2]) == SetUp(config, LEASED)
    ensures AliceWaits(Run(Initial(config, 0), OVERLAP[..5]), config, TAKEN)
  {
    AfterStart(config, OVERLAP);
    AfterSave(OVERLAP, 3, config, LEASED, FREED);
    AfterSave(OVERLAP, 4, config, FREED, TAKEN);
  }

  lemma AccountsAreStored(config: Config, u: World, w: World)
    requires u == SetUp(config, LEASED) && AliceWaits(w, config, TAKEN)
    ensures Shows(u, Store(SET_UP)) && Shows(w, Store(SET_UP + [GIVE_BACK] + [TAKE_OVER]))
  {
    StoreIsLeased();
    StoreIsTaken();
    ShowsIt(u, Store(SET_UP), LEASED, {ALICE.token});
    ShowsIt(w, Store(SET_UP + [GIVE_BACK] + [TAKE_OVER]), TAKEN, {ALICE.token, BOB.token});
  }

  /**
   * Wherever Twitter accepts posts, this run ends with publishes of two agents waiting on one account: alice checked
   * in while hers waited, and bob checked out. The store shows the same accounts when each of them publishes.
   */
  lemma TwoAgentsPublishAtOnce(config: Config)
    requires config.capabilities(Twitter).canPublish
    ensures BothPublish(Run(Initial(config, 0), OVERLAP))
    ensures Shows(Run(Initial(config, 0), OVERLAP[..2]), Store(SET_UP))
    ensures Shows(Run(Initial(config, 0), OVERLAP[..5]), Store(SET_UP + [GIVE_BACK] + [TAKE_OVER]))
  {
    AfterTakeover(config);
    AccountsAreStored(config, Run(Initial(config, 0), OVERLAP[..2]), Run(Initial(config, 0), OVERLAP[..5]));
    BobPublishes(Run(Initial(config, 0), OVERLAP[..5]), config);
    RunOfPrefix(Initial(config, 0), OVERLAP, 5);
    assert OVERLAP[..6] == OVERLAP;
  }

  /** Wherever Twitter accepts posts, this run ends with an action that executes for ever and has no event. */
  lemma ExecutingWithoutEvent(config: Config)
    requires config.capabilities(Twitter).canPublish
    ensures Silent(Run(Initial(config, 0), SILENCE))
  {
    AfterStart(config, SILENCE);
    RunOfPrefix(Initial(config, 0), SILENCE, 3);
    ExceptionIsSilent(Run(Initial(config, 0), SILENCE[..3]), config);
    assert SILENCE[..4] == SILENCE;
  }
}

/**
 * Runs of five commands in which a comment is sent although its agent has already given the account back, or its owner
 * has already revoked the consent. The accounts they save are those that the store holds at the same moments.
 */
module StaleSnapshotRun {
  import opened Domain
  import opened Lifecycle
  import Interleaving
  import opened ActionModel
  import opened LeaseActing
  import opened Scenario

  /** The account is saved as `later` while the comment's target is being resolved. */
  function Commands(later: Account): seq<Command> {
    [ SaveAccount(0, LEASED, None),
      CreateDraft(0, POST),
      BeginTargeted(0, 0, "alice", ID, Comment, ALICE.token, "draft", "", None),
      SaveAccount(0, later, None),
      TargetResolved(0, 0, TARGET, "act", "appr")]
  }

  predicate SameAccount(a: Account) { a.id == ID && a.platform == LEASED.platform }

  const REQUEST := Request("alice", LEASED, Comment, Some(ALICE.token), Some(POST), None, None)

  function World4(config: Config, later: Account): World {
    SetUp(config, LEASED).(accounts := map[ID := later], tasks := map[0 := Resolving(REQUEST)])
  }

  lemma AccountChanges(config: Config, later: Account)
    requires SameAccount(later)
    ensures Step(Step(SetUp(config, LEASED), Commands(later)[2]), Commands(later)[3]) == World4(config, later)
  {
    var w := SetUp(config, LEASED);
    assert w.(now := 0) == w;
    assert Step(w, Commands(later)[2]) == w.(tasks := map[0 := Resolving(REQUEST)]);
    SaveStep(w.(tasks := map[0 := Resolving(REQUEST)]), later);
  }

  /** One comment has been sent, on the account as it is now. */
  predicate CommentSent(w: World, a: Account) {
    |w.seen.sent| == 1 && w.seen.sent[0].verb == Comment && w.accounts == map[ID := a]
  }

  lemma LaunchSends(w: World, x: Execution)
    requires x.action.verb == Comment && w.seen.sent == []
    ensures |Execute(w, 0, x).seen.sent| == 1 && Execute(w, 0, x).seen.sent[0].verb == Comment
    ensures Execute(w, 0, x).accounts == w.accounts
  {
  }

  const COMMENT := Submission(NewAction(REQUEST, "act", Some(TARGET)), REQUEST, Some(TARGET))

  /** The world in which the comment is judged. */
  function World5(config: Config, later: Account): World {
    World4(config, later).(tasks := map[], used := {"draft", "act", "appr"})
  }

  lemma CommentIsLaunched(config: Config, later: Account)
    requires config.capabilities(Twitter).canComment
    ensures Step(World4(config, later), Commands(later)[4]) == Execute(World5(config, later), 0, COMMENT)
  {
    var w := World4(config, later);
    var v := w.(tasks := w.tasks - {0});
    assert |"act"| != |"appr"| && |"act"| != |"draft"| && |"appr"| != |"draft"|;
    ResolvedStep(w, Commands(later)[4], REQUEST);
    SoundLaunches(v, 0, REQUEST, Some(TARGET), "act", "appr");
    assert v.(used := v.used + {"act", "appr"}) == World5(config, later);
  }

  lemma CommentIsSent(config: Config, later: Account)
    requires config.capabilities(Twitter).canComment
    ensures CommentSent(Step(World4(config, later), Commands(later)[4]), later)
  {
    CommentIsLaunched(config, later);
    LaunchSends(World5(config, later), COMMENT);
  }

  lemma AfterChange(config: Config, later: Account)
    requires SameAccount(later)
    ensures Run(Initial(config, 0), Commands(later)[..4]) == World4(config, later)
  {
    var w, commands := Initial(config, 0), Commands(later);
    AfterRecords(config, commands, LEASED);
    RunOfPrefix(w, commands, 2);
    RunOfPrefix(w, commands, 3);
    assert Run(w, commands[..4]) == Step(Step(SetUp(config, LEASED), commands[2]), commands[3]);
    AccountChanges(config, later);
  }

  /** The comment reads its account where the store has leased it to alice, and is judged where `later` is stored. */
  lemma AccountsAreStored(config: Config, later: Account, s: Interleaving.System, tokens: set<string>)
    requires SameAccount(later) && Holding(s, later, tokens)
    ensures Shows(Run(Initial(config, 0), Commands(later)[..2]), Store(SET_UP))
    ensures Shows(Run(Initial(config, 0), Commands(later)[..4]), s)
  {
    AfterRecords(config, Commands(later), LEASED);
    AfterChange(config, later);
    StoreIsLeased();
    ShowsIt(SetUp(config, LEASED), Store(SET_UP), LEASED, {ALICE.token});
    ShowsIt(World4(config, later), s, later, tokens);
  }

  lemma CommentGoesOut(config: Config, later: Account)
    requires config.capabilities(Twitter).canComment && SameAccount(later)
    ensures CommentSent(Run(Initial(config, 0), Commands(later)), later)
  {
    AfterChange(config, later);
    RunOfPrefix(Initial(config, 0), Commands(later), 4);
    CommentIsSent(config, later);
    assert Commands(later)[..5] == Commands(later);
  }

  /** Wherever Twitter accepts comments, a run sends one on an account that nobody holds any more. */
  lemma CommentWithoutLease(config: Config)
    requires config.capabilities(Twitter).canComment
    ensures var w := Run(Initial(config, 0), Commands(FREED));
            && |w.seen.sent| == 1 && w.seen.sent[0].verb == Comment
            && ID in w.accounts && w.accounts[ID].lock.None?
    ensures Shows(Run(Initial(config, 0), Commands(FREED)[..2]), Store(SET_UP))
    ensures Shows(Run(Initial(config, 0), Commands(FREED)[..4]), Store(SET_UP + [GIVE_BACK]))
  {
    StoreIsFreed();
    AccountsAreStored(config, FREED, Store(SET_UP + [GIVE_BACK]), {ALICE.token});
    CommentGoesOut(config, FREED);
  }

  /** And a run sends one on an account whose owner has revoked the consent, and which is suspended. */
  lemma CommentWithoutConsent(config: Config)
    requires config.capabilities(Twitter).canComment
    ensures var w := Run(Initial(config, 0), Commands(REVOKED));
            && |w.seen.sent| == 1 && w.seen.sent[0].verb == Comment
            && ID in w.accounts && w.accounts[ID].authorization.revokedAt.Some? && w.accounts[ID].status == Suspended
    ensures Shows(Run(Initial(config, 0), Commands(REVOKED)[..2]), Store(SET_UP))
    ensures Shows(Run(Initial(config, 0), Commands(REVOKED)[..4]), Store(SET_UP + [Revoke]))
  {
    StoreIsRevoked();
    AccountsAreStored(config, REVOKED, Store(SET_UP + [Revoke]), {ALICE.token});
    CommentGoesOut(config, REVOKED);
  }
}

/**
 * A run of seven commands that leaves an open approval on an action that is done. On the way a publish is approved
 * and sent although nobody holds the account any more.
 */
module SpoiltRun {
  import opened Domain
  import opened Approvals
  import opened ActionModel
  import opened JointStates
  import opened LeaseActing
  import opened Scenario

  const COMMANDS: seq<Command> := [
    SaveAccount(0, GATED, None),
    CreateDraft(0, POST),
    SubmitPublish(0, 0, "alice", ID, ALICE.token, "draft", None, "act", "appr"),
    SaveAccount(0, GATED_FREED, None),
    DecideApproval(0, 1, "appr", Approve, "human", None),
    ResubmitApproval(0, "alice", "appr"),
    AdapterReturned(0, 1, Succeeded)]

  const ACT := Action("act", ID, Publish, None, Some("draft"), None, "alice", None, NeedsApproval)

  /** The item is pinned to the draft as it is, and nothing runs. */
  predicate Queued(w: World, a: Account) {
    && w.now == 0 && w.tasks == map[] && w.accounts == map[ID := a] && w.drafts == map["draft" := POST]
    && w.actions == map["act" := ACT] && "appr" in w.approvals
    && w.approvals["appr"] == NewItem("appr", ACT, Some(1), 0, w.config.approvalTtl)
  }

  lemma RoutedSubmission(w: World, client: nat, r: Request, actionId: Id, approvalId: Id)
    requires Sound(w, r, None) && r.account.overrides.approveAllWrites && r.key.None?
    ensures var u, a := w.(used := w.used + {actionId, approvalId}), NewAction(r, actionId, None);
            SubmitWrite(w, client, r, None, actionId, approvalId)
            == Block(Pinned(u, NewItem(approvalId, a, RevisionOf(r.draft), w.now, w.config.approvalTtl), a, r.draft),
                     Settling(a, NeedsApproval, r.caller, Route, Some(ApprovalRequired)))
  {
    SoundIsJudged(w, r, None);
  }

  lemma SubmissionQueues(config: Config)
    requires config.capabilities(Twitter).canPublish
    ensures Queued(Step(SetUp(config, GATED), COMMANDS[2]), GATED)
  {
    var w := SetUp(config, GATED);
    assert |"act"| != |"appr"| && |"act"| != |"draft"| && |"appr"| != |"draft"|;
    PublishStep(w, COMMANDS[2]);
    RoutedSubmission(w, 0, PublishRequest(w, COMMANDS[2]), "act", "appr");
  }

  /** Approved, the action waits for the adapter with its item closed. */
  predicate Launched(w: World) {
    && w.now == 0 && 1 in w.tasks && w.tasks[1].Running? && w.tasks[1].x.action == ACT.(state := Executing)
    && w.accounts == map[ID := GATED_FREED] && w.drafts == map["draft" := POST] && "act" in w.actions
    && w.actions["act"] == ACT.(state := Executing)
    && "appr" in w.approvals && w.approvals["appr"].actionId == "act" && w.approvals["appr"].id == "appr"
  }

  const EXECUTION := Execution(ACT, GATED_FREED, Some(POST), None, None, "human", ApprovedBy("appr"))

  lemma ApprovalIsGranted(w: World)
    requires Queued(w, GATED_FREED)
    ensures Decide(w, 1, "appr", Approve, "human", None)
         == Block(WithApproval(w, Reviewed(w.approvals["appr"], Approved, "human", None, 0)), Launching(1, EXECUTION))
  {
  }

  lemma ApprovalLaunches(w: World)
    requires Queued(w, GATED_FREED)
    ensures Launched(Step(w, COMMANDS[4]))
  {
    DecisionStep(w, COMMANDS[4]);
    ApprovalIsGranted(w);
    ExecutionWaits(WithApproval(w, Reviewed(w.approvals["appr"], Approved, "human", None, 0)), 1, EXECUTION);
  }

  /** Reopened while it waits. */
  predicate ReopenedTooSoon(w: World) {
    && w.now == 0 && 1 in w.tasks && w.tasks[1].Running? && w.tasks[1].x.action.id == "act"
    && "appr" in w.approvals && w.approvals["appr"].review == Open && w.approvals["appr"].actionId == "act"
  }

  lemma ResubmissionReopens(w: World)
    requires Launched(w)
    ensures ReopenedTooSoon(Step(w, COMMANDS[5]))
  {
    assert w.(now := 0) == w;
  }

  lemma AfterSubmission(config: Config)
    requires config.capabilities(Twitter).canPublish
    ensures Run(Initial(config, 0), COMMANDS[..2]) == SetUp(config, GATED)
    ensures Queued(Run(Initial(config, 0), COMMANDS[..3]), GATED)
  {
    AfterRecords(config, COMMANDS, GATED);
    RunOfPrefix(Initial(config, 0), COMMANDS, 2);
    SubmissionQueues(config);
  }

  lemma ReleaseKeepsQueue(w: World)
    requires Queued(w, GATED)
    ensures Queued(Step(w, COMMANDS[3]), GATED_FREED)
  {
    SaveStep(w, GATED_FREED);
  }

  lemma AfterRelease(w0: World)
    requires Queued(Run(w0, COMMANDS[..3]), GATED)
    ensures Queued(Run(w0, COMMANDS[..4]), GATED_FREED)
  {
    RunOfPrefix(w0, COMMANDS, 3);
    ReleaseKeepsQueue(Run(w0, COMMANDS[..3]));
  }

  lemma AfterApproval(w0: World)
    requires Queued(Run(w0, COMMANDS[..4]), GATED_FREED)
    ensures Launched(Run(w0, COMMANDS[..5]))
  {
    RunOfPrefix(w0, COMMANDS, 4);
    ApprovalLaunches(Run(w0, COMMANDS[..4]));
  }

  lemma AfterResubmission(w0: World)
    requires Launched(Run(w0, COMMANDS[..5]))
    ensures ReopenedTooSoon(Run(w0, COMMANDS[..6]))
  {
    RunOfPrefix(w0, COMMANDS, 5);
    ResubmissionReopens(Run(w0, COMMANDS[..5]));
  }

  lemma AfterReturn(w0: World)
    requires ReopenedTooSoon(Run(w0, COMMANDS[..6]))
    ensures Spoilt(Run(w0, COMMANDS))
  {
    RunOfPrefix(w0, COMMANDS, 6);
    assert COMMANDS[..7] == COMMANDS;
    ReturnSpoils(Run(w0, COMMANDS[..6]));
  }

  predicate Spoilt(w: World) {
    && "appr" in w.approvals && w.approvals["appr"].review == Open && w.approvals["appr"].actionId == "act"
    && "act" in w.actions && w.actions["act"].state == Done
  }

  lemma ReturnSpoils(w: World)
    requires ReopenedTooSoon(w)
    ensures Spoilt(Step(w, COMMANDS[6]))
  {
    ReopenedDuringExecutionBreaks(w, "appr", 1, Succeeded);
  }

  /**
   * Wherever Twitter accepts posts, the approved publish waits for the adapter while the account, in the service and
   * in the store, is leased to nobody.
   */
  lemma ApprovedWithoutLease(config: Config)
    requires config.capabilities(Twitter).canPublish
    ensures Shows(Run(Initial(config, 0), COMMANDS[..2]), Store(SET_UP + [GATE]))
    ensures Shows(Run(Initial(config, 0), COMMANDS[..4]), Store(SET_UP + [GATE] + [GIVE_BACK]))
    ensures Launched(Run(Initial(config, 0), COMMANDS[..5]))
  {
    var w0 := Initial(config, 0);
    AfterSubmission(config);
    AfterRelease(w0);
    AfterApproval(w0);
    StoreIsGated();
    StoreIsGatedAndFreed();
    ShowsIt(SetUp(config, GATED), Store(SET_UP + [GATE]), GATED, {ALICE.token});
    ShowsIt(Run(w0, COMMANDS[..4]), Store(SET_UP + [GATE] + [GIVE_BACK]), GATED_FREED, {ALICE.token});
  }

  /** And the run ends with an open item on an action that is done. */
  lemma OpenItemOnDoneAction(config: Config)
    requires config.capabilities(Twitter).canPublish
    ensures Spoilt(Run(Initial(config, 0), COMMANDS))
  {
    ApprovedWithoutLease(config);
    AfterResubmission(Initial(config, 0));
    AfterReturn(Initial(config, 0));
  }
}

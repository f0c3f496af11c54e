# Verification of the account pool

The account pool lets many agents drive shared social-media accounts through a lease lock, an
optimistic-version store, a guard pipeline, an approval queue and an append-only audit log. This project
models that engine in Dafny and proves what it promises over every interleaving of its callers.

Three linked parts:

1. **Account store, leases, lifecycle.** `AccountStore` is the table with its indexed columns and the
   conditional update; `Lifecycle` holds the lock and account services as classes over it; `Contention` is the
   retry loop of `checkout` under other clients' commits; `Interleaving` is the step system in which any number
   of clients take a snapshot, suspend, and later try to commit. `LifecycleRefinement` proves that the methods of
   the classes are calls of that system, so its theorems are about the tables they write. `AccountHistory` tells every
   field of a stored account from the log of committed operations alone.
2. **Acting.** `ActionModel` is the step system of the acting service: one command is one synchronous block,
   from a call or a resumption to the next adapter await. Calls suspended at their awaits, the adapter's answer
   (success, rejection, the two expected exceptions, any other exception) and the logs of what was executed and
   sent are part of the world. `Service.ActionService` is the same service over mutable tables, queue and
   trackers; every block of it is proved to be the step of `ActionModel`, so every theorem about runs holds of
   its fields (`ServiceSafety`). `Structure` keeps what all run theorems share. `OwnLeases` and `LeaseActing` join
   the two step systems: by which lease a submitted write proceeds, when the store still carries that lease, and
   what the lease does not cover; `ConsentActing` joins them for the owner's consent. `Scenario` and the `Run` files
   are runs of both systems together. `Decisions` and `Effects` say field by field when an approval launches its act
   and what every decision, launch, answer and edit leaves behind; `SentActs` says of every adapter call of every run
   what allowed it and what it carries.
3. **Policy and trackers.** `Trackers` has the destructively pruned lists as classes, specified by histories
   that are never pruned; `Policies`, `Guards` and `Tightening` have policy resolution, the ten guards in their
   order, and what overrides can and cannot loosen. `Admission` says from the records and the counts alone which
   requests are launched, queued or refused, and with which code.

The run theorems speak of `Run(Initial(config, start), commands)` for arbitrary commands; a command that
cannot happen in a world (a clock running backwards, a minted id already in use, a resumption without its
suspended call) leaves it unchanged, so they cover every interleaving and every boundary between blocks.

Where code and documentation disagree, the model follows the code:

- "Overrides may only tighten" (policy/policies.py:1-6) fails when an override lowers a baseline limit to 0 or
  less, because a limit of 0 or less switches the check off. `Tightening.TighteningExactlyWhenLimitsKept` gives
  the exact condition.
- "Every path emits exactly one audit event" (actions/service.py:1-6) is not true of every path. A command adds
  one event or none, and `AuditCount.OneEventExactlyWhenRecorded` says which, from the state before it: none for an
  unknown record, for an idempotent replay, for a call that goes on to wait for a target or an adapter, for a
  request for changes, and for an exception that escapes from `_execute`, from a read or from resolving a target.
  What the sentence is for does hold: in every run, an action that never went through the approval queue has no
  event while it executes and exactly one afterwards (`AuditCount.OneEventPerAction`), and the last event of any
  action gives its state (`AuditReplay.AuditReplaysToStates`). `OverlapRun.ExecutingWithoutEvent` is a run that ends
  with an action executing for ever and no event at all.
- An open item need not belong to an action that needs approval: resubmitting while an execution of the action
  waits for its adapter breaks this, and nothing else does (`JointStates.ResubmitSpoiltExactlyInFlight`);
  `SpoiltRun.OpenItemOnDoneAction` is such a run.
- ACTIVE need not mean connected and authorized, suspension need not last, and the status need not be the
  recomputed one, because a patch may set any `status`. Each of the three holds of every committed value if and only
  if no patch of one kind commits: one that activates an account that is not connected and authorized
  (`Interleaving.ActiveMeansConnectedAndAuthorized`), one that lifts a suspension or retirement
  (`Interleaving.SuspensionIsAbsorbing`), one that sets neither a withholding nor the recomputed status
  (`Interleaving.StatusIsRecomputed`). Runs in which such patches commit are
  `Interleaving.StatusPatchCanActivateAnything` and `LifecycleRefinement.SuspensionCanBeLifted`.
- "No acting is permitted" without consent (domain/models.py:76) holds of publishes and approvals
  (`ConsentActing.PublishNeedsTheGrant`, `ConsentActing.ApprovalNeedsTheGrant`). A comment or reaction goes by the
  consent from before its target was resolved, and the stored one still covers it if and only if the last grant or
  revocation in the log does (`ConsentActing.TargetedNeedsTheEarlierGrant`); `StaleSnapshotRun.CommentWithoutConsent`
  sends a comment after the revocation.
- "Only one agent acts on an account at a time" (domain/models.py:95) is not what the lease gives. It is looked at
  once, when a submitted write is judged, and three things escape it:
  - Nothing holds the lease while an execution waits for its adapter. Another agent can take the account over beside
    it if and only if the first one's own lock operations leave it no unexpired lease
    (`LeaseActing.TakeoverExactlyWhenNotHeld`); `OverlapRun.TwoAgentsPublishAtOnce` ends with publishes of two agents
    waiting on one account. Until then every publish that proceeds is the first agent's
    (`LeaseActing.OnePublisherAtATime`).
  - Comments and reactions are judged by the account as it was before their target was resolved. The stored row still
    carries that lease if and only if their agent's last lock operation since then is none, or a refresh of the same
    token that has not run out (`LeaseActing.TargetedIsLeasedInStore`); `StaleSnapshotRun.CommentWithoutLease` sends a
    comment on an account that nobody holds any more.
  - An approval looks at no lease at all (`LeaseActing.ApprovalNeedsNoLease`, `SpoiltRun.ApprovedWithoutLease`).

## Model

| member | source | states |
|---|---|---|
| AccountStore.AccountRepository.Add | src/account_pool/db/repositories.py:47-64 | a known id is refused; otherwise the row is filed with columns that repeat the payload |
| AccountStore.AccountRepository.Update | src/account_pool/db/repositories.py:92-126 | commits exactly when the stored version is the expected one, bumps it by one, and otherwise leaves the table as it was |
| AccountStore.AccountRepository.List | src/account_pool/db/repositories.py:71-90 | filtering by columns finds exactly the accounts whose payload passes the filter, each once |
| Lifecycle.OperationsKeepApart | src/account_pool/accounts/service.py:54-331 | lock, authorization, connection, health, patched fields and status each have their own writers; everything else stays |
| Lifecycle.LockService.Refresh | src/account_pool/actions/locking.py:53-70 | a longer lease, acquired when it was, exactly for the holder of an unexpired lease with its token, and LockHeld for everybody else |
| Lifecycle.LockService.Checkin | src/account_pool/actions/locking.py:72-84 | releases the lock exactly for holder and token, expired or not; InvalidState without a lock, else LockHeld |
| Lifecycle.AccountService.Authorize | src/account_pool/accounts/service.py:98-127 | the new authorization replaces the old one whole, and the status is recomputed, in one commit |
| Lifecycle.AccountService.RevokeAuthorization | src/account_pool/accounts/service.py:129-143 | dates the revocation and suspends, whatever the status was |
| Lifecycle.AccountService.RecomputeStatus | src/account_pool/accounts/service.py:54-62 | suspended and retired are kept; otherwise the status is what connection and authorization call for |
| Lifecycle.AccountService.BeginConnect | src/account_pool/accounts/service.py:155-166 | before its awaits, connect has stored the connection row and holds a snapshot; no account names the row yet |
| Lifecycle.AccountService.FinishConnect | src/account_pool/accounts/service.py:165-193 | after its awaits, connect writes from its old snapshot and commits only if nothing else did meanwhile |
| Lifecycle.AccountService.FinishHealthCheck | src/account_pool/accounts/service.py:234-253 | after its await, the health check commits only over its own snapshot |
| Lifecycle.AccountService.FinishRefreshCredentials | src/account_pool/accounts/service.py:207-232 | after its await, the refreshed health commits only over its own snapshot |
| Lifecycle.AccountService.SetFields | src/account_pool/accounts/service.py:272-281 | the loop over the supplied fields, in whatever order, sets each to its value and keeps every other field |
| Lifecycle.AccountService.Patch | src/account_pool/accounts/service.py:255-292 | a patch needs an unexpired lease and its token, then the expected version, and says which was missing; it may set any status |
| Lifecycle.AccountService.Retire | src/account_pool/accounts/service.py:294-307 | retires in one commit, without a lease |
| Lifecycle.AccountService.Disconnect | src/account_pool/accounts/service.py:309-331 | deletes the connection row the account names, clears connection and compliance marks and recomputes the status |
| Contention.TryOnce | src/account_pool/actions/locking.py:35-50 | one round: refused by a foreign active lease, lost exactly when someone commits between its read and its update, else committed |
| Contention.RoundByFields | src/account_pool/actions/locking.py:35-50 | a round answers LockHeld under another holder's unexpired lease, Conflict after a foreign commit, and else a new lease from its own instant |
| Contention.Checkout | src/account_pool/actions/locking.py:33-51 | up to four rounds; Conflict means all four were lost to foreign commits, and then the call wrote nothing |
| Contention.SuccessAddsOneVersion | src/account_pool/actions/locking.py:41-47 | a successful checkout adds exactly one version of its own to what the others committed |
| Contention.ConflictMeansFourForeignCommits | src/account_pool/actions/locking.py:35-51 | Conflict only if at least four foreign commits hit the account during the call |
| Interleaving.CommitHitsSnapshot | src/account_pool/db/repositories.py:105-126 | an update that finds the expected version finds its own snapshot |
| Interleaving.NoLostUpdate | src/account_pool/db/repositories.py:92-126 | committed values form a chain of single operations, the table holds the last, versions count without gaps |
| Interleaving.LosersFollowWinners | src/account_pool/db/repositories.py:118-125 | who loses finds a newer row and changes nothing; who wins writes its operation over its own snapshot |
| Interleaving.LeaseSafety | src/account_pool/actions/locking.py:33-51 | until it expires a committed lease stays on the row, whatever others do, unless its holder's lock operation commits |
| Interleaving.TokenHoldersCommit | src/account_pool/actions/locking.py:53-84 | a refresh, checkin or patch commits only over a row that still carries its token |
| Interleaving.CommitsAreEntitled | src/account_pool/actions/locking.py:33-84 | in every chain of commits, each checkout, refresh, checkin and patch found on the very row it replaced the lease, token, expiry and version that entitle it |
| Interleaving.BeginsExactlyWhenEntitled | src/account_pool/actions/locking.py:33-84 | an operation takes its snapshot if and only if the row entitles it at that instant |
| Interleaving.CheckoutFences | src/account_pool/actions/locking.py:41-45 | a checkout that commits over a lease fences the old token off |
| Interleaving.FencedForever | src/account_pool/accounts/service.py:255-283 | a fenced token stays fenced and nothing presenting it commits on that account again |
| Interleaving.SuspensionIsAbsorbing | src/account_pool/accounts/service.py:108-142 | every value after a suspension or retirement is withheld if and only if no patch to another status commits, whatever older snapshots are in flight |
| Interleaving.StatusAfterWrite | src/account_pool/accounts/service.py:54-62 | every operation but a status patch keeps withheld accounts withheld, the status law and the active law |
| Interleaving.StatusIsRecomputed | src/account_pool/accounts/service.py:54-62 | every committed status is withheld or the recomputed one if and only if no misstating status patch commits |
| Interleaving.ActiveMeansConnectedAndAuthorized | src/account_pool/accounts/service.py:155-185 | every committed ACTIVE value is connected and authorized if and only if no patch activates an account that is not |
| Interleaving.GoodWritesKeep | src/account_pool/db/repositories.py:92-126 | along a chain of commits, a law that only bad writes break holds of every value when none is bad |
| Interleaving.StatusPatchCanActivateAnything | src/account_pool/accounts/service.py:278-279 | a run from the empty store patches any newborn account to ACTIVE |
| LifecycleRefinement.PerformedIsACall | src/account_pool/accounts/service.py:98-331 | a method takes the table where a begin and its finish take it, and logs a commit exactly when it reports success |
| LifecycleRefinement.MethodExtendsRun | src/account_pool/accounts/service.py:98-331 | a repository that shows a run's table shows a longer run's table after such a method: chain and versions included |
| LifecycleRefinement.ResumptionExtendsRun | src/account_pool/accounts/service.py:165-253 | a method that resumes on a waiting call's snapshot commits exactly where the row is still the snapshot, and extends the run |
| LifecycleRefinement.RoundIsACall | src/account_pool/actions/locking.py:35-50 | a round of checkout is a begin, other clients' commits, and its finish |
| LifecycleRefinement.SuspensionCanBeLifted | src/account_pool/accounts/service.py:278-279 | a run from the empty store retires any newborn account and patches it back to ACTIVE |
| OwnLeases.RecordDecides | src/account_pool/actions/locking.py:33-84 | whatever others do, an agent holds the account, and under its token, if and only if its own last lock operation and the clock say so |
| OwnLeases.RecordStep | src/account_pool/actions/locking.py:33-84 | every step of any client keeps an agent's record of its own lease and the row in agreement |
| AccountHistory.RowsTellTheirHistory | src/account_pool/accounts/service.py:65-331 | in every run, each field of a stored account (consent, connection, health, lease, patched fields, status) is what the last committed operation of its kind made it, and as registered before |
| AccountHistory.ConsentIsTheLastGrant | src/account_pool/accounts/service.py:98-143 | in every run, the consent is the scopes of the last committed authorize and no others, and stands exactly until a revoke commits after it |
| AccountHistory.NoConsentBeforeTheFirstGrant | src/account_pool/domain/models.py:75-91 | before the first committed authorize nothing is consented to |
| Ids.PrefixMatchesPlatform | src/account_pool/domain/ids.py:14-20 | the prefix test accepts exactly the accounts minted for that platform, whatever the handle |
| Ids.RateKeyInjective | src/account_pool/policy/ratelimit.py:21-23 | two (account, verb) pairs never share a rate list |
| Ids.TargetKeyInjective | src/account_pool/policy/context.py:36-39 | two targets share a coordination list exactly if they are the same text on the same platform |
| Approvals.ApprovalQueue.Submit | src/account_pool/approvals/queue.py:24-35 | queues one open item with the given pin and a lifetime from now |
| Approvals.ApprovalQueue.Reopen | src/account_pool/approvals/queue.py:52-60 | reopening forgets the decision, pins the latest revision and restarts the lifetime |
| Approvals.ApprovalQueue.SetState | src/account_pool/approvals/queue.py:62-75 | a decision keeps action, account, pin and lifetime, and an earlier reason if it brings none |
| Approvals.ApprovalQueue.ListOpen | src/account_pool/approvals/queue.py:40-50 | column query and list filters find exactly the open payloads that match, each once, in the order of last writing |
| Approvals.PlatformListingIsExact | src/account_pool/approvals/queue.py:46-47 | listing by platform lists exactly that platform's open items |
| Policies.ResolvePolicy | src/account_pool/policy/policies.py:76-97 | the loop over overrides computes, order aside, the smaller of each pair of limits, the raised flags and the larger ratio |
| Policies.OverridesKeepTheSendingRules | src/account_pool/policy/policies.py:76-97 | no override reaches publish mode, allowed verbs, reactions or votes, and a Reddit ratio never drops below 9 |
| Policies.LimitsByVerb | src/account_pool/policy/policies.py:55-73 | the limits per minute of every platform, verb by verb |
| Guards.FirstObjectionDecides | src/account_pool/policy/engine.py:19-29 | the outcome is the first objection's, everything before it passed, and the trace ends with it |
| Guards.NotDenied | src/account_pool/policy/guards.py:210-221 | whatever is not denied passed every guard but the last; reads are never routed |
| Guards.PolicyEngine.RunGuard | src/account_pool/policy/guards.py:24-207 | each guard over the pruning trackers answers as over the unpruned histories and changes none of them; what it holds against a request is `Admission.GuardsByFields` |
| Guards.GuardByGuard | src/account_pool/policy/engine.py:19-29 | one pass of the loop: an objection ends it with its decision as the last, anything else goes on |
| Guards.PolicyEngine.Run | src/account_pool/policy/engine.py:19-29 | the loop with early return evaluates as the histories say and leaves them unchanged |
| Admission.ResolutionByFields | src/account_pool/policy/policies.py:76-97 | a resolved limit is at most both and equal to one, a flag is raised by either side, the ratio is the larger, the rest is the platform's |
| Admission.VotesAreTheseWords | src/account_pool/policy/trackers.py:23 | a vote is one of five words in any mixture of cases or one of two signs |
| Admission.GuardsByFields | src/account_pool/policy/guards.py:24-207 | what each guard holds against a request, told from status, lease, consent, platform, markers, counts and target |
| Admission.JudgedByFields | src/account_pool/policy/guards.py:210-221 | a request is denied with the first objection's code; without one, a write is routed exactly if all writes need approval or it is no publish, its target is not owned and the account requires approval |
| Admission.SubmissionByFields | src/account_pool/actions/service.py:304-390 | unless its key is on file, a submission is launched exactly if nothing speaks against it and it is approved by itself, queued exactly if nothing does and it is not, and else refused with the first objection |
| Admission.PublishByFields | src/account_pool/actions/service.py:237-257 | a publish is such a submission of the account and draft as stored now; an unknown record ends it |
| Admission.TargetedBeginsByFields | src/account_pool/actions/service.py:259-293 | a comment waits with its account and draft as stored now, a reaction with its account and kind; an unknown record ends it |
| Admission.ResolvedByFields | src/account_pool/actions/service.py:259-302 | a comment or reaction is such a submission of what it read when it began; a read is refused or waits, unstored |
| Admission.ReadsBeginByFields | src/account_pool/actions/service.py:500-551 | a search is judged at once and a read first resolves its target; only a first objection refuses them |
| Tightening.GuardTightens | src/account_pool/policy/guards.py:118-149 | guard by guard, what the baseline denies or routes is treated no more leniently after resolution with kept limits |
| Tightening.RatioTightens | src/account_pool/policy/trackers.py:49-53 | floor division is antitone in the ratio, and ratio 0 means no limit |
| Tightening.OverridesTighten | src/account_pool/policy/policies.py:76-97 | with kept limits, every request is judged at least as strictly as under the baseline, through all ten guards |
| Tightening.ZeroLimitLoosens | src/account_pool/policy/ratelimit.py:31-32 | every override of a baseline limit to 0 or less lets some request through that the baseline denies |
| Tightening.TighteningExactlyWhenLimitsKept | src/account_pool/policy/policies.py:76-97 | overrides only tighten if and only if none lowers a baseline limit to 0 or less |
| Trackers.RateLimiter.Check | src/account_pool/policy/ratelimit.py:29-36 | the pruned list answers as the whole history would, and nothing is consumed |
| Trackers.RateLimiter.Consume | src/account_pool/policy/ratelimit.py:38-42 | appends one event to the history, whatever is pruned |
| Trackers.RateLimiter.Snapshot | src/account_pool/policy/ratelimit.py:44-47 | counts the history's last 60 seconds |
| Trackers.CoordinationTracker.Would | src/account_pool/policy/trackers.py:77-84 | flags exactly when the window and the newcomer make more than the allowed distinct accounts |
| Trackers.CoordinationTracker.Record | src/account_pool/policy/trackers.py:86-89 | appends one hit without pruning; an empty key records nothing |
| Trackers.SelfPromoLedger.Exceeds | src/account_pool/policy/trackers.py:49-53 | floor division of ordinary by ratio bounds promotional; no ratio, no bound |
| Trackers.SelfPromoLedger.Record | src/account_pool/policy/trackers.py:55-59 | counts one mark for one account and leaves the others' counts |
| Trackers.SincePrune | src/account_pool/policy/ratelimit.py:25-27 | pruning at one cutoff loses nothing a later cutoff would keep |
| Trackers.PruneKeepsAll | src/account_pool/policy/ratelimit.py:25-27 | pruning one key keeps every list answering later questions as its history does |
| Trackers.PruningIsInvisible | src/account_pool/policy/ratelimit.py:25-47 | on a monotone clock no sequence of calls can tell the pruned list from the history |
| Trackers.ReadOnlyCallsChangeNothing | src/account_pool/policy/trackers.py:73-89 | checks and snapshots, as in a dry validation, never change a later answer |
| Service.ActionService.Assess | src/account_pool/actions/service.py:118-143 | building the context and running the engine gives the verdict of the model and changes no history |
| Service.ActionService.FindByKey | src/account_pool/db/repositories.py:218-221 | finds an action exactly when a non-empty key is taken |
| Service.ActionService.UpdateTrackers | src/account_pool/actions/service.py:452-457 | the three tracker updates of a success, over the real trackers |
| Service.ActionService.Dispatching | src/account_pool/actions/service.py:474-498 | which adapter call is made, if any: draft-only and manual platforms stage |
| Service.ActionService.Start | src/account_pool/actions/service.py:392-417 | `_execute` up to its await is the model's launch; it answers with a suspension exactly where the adapter is called and with its own finished action elsewhere |
| Service.ActionService.Resume | src/account_pool/actions/service.py:412-472 | `_execute` from its await on is the model's finish; it raises exactly for an unexpected exception and else answers with its own action, done or failed |
| Service.ActionService.Submit | src/account_pool/actions/service.py:304-390 | the block is the model's; a known key answers with the stored action and changes nothing, and any other submission answers with its own action, refused, waiting for approval, done or suspended, as its fields say |
| Service.ActionService.PublishDraft | src/account_pool/actions/service.py:237-257 | the block is the model's step; NotFound exactly for an unknown account or draft, else the answer of the submission |
| Service.ActionService.BeginComment | src/account_pool/actions/service.py:259-271 | account and draft are read before the await; NotFound exactly without them, else a suspension with just these records |
| Service.ActionService.BeginReact | src/account_pool/actions/service.py:282-293 | the account is read before the await; NotFound exactly without it, else a suspension with just this record |
| Service.ActionService.ResumeWithTarget | src/account_pool/actions/service.py:272-302 | judged by the snapshot from before the await; the answer of the submission or the read |
| Service.ActionService.AbandonTarget | src/account_pool/actions/service.py:232-235 | a failing resolution escapes and leaves nothing |
| Service.ActionService.ResumeWrite | src/account_pool/actions/service.py:412-472 | the block is the model's step; raised exactly for an unexpected exception, else the call's own action, done after a success and failed after anything else |
| Service.ActionService.RunRead | src/account_pool/actions/service.py:509-551 | a read answers with its refused action or waits without being stored |
| Service.ActionService.StartRead | src/account_pool/actions/service.py:500-503 | the account is read before the await; NotFound exactly without it |
| Service.ActionService.StartSearch | src/account_pool/actions/service.py:505-507 | NotFound exactly for an unknown account, else the answer of the read |
| Service.ActionService.ResumeRead | src/account_pool/actions/service.py:546-569 | a read consumes its rate, is stored, audited and returned as done, or raises and leaves nothing |
| Service.ActionService.Validate | src/account_pool/actions/service.py:199-230 | a validation leaves every table, tracker history and log as it was and answers with the first objection, approval or permission |
| Service.ActionService.EditDraft | src/account_pool/actions/service.py:185-195 | each supplied field is replaced and the revision bumped, whatever changed |
| Service.ActionService.UpdateDraft | src/account_pool/actions/service.py:177-196 | stores the edit of a known draft, else nothing |
| Service.ActionService.CreateDraft | src/account_pool/actions/service.py:158-175 | stores the draft for a known account, else nothing |
| Service.ActionService.DecideItem | src/account_pool/actions/service.py:572-707 | the block is the model's step; NotFound exactly for a missing record, else the item's own action in the state of the decision; the review state is not consulted |
| Service.ActionService.ApproveCurrent | src/account_pool/actions/service.py:632-700 | a changed draft, then an account that is not active or whose consent does not cover the verb, is turned down; otherwise the approved action is launched |
| Service.ActionService.ResubmitItem | src/account_pool/actions/service.py:709-736 | the block is the model's step; it answers with the stored, waiting action, or that a record is missing; no state is consulted |
| ServiceSafety.BlockExtendsRun | src/account_pool/actions/service.py:61-92 | a service that has run some commands and performs one more block has run one more command |
| ServiceSafety.LedgerIsAudited | src/account_pool/actions/service.py:452-472 | the service's ledger and limiter hold exactly what its audit table allowed |
| ServiceSafety.TablesAgree | src/account_pool/actions/service.py:403-472 | the service's action table follows its audit table, with one event per settled action outside the queue, and no key names two actions |
| ServiceSafety.QueueFitsActions | src/account_pool/actions/service.py:572-736 | the queue's items own different actions of the action table, in fitting states |
| ServiceSafety.CallsAreProper | src/account_pool/actions/service.py:474-498 | every adapter call the service made was permitted, and an approved one faithful |
| ServiceSafety.LedgerKeepsRatio | src/account_pool/policy/platform_rules.py:34-43 | the ledger's own counters keep the ratio, approved promotions and overlap aside |
| ServiceSafety.LimiterStaysInBounds | src/account_pool/policy/ratelimit.py:25-42 | the limiter's own window holds no more than limit and overlap allow, approved executions aside |
| ServiceSafety.TrackerStaysInBounds | src/account_pool/policy/trackers.py:65-89 | of the accounts in the tracker's own window, the checked ones are no more than the overlap allows |
| Structure.BlockPrepared | src/account_pool/actions/service.py:304-736 | every block does no more than bookkeeping before its ending, and launches only cleared or approved acts |
| Structure.ApprovalsMoved | src/account_pool/actions/service.py:361-736 | a block decides or reopens a known item, or queues one for its new action, and touches no other |
| Structure.RunKeepsWf | src/account_pool/actions/service.py:304-736 | tables and suspended calls stay consistent in every run; approvals own pairwise different stored writes |
| AuditReplay.AuditReplaysToStates | src/account_pool/actions/service.py:346-380 | at every boundary of every run the last event gives the state; an executing action waits or was lost to an exception |
| AuditCount.OneEventExactlyWhenRecorded | src/account_pool/actions/service.py:1-6 | every command adds exactly one event if a condition on the state before it holds, and none otherwise |
| AuditCount.SubmissionTallies | src/account_pool/actions/service.py:317-390 | a write records an event unless its key is taken or it is allowed and awaits an adapter |
| AuditCount.ReadTallies | src/account_pool/actions/service.py:509-545 | a starting read records an event exactly when it is denied |
| AuditCount.DecisionTallies | src/account_pool/actions/service.py:572-707 | a decision records an event for a rejection, and for an approval that is expired, stale, ineligible or staged |
| AuditCount.OneEventPerAction | src/account_pool/actions/service.py:304-569 | in every run, an action no approval owns has exactly one event once it is not executing and none while it is |
| AuditCount.CloseEffects | src/account_pool/actions/service.py:412-472 | an ending records at most one event, about its own action, and moves no other action's state |
| Conservation.TrackersAreConserved | src/account_pool/actions/service.py:435-472 | per account and verb, rate events, promotional marks and hits are the audited successes, in every run |
| Conservation.TrackMatches | src/account_pool/actions/service.py:452-457 | the updates of a success keep all trackers projections of one log of executions |
| Conservation.HitTotalAdd | src/account_pool/policy/trackers.py:86-89 | recording a hit adds one to its account's total over all targets and nothing to others' |
| DispatchSafety.OnlyProperActsAreSent | src/account_pool/policy/guards.py:74-112 | in every run, no vote and no Reddit account reaches `react`, and no write method is called without a write API |
| DispatchSafety.NotDeniedIsSendable | src/account_pool/policy/guards.py:155-168 | what the guards let through or route is an act that may be sent, whatever the overrides |
| DispatchSafety.SentByClose | src/account_pool/actions/service.py:474-498 | only a live launch sends anything, and it sends its own arguments |
| SentActs.SentActsAreAdmissible | src/account_pool/actions/service.py:304-472 | in every run, every adapter call is for an active account whose owner's consent covers the verb and is field for field the act on file; a submitted one also had an unexpired lease of its actor, a capable platform and adapter, the required self-identification, no blocked container and no approval outstanding |
| ApprovedContent.ApprovedContentIsSentContent | src/account_pool/actions/service.py:637-700 | in every run, what an approval sends is field for field what was submitted or last reopened |
| ApprovedContent.RevisionFixesContent | src/account_pool/actions/service.py:177-196 | a draft that shows one revision at any two boundaries of a run is the same draft, field for field |
| Decisions.ApprovalLaunchesExactlyWhen | src/account_pool/actions/service.py:572-700 | an approval launches its act if and only if the records exist, its time is not up, the draft is the pinned revision, the account is active and the consent stands and covers the verb |
| Decisions.DecisionByFields | src/account_pool/actions/service.py:572-700 | each decision's item, action, code and reason; an approval is turned down as stale when late or changed and as not authorized when ineligible, in this order |
| Decisions.ResubmissionByFields | src/account_pool/actions/service.py:709-736 | a resubmission reopens the item at the current revision with a new lifetime and has the action wait again |
| Effects.SettlingByFields | src/account_pool/actions/service.py:322-390 | a refusal, queueing, turn-down or resubmission stores one action in its state and one event with its actor, outcome and code, and nothing else |
| Effects.LaunchByFields | src/account_pool/actions/service.py:392-417 | a launch stores the action as executing and sends one call, or on a platform without a write API is done at once |
| Effects.AdapterReturnByFields | src/account_pool/actions/service.py:412-472 | each of the five answers of an adapter: state, event and code; only a success reports its rate, target and promotion |
| Effects.ReadReturnByFields | src/account_pool/actions/service.py:546-569 | a returned read is stored, audited and counted against its rate; one that raises leaves nothing |
| Effects.RecordsByFields | src/account_pool/actions/service.py:158-196 | an edit sets the supplied fields, keeps the others and is a new revision in any case |
| Idempotency.KeysAreIdempotent | src/account_pool/actions/service.py:317-320 | each non-empty key has at most one stored action and at most one submission-path dispatch, in every run |
| Idempotency.ReplayChangesNothing | src/account_pool/actions/service.py:317-320 | a replay changes no table, tracker or log |
| Idempotency.TargetedReplayOnlyEndsItsTask | src/account_pool/actions/service.py:317-320 | a replayed comment or reaction only ends its own call |
| JointStates.ApprovalsAndActionsAgree | src/account_pool/actions/service.py:572-736 | in every run, approved means done, failed or executing, and refused means changes requested |
| JointStates.OpenMeansNeedsApproval | src/account_pool/approvals/queue.py:24-75 | open means needs-approval when no item is reopened while its action executes |
| JointStates.ReopenedDuringExecutionBreaks | src/account_pool/actions/service.py:709-721 | an item reopened while its action waits ends up open on a done or failed action |
| JointStates.ResubmitSpoiltExactlyInFlight | src/account_pool/actions/service.py:709-721 | a resubmission can be spoilt by a waiting execution if and only if one of that action waits |
| SpoiltRun.ApprovedWithoutLease | src/account_pool/actions/service.py:632-700 | a run in which an approved publish waits for the adapter while service and store show the account leased to nobody |
| SpoiltRun.OpenItemOnDoneAction | src/account_pool/actions/service.py:572-736 | that run goes on to end with an open item on a done action |
| LeaseActing.PublishIsLeased | src/account_pool/policy/guards.py:40-54 | a publish is executed or queued only while the stored row carries an unexpired lease of its caller under its token |
| LeaseActing.OnePublisherAtATime | src/account_pool/domain/models.py:94-106 | while the agent of one publish still holds the account by its own record, every later publish that proceeds is its own, and under the same token if it kept that |
| LeaseActing.TakeoverExactlyWhenNotHeld | src/account_pool/actions/service.py:413-413 | another agent can take the account over beside a waiting execution if and only if the first one's own record leaves it no lease |
| LeaseActing.ApprovalNeedsNoLease | src/account_pool/actions/service.py:632-700 | whatever lock the stored account carries, an approval ends the same way for the same action |
| OverlapRun.TwoAgentsPublishAtOnce | src/account_pool/actions/service.py:392-413 | a run of six commands, with the accounts a store run holds, ends with publishes of two agents waiting on one account |
| OverlapRun.ExecutingWithoutEvent | src/account_pool/actions/service.py:412-433 | a run of four commands ends with an executing action, nothing waiting, and no event |
| LeaseActing.TargetedIsLeased | src/account_pool/actions/service.py:269-302 | a comment or reaction proceeds by the lease in its snapshot, unexpired now |
| LeaseActing.TargetedIsLeasedInStore | src/account_pool/actions/service.py:269-302 | the stored row still carries that lease if and only if the agent's last lock operation since the snapshot is none, or a refresh of the token that has not run out |
| StaleSnapshotRun.CommentWithoutLease | src/account_pool/actions/service.py:259-280 | a run of five commands, with the accounts a store run holds, sends a comment on an account nobody holds any more |
| StaleSnapshotRun.CommentWithoutConsent | src/account_pool/actions/service.py:259-280 | a run of five commands, with the accounts a store run holds, sends a comment on a suspended account whose consent has been revoked |
| ConsentActing.ConsentIsLogged | src/account_pool/domain/models.py:75-91 | a stored consent covers a verb if and only if the last committed grant or revocation is a grant that does |
| ConsentActing.PublishNeedsTheGrant | src/account_pool/actions/service.py:237-257 | a publish proceeds only under such a grant in the store |
| ConsentActing.ApprovalNeedsTheGrant | src/account_pool/actions/service.py:667-700 | an approval launches its act only under such a grant at its own time |
| ConsentActing.TargetedNeedsTheEarlierGrant | src/account_pool/actions/service.py:259-302 | a comment or reaction proceeds by the grant of its snapshot; the stored consent still covers it if and only if the last word since is such a grant |
| RateBound.RateIsBounded | src/account_pool/policy/guards.py:140-149 | every closed 60-second window holds at most limit - 1 + overlap checked executions, exactly the limit without overlap |
| RateBound.PassedLeavesRoom | src/account_pool/policy/ratelimit.py:29-36 | a request the guards did not deny found budget left in the window |
| RateBound.StagedFliesAlone | src/account_pool/actions/service.py:477-491 | a staged publish never overlaps another execution of its account and verb |
| CoordinationBound.CoordinationIsBounded | src/account_pool/policy/guards.py:183-192 | every closed 300-second window holds checked hits of at most max - 1 + overlap accounts on a target |
| CoordinationBound.LaunchIsUncrowded | src/account_pool/policy/trackers.py:77-84 | a checked launch joins at most the configured number of accounts, although unchecked hits share the list |
| PromoBound.RatioHolds | src/account_pool/policy/platform_rules.py:34-43 | nine times promotional (approved ones aside) is at most ordinary plus nine per overlapping call, whatever the patches between calls |
| PromoBound.QuotientLeavesRoom | src/account_pool/policy/trackers.py:49-53 | below the floor of ordinary by a ratio of at least nine there is room for nine more |

## Left out

- Adapters, sessions, credentials, target and URL parsing: an adapter is its possible answers plus the log of what was sent to it.
- `is_promotional`: its URL matching is a function of draft and account fixed by the configuration.
- The vault: a connection row is its id; credentials, providers and scopes are not modelled.
- SQL sessions and JSON: tables are maps with an atomic conditional update; accounts are listed in no particular order, as in the source.
- Clocks: one reading per synchronous block, in whole microseconds, and never running backwards.
- Ids, tokens and slugs: minted ids and tokens are assumed new; the text of slugs and suffixes is arbitrary.
- Messages, result payloads, policy snapshots and the stored decision trace: no decision reads them. The engine's trace itself is modelled.
- Scheduling, persona and display fields, health details, the notifier: no effect on decisions.
- The `draft` verb as a guard input: it has no consent entry and evaluating it raises; the type of verbs excludes it.
- Unknown decisions, unknown patch fields and malformed overrides: typed away; `policy_overrides` is a typed record here.
- Lower-casing in the vote check: ASCII only, which decides every word of the vote list that ASCII input can spell.
- `register`: consent checks and profile fields are not modelled, only the newborn account it adds.
- Lifecycle.AccountService.FinishConnect: what the adapter answered to the connect is a parameter, and so is the snapshot from before the await.
- Contention.Checkout: other clients' commits are a schedule given beforehand, each of any content on the same account; commits to other accounts do not matter to the call.
- Service.ActionService.AccountSaved: what the account services commit is any account of unchanged platform; `LeaseActing.TargetedIsLeasedInStore` is where the two tables are one.
- The REST and MCP servers, the dashboard and the settings loader: presentation over these services.

/** The value types of the account pool: enumerations, accounts, drafts, actions, approvals, audit events. */
module Domain {

  datatype Option<+T> = None | Some(value: T)

  type Id = string

  /** Instants in microseconds, the resolution of the service's clock. */
  type Time = int

  const SECOND: int := 1_000_000

  datatype Platform =
    | Reddit | Mastodon | Bluesky | Twitter | Medium | Substack
    | Linkedin | Facebook | Instagram | Threads | Youtube | Tiktok
    | Discord | Telegram | Pinterest | Lemmy | Nostr

  datatype ActionType = DraftVerb | Publish | Comment | Read | Monitor | Search | React

  /** The verbs that reach the guards: `draft` has no consent scope and is never evaluated. */
  type Verb = v: ActionType | v != DraftVerb witness Read

  predicate IsWrite(v: ActionType) {
    v == Publish || v == Comment || v == React
  }

  function VerbName(v: ActionType): string {
    match v
    case DraftVerb => "draft"
    case Publish => "publish"
    case Comment => "comment"
    case Read => "read"
    case Monitor => "monitor"
    case Search => "search"
    case React => "react"
  }

  datatype ConsentScope = MayPublish | MayComment | MayReact | MayRead

  function ConsentFor(v: Verb): ConsentScope {
    match v
    case Publish => MayPublish
    case Comment => MayComment
    case React => MayReact
    case _ => MayRead
  }

  datatype LifecycleState = Draft | Connected | Active | Suspended | Retired

  datatype ActionState = Pending | NeedsApproval | ApprovedByHuman | Executing | Done | Failed | Refused

  datatype ReviewState = Open | ChangesRequested | Approved

  datatype PublishMode = Api | DraftOnly | Manual

  datatype Outcome = Allow | Deny | Route

  datatype DenialCode =
    | NotAuthorized | AccountNotActive | LockRequired | LockHeldByOther | CapabilityUnsupported
    | PublishModeManual | RateLimited | SelfPromoRatio | SubredditRule | BotIdentificationRequired
    | VoteManipulationBlocked | CoordinationBlocked | ApprovalRequired | ApprovalStale | ContentInvalid

  datatype Capabilities = Capabilities(
    canPublish: bool, canComment: bool, canRead: bool, canSearch: bool, canReact: bool)

  datatype Authorization = Authorization(authorized: bool, consentScope: set<ConsentScope>, revokedAt: Option<Time>) {
    predicate IsEffective() { authorized && revokedAt.None? }

    predicate Permits(scope: ConsentScope) { IsEffective() && scope in consentScope }
  }

  datatype LockLease = LockLease(holder: string, token: string, acquiredAt: Time, expiresAt: Time) {
    predicate IsActive(at: Time) { at < expiresAt }

    predicate HeldBy(who: string, presented: string, at: Time) {
      IsActive(at) && holder == who && token == presented
    }
  }

  datatype Compliance = Compliance(botFlagSet: bool, selfLabel: Option<string>)

  datatype Overrides = Overrides(
    ratePerMinute: map<string, int>, requiresBotFlag: bool, requiresSelfLabel: bool,
    selfPromoRatio: Option<int>, approveAllWrites: bool)

  datatype Health = HealthOk | HealthDegraded | ReauthNeeded | HealthBlocked | HealthUnknown

  datatype Account = Account(
    id: Id, platform: Platform, ownedDomains: set<string>,
    authorization: Authorization, connectionId: Option<Id>,
    status: LifecycleState, requiresApproval: bool,
    lock: Option<LockLease>, version: int,
    health: Health, compliance: Compliance, overrides: Overrides,
    tags: set<string>, pool: Option<string>)
  {
    predicate IsActive() { status == Active }
  }

  datatype TargetRef = TargetRef(raw: string, container: Option<string>, isOwned: bool)

  datatype ContentDraft = ContentDraft(
    id: Id, accountId: Id, body: string, title: Option<string>, media: seq<string>,
    disclosure: Option<string>, revision: int, updatedAt: Time)

  datatype Action = Action(
    id: Id, accountId: Id, verb: Verb, target: Option<TargetRef>, draftId: Option<Id>,
    reactKind: Option<string>, requestedBy: string, key: Option<string>, state: ActionState)

  datatype Approval = Approval(
    id: Id, actionId: Id, accountId: Id, review: ReviewState, pinnedRevision: Option<int>,
    decidedBy: Option<string>, decidedAt: Option<Time>, reason: Option<string>, expiresAt: Option<Time>)
  {
    predicate IsExpired(at: Time) { expiresAt.Some? && at > expiresAt.value }
  }

  datatype AuditEvent = AuditEvent(
    actor: string, verb: string, outcome: Outcome, accountId: Id, actionId: Option<Id>, code: Option<DenialCode>)

  datatype PlatformPolicy = PlatformPolicy(
    platform: Platform, publishMode: PublishMode, allowedVerbs: set<ActionType>,
    ratePerMinute: map<string, int>, reactAllowed: bool, voteAllowed: bool,
    requiresBotFlag: bool, requiresSelfLabel: bool, selfPromoRatio: int)

  /** What one deployment fixes: adapter capabilities, the promotional classifier and queue settings. */
  datatype Config = Config(
    capabilities: Platform -> Capabilities,
    isPromotional: (ContentDraft, Account) -> bool,
    blockedContainers: set<string>,
    maxDistinctAccounts: int,
    approvalTtl: int)

  /** Reading a Python `defaultdict`. */
  function GetOr<K, V>(m: map<K, V>, k: K, default: V): V {
    if k in m then m[k] else default
  }
}

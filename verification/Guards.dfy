/** The ten guards and the pipeline that runs them in order. */
module Guards {
  import opened Domain
  import opened Ids
  import opened Policies
  import opened Trackers

  datatype Decision = Decision(outcome: Outcome, code: Option<DenialCode>)

  const PASS := Decision(Allow, None)

  function Denied(code: DenialCode): Decision { Decision(Deny, Some(code)) }

  const ROUTED := Decision(Route, Some(ApprovalRequired))

  /** Everything one acting request shows the guards; `policy` is the resolved one. */
  datatype GuardContext = GuardContext(
    account: Account, verb: Verb, policy: PlatformPolicy, caller: string, lockToken: Option<string>,
    draft: Option<ContentDraft>, target: Option<TargetRef>, reactKind: Option<string>, now: Time, config: Config)
  {
    function Key(): string {
      if target.None? then "" else TargetKey(account.platform, target.value)
    }

    predicate OwnedTarget() {
      verb == Publish || (target.Some? && target.value.isOwned)
    }

    predicate Promotional() {
      draft.Some? && config.isPromotional(draft.value, account)
    }
  }

  const VOTE_KINDS: set<string> := {"up", "down", "upvote", "downvote", "vote", "+1", "-1"}

  function LowerChar(c: char): char {
    if 'A' <= c <= 'Z' then c - 'A' + 'a' else c
  }

  function Lower(s: string): string { seq(|s|, i requires 0 <= i < |s| => LowerChar(s[i])) }

  predicate IsVote(kind: Option<string>) {
    kind.Some? && Lower(kind.value) in VOTE_KINDS
  }

  datatype Guard =
    | AccountActive | Lock | AuthorizationScope | Capability | SelfIdentification
    | RateLimit | Manipulation | PlatformRules | Coordination | Autonomy

  const DEFAULT_GUARDS: seq<Guard> := [
    AccountActive, Lock, AuthorizationScope, Capability, SelfIdentification,
    RateLimit, Manipulation, PlatformRules, Coordination, Autonomy]

  function LockDecision(c: GuardContext): Decision {
    if !IsWrite(c.verb) then PASS
    else if c.account.lock.None? || !c.account.lock.value.IsActive(c.now) then Denied(LockRequired)
    else if c.account.lock.value.holder != c.caller then Denied(LockHeldByOther)
    else if c.lockToken != Some(c.account.lock.value.token) then Denied(LockRequired)
    else PASS
  }

  function CapabilityDecision(c: GuardContext): Decision {
    var caps := c.config.capabilities(c.account.platform);
    if c.verb !in c.policy.allowedVerbs then Denied(CapabilityUnsupported)
    else
      match c.verb
      case Publish => if caps.canPublish then PASS else Denied(CapabilityUnsupported)
      case Comment =>
        if !caps.canComment then Denied(CapabilityUnsupported)
        else if c.policy.publishMode != Api then Denied(PublishModeManual)
        else PASS
      case React => if caps.canReact && c.policy.reactAllowed then PASS else Denied(CapabilityUnsupported)
      case Search => if caps.canSearch then PASS else Denied(CapabilityUnsupported)
      case _ => if caps.canRead then PASS else Denied(CapabilityUnsupported)
  }

  function SelfIdentificationDecision(c: GuardContext): Decision {
    if !IsWrite(c.verb) then PASS
    else if c.policy.requiresBotFlag && !c.account.compliance.botFlagSet then Denied(BotIdentificationRequired)
    else if c.policy.requiresSelfLabel && !HasLabel(c.account.compliance.selfLabel)
    then Denied(BotIdentificationRequired)
    else PASS
  }

  /** An empty label is as good as none. */
  predicate HasLabel(l: Option<string>) { l.Some? && l.value != "" }

  function RedditDecision(c: GuardContext, t: TrackerState): Decision {
    if c.target.Some? && c.target.value.container.Some? && c.target.value.container.value != ""
       && c.target.value.container.value in c.config.blockedContainers then Denied(SubredditRule)
    else if c.Promotional() && t.PromoOf(c.account.id).WouldExceed(c.policy.selfPromoRatio)
    then Denied(SelfPromoRatio)
    else PASS
  }

  function AutonomyDecision(c: GuardContext): Decision {
    if !IsWrite(c.verb) then PASS
    else if c.account.overrides.approveAllWrites then ROUTED
    else if c.OwnedTarget() then PASS
    else if c.account.requiresApproval then ROUTED
    else PASS
  }

  /** One guard's verdict, with the trackers read off their histories. */
  function Verdict(g: Guard, c: GuardContext, t: TrackerState): Decision {
    match g
    case AccountActive => if c.account.IsActive() then PASS else Denied(AccountNotActive)
    case Lock => LockDecision(c)
    case AuthorizationScope =>
      if c.account.authorization.Permits(ConsentFor(c.verb)) then PASS else Denied(NotAuthorized)
    case Capability => CapabilityDecision(c)
    case SelfIdentification => SelfIdentificationDecision(c)
    case RateLimit =>
      if UnderLimit(t.rate.Of(RateKey(c.account.id, c.verb)), LimitFor(c.policy, c.verb), c.now) then PASS
      else Denied(RateLimited)
    case Manipulation =>
      if c.verb == React && IsVote(c.reactKind) && !c.policy.voteAllowed then Denied(VoteManipulationBlocked)
      else PASS
    case PlatformRules =>
      if IsWrite(c.verb) && c.account.platform == Reddit then RedditDecision(c, t) else PASS
    case Coordination =>
      if IsWrite(c.verb) && !c.OwnedTarget() && c.Key() != ""
         && WouldCoordinate(t.coordination.Of(c.Key()), c.account.id, c.config.maxDistinctAccounts, c.now,
                            COORDINATION_WINDOW)
      then Denied(CoordinationBlocked)
      else PASS
    case Autonomy => AutonomyDecision(c)
  }

  datatype PolicyResult = PolicyResult(outcome: Outcome, code: Option<DenialCode>, trace: seq<Decision>)

  /** The first verdict that is not `Allow` decides; the trace ends with it. */
  function Evaluate(guards: seq<Guard>, c: GuardContext, t: TrackerState): PolicyResult {
    if guards == [] then PolicyResult(Allow, None, [])
    else
      var d := Verdict(guards[0], c, t);
      if d.outcome != Allow then PolicyResult(d.outcome, d.code, [d])
      else
        var rest := Evaluate(guards[1..], c, t);
        rest.(trace := [d] + rest.trace)
  }

  function EvaluateAll(c: GuardContext, t: TrackerState): PolicyResult {
    Evaluate(DEFAULT_GUARDS, c, t)
  }

  /** The outcome is the verdict of the first guard that objects; everything before it passed. */
  lemma {:induction false} FirstObjectionDecides(guards: seq<Guard>, c: GuardContext, t: TrackerState)
    ensures var r := Evaluate(guards, c, t);
            && |r.trace| <= |guards|
            && (forall i :: 0 <= i < |r.trace| ==> r.trace[i] == Verdict(guards[i], c, t))
            && (r.outcome == Allow ==>
                  |r.trace| == |guards| && forall i :: 0 <= i < |guards| ==> Verdict(guards[i], c, t).outcome == Allow)
            && (r.outcome != Allow ==>
                  && r.trace != []
                  && r.trace[|r.trace| - 1] == Decision(r.outcome, r.code)
                  && forall i :: 0 <= i < |r.trace| - 1 ==> r.trace[i].outcome == Allow)
  {
    if guards != [] && Verdict(guards[0], c, t).outcome == Allow {
      FirstObjectionDecides(guards[1..], c, t);
      var rest := Evaluate(guards[1..], c, t);
      forall i | 0 <= i < |guards|
        ensures rest.outcome == Allow ==> Verdict(guards[i], c, t).outcome == Allow
      {
        if i > 0 && rest.outcome == Allow {
          assert Verdict(guards[1..][i - 1], c, t).outcome == Allow;
        }
      }
    }
  }

  function Position(g: Guard): nat {
    match g
    case AccountActive => 0 case Lock => 1 case AuthorizationScope => 2 case Capability => 3
    case SelfIdentification => 4 case RateLimit => 5 case Manipulation => 6 case PlatformRules => 7
    case Coordination => 8 case Autonomy => 9
  }

  lemma PositionsAreRight(g: Guard)
    ensures |DEFAULT_GUARDS| == 10 && Position(g) < 10 && DEFAULT_GUARDS[Position(g)] == g
    ensures Position(g) == 9 <==> g == Autonomy
  {
  }

  /** Only the last guard routes. */
  lemma OnlyTheLastRoutes(g: Guard, c: GuardContext, t: TrackerState)
    requires Verdict(g, c, t).outcome == Route
    ensures g == Autonomy && IsWrite(c.verb)
  {
  }

  /** So a request that was not denied passed all the others. */
  lemma NotDenied(c: GuardContext, t: TrackerState, g: Guard)
    requires EvaluateAll(c, t).outcome != Deny
    ensures Verdict(g, c, t).outcome == Allow || g == Autonomy
    ensures EvaluateAll(c, t).outcome == Verdict(Autonomy, c, t).outcome
    ensures !IsWrite(c.verb) ==> EvaluateAll(c, t).outcome == Allow
  {
    var r := EvaluateAll(c, t);
    FirstObjectionDecides(DEFAULT_GUARDS, c, t);
    PositionsAreRight(g);
    PositionsAreRight(Autonomy);
    if r.outcome != Allow {
      var last := DEFAULT_GUARDS[|r.trace| - 1];
      assert Verdict(last, c, t).outcome == r.outcome == Route;
      OnlyTheLastRoutes(last, c, t);
      PositionsAreDistinct(|r.trace| - 1);
      if g != Autonomy {
        assert r.trace[Position(g)] == Verdict(g, c, t);
      }
    }
  }

  lemma PositionsAreDistinct(i: nat)
    requires i < |DEFAULT_GUARDS| && DEFAULT_GUARDS[i] == Autonomy
    ensures i == 9
  {
  }

  /** A request that every guard but the last lets through gets the last one's verdict. */
  lemma LastDecides(c: GuardContext, t: TrackerState)
    requires forall g :: g != Autonomy ==> Verdict(g, c, t).outcome == Allow
    ensures EvaluateAll(c, t).outcome == Verdict(Autonomy, c, t).outcome
  {
    var r := EvaluateAll(c, t);
    FirstObjectionDecides(DEFAULT_GUARDS, c, t);
    PositionsAreRight(Autonomy);
    if r.outcome != Allow {
      assert r.trace[|r.trace| - 1] == Verdict(DEFAULT_GUARDS[|r.trace| - 1], c, t);
    }
  }

  /** A result reached after the guards whose decisions `trace` records. */
  function After(trace: seq<Decision>, rest: PolicyResult): PolicyResult { rest.(trace := trace + rest.trace) }

  /** One pass of the loop: an objection ends it with its decision as the last, anything else goes on. */
  lemma GuardByGuard(guards: seq<Guard>, i: nat, trace: seq<Decision>, c: GuardContext, t: TrackerState)
    requires i < |guards|
    ensures var d := Verdict(guards[i], c, t);
            After(trace, Evaluate(guards[i..], c, t))
            == if d.outcome != Allow then PolicyResult(d.outcome, d.code, trace + [d])
               else After(trace + [d], Evaluate(guards[i + 1..], c, t))
  {
    var d := Verdict(guards[i], c, t);
    assert guards[i..][0] == guards[i] && guards[i..][1..] == guards[i + 1..];
    if d.outcome == Allow {
      var rest := Evaluate(guards[i + 1..], c, t);
      assert trace + ([d] + rest.trace) == (trace + [d]) + rest.trace;
    }
  }

  /** `PolicyEngine`: the loop over the guards, calling the real (pruning) trackers. */
  class PolicyEngine {
    const guards: seq<Guard>

    constructor (configured: seq<Guard>)
      ensures guards == configured
    {
      guards := configured;
    }

    /** What the three tracker objects stand for. */
    static ghost predicate Shows(
      rate: RateLimiter, coordination: CoordinationTracker, promo: SelfPromoLedger, t: TrackerState)
      reads rate, coordination, promo
    {
      && rate.Valid() && coordination.Valid()
      && rate.History == t.rate && coordination.History == t.coordination
      && forall a :: promo.Counts(a) == t.PromoOf(a)
    }

    method RunGuard(
      g: Guard, c: GuardContext, rate: RateLimiter, coordination: CoordinationTracker, promo: SelfPromoLedger,
      ghost t: TrackerState) returns (d: Decision)
      requires Shows(rate, coordination, promo, t)
      requires rate.Last <= c.now && coordination.Last <= c.now
      requires coordination.window == COORDINATION_WINDOW && coordination.max == c.config.maxDistinctAccounts
      modifies rate, coordination
      ensures Shows(rate, coordination, promo, t) && rate.Last <= c.now && coordination.Last <= c.now
      ensures d == Verdict(g, c, t)
    {
      match g {
        case RateLimit =>
          var ok := rate.Check(RateKey(c.account.id, c.verb), LimitFor(c.policy, c.verb), c.now);
          d := if ok then PASS else Denied(RateLimited);
        case PlatformRules =>
          if !IsWrite(c.verb) || c.account.platform != Reddit {
            return PASS;
          }
          if c.target.Some? && c.target.value.container.Some? && c.target.value.container.value != ""
             && c.target.value.container.value in c.config.blockedContainers {
            return Denied(SubredditRule);
          }
          if c.Promotional() {
            var exceeded := promo.Exceeds(c.account.id, c.policy.selfPromoRatio);
            if exceeded {
              return Denied(SelfPromoRatio);
            }
          }
          d := PASS;
        case Coordination =>
          if !IsWrite(c.verb) || c.OwnedTarget() {
            return PASS;
          }
          var flagged := coordination.Would(c.Key(), c.account.id, c.now);
          d := if flagged then Denied(CoordinationBlocked) else PASS;
        case AccountActive => d := if c.account.IsActive() then PASS else Denied(AccountNotActive);
        case Lock => d := LockDecision(c);
        case AuthorizationScope =>
          d := if c.account.authorization.Permits(ConsentFor(c.verb)) then PASS else Denied(NotAuthorized);
        case Capability => d := CapabilityDecision(c);
        case SelfIdentification => d := SelfIdentificationDecision(c);
        case Manipulation =>
          d := if c.verb == React && IsVote(c.reactKind) && !c.policy.voteAllowed
               then Denied(VoteManipulationBlocked) else PASS;
        case Autonomy => d := AutonomyDecision(c);
      }
    }

    /** Evaluation decides as the histories say and leaves them unchanged: it can only prune. */
    method Run(
      c: GuardContext, rate: RateLimiter, coordination: CoordinationTracker, promo: SelfPromoLedger,
      ghost t: TrackerState) returns (r: PolicyResult)
      requires Shows(rate, coordination, promo, t)
      requires rate.Last <= c.now && coordination.Last <= c.now
      requires coordination.window == COORDINATION_WINDOW && coordination.max == c.config.maxDistinctAccounts
      modifies rate, coordination
      ensures Shows(rate, coordination, promo, t) && rate.Last <= c.now && coordination.Last <= c.now
      ensures r == Evaluate(guards, c, t)
    {
      var trace: seq<Decision> := [];
      ghost var answer := Evaluate(guards, c, t);
      assert guards[0..] == guards;
      assert After([], answer) == answer;
      for i := 0 to |guards|
        invariant Shows(rate, coordination, promo, t) && rate.Last <= c.now && coordination.Last <= c.now
        invariant answer == After(trace, Evaluate(guards[i..], c, t))
      {
        var decision := RunGuard(guards[i], c, rate, coordination, promo, t);
        GuardByGuard(guards, i, trace, c, t);
        trace := trace + [decision];
        if decision.outcome == Deny {
          return PolicyResult(Deny, decision.code, trace);
        }
        if decision.outcome == Route {
          return PolicyResult(Route, decision.code, trace);
        }
      }
      assert guards[|guards|..] == [];
      r := PolicyResult(Allow, None, trace);
    }
  }
}

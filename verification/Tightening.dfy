/** Do an account's overrides only ever tighten what the platform baseline allows? */
module Tightening {
  import opened Domain
  import opened Ids
  import opened Policies
  import opened Trackers
  import opened Guards

  function Strictness(o: Outcome): int {
    match o case Allow => 0 case Route => 1 case Deny => 2
  }

  /** The same request and the same trackers, judged by the platform baseline. */
  function UnderBaseline(c: GuardContext): GuardContext {
    c.(policy := BaselinePolicy(c.account.platform))
  }

  predicate Resolved(c: GuardContext) {
    c.policy == Resolve(c.account.platform, c.account.overrides)
  }

  ghost predicate NotLoosened(c: GuardContext, t: TrackerState) {
    Strictness(EvaluateAll(c, t).outcome) >= Strictness(EvaluateAll(UnderBaseline(c), t).outcome)
  }

  /** No override turns a baseline limit into "unlimited": a limit of 0 or less switches the check off. */
  predicate KeepsLimits(p: Platform, o: Overrides) {
    forall v :: v in o.ratePerMinute && v in BaselinePolicy(p).ratePerMinute ==> o.ratePerMinute[v] > 0
  }

  /** A request is denied exactly when some guard denies it, wherever in the order that guard stands. */
  lemma DeniedBySome(c: GuardContext, t: TrackerState)
    ensures EvaluateAll(c, t).outcome == Deny <==> exists g :: Verdict(g, c, t).outcome == Deny
  {
    FirstObjectionDecides(DEFAULT_GUARDS, c, t);
    var r := EvaluateAll(c, t);
    if r.outcome == Deny {
      assert Verdict(DEFAULT_GUARDS[|r.trace| - 1], c, t).outcome == Deny;
    } else {
      forall g
        ensures Verdict(g, c, t).outcome != Deny
      {
        NotDenied(c, t, g);
      }
    }
  }

  lemma MulMonotone(k: nat, a: int, b: int)
    requires a <= b
    ensures k * a <= k * b
  {
  }

  /** Floor division is antitone in a positive divisor. */
  lemma DivAntitone(n: nat, a: int, b: int)
    requires 0 < a <= b
    ensures n / b <= n / a
  {
    var q, r := n / b, n / a;
    MulMonotone(q, a, b);
    assert q * a <= q * b <= n < r * a + a == (r + 1) * a;
    if r + 1 <= q {
      MulMonotone(a, r + 1, q);
    }
  }

  /** A larger ratio allows no more promotional acts. */
  lemma RatioTightens(counts: PromoCounts, base: int, resolved: int)
    requires base <= resolved
    requires counts.WouldExceed(base)
    ensures counts.WouldExceed(resolved)
  {
    DivAntitone(counts.nonPromo, base, resolved);
  }

  /** Guard by guard: what the baseline denies or routes, the resolved policy treats no more leniently. */
  lemma GuardTightens(g: Guard, c: GuardContext, t: TrackerState)
    requires Resolved(c) && KeepsLimits(c.account.platform, c.account.overrides)
    ensures Strictness(Verdict(g, c, t).outcome) >= Strictness(Verdict(g, UnderBaseline(c), t).outcome)
  {
    var b := UnderBaseline(c);
    var promo := t.PromoOf(c.account.id);
    assert b.Promotional() == c.Promotional() && b.Key() == c.Key() && b.OwnedTarget() == c.OwnedTarget();
    if g == PlatformRules && promo.WouldExceed(b.policy.selfPromoRatio) {
      RatioTightens(promo, b.policy.selfPromoRatio, c.policy.selfPromoRatio);
    }
  }

  /** Tightening preserves denial, and routing: nothing the baseline holds back gets through. */
  lemma OverridesTighten(c: GuardContext, t: TrackerState)
    requires Resolved(c) && KeepsLimits(c.account.platform, c.account.overrides)
    ensures NotLoosened(c, t)
  {
    var b := UnderBaseline(c);
    DeniedBySome(c, t);
    DeniedBySome(b, t);
    if EvaluateAll(b, t).outcome == Deny {
      var g :| Verdict(g, b, t).outcome == Deny;
      GuardTightens(g, c, t);
    } else if EvaluateAll(c, t).outcome != Deny {
      NotDenied(b, t, Autonomy);
      NotDenied(c, t, Autonomy);
    }
  }

  // ---- the converse: an override of 0 or less lets an exhausted account act again ----

  const PERMISSIVE := Config(_ => Capabilities(true, true, true, true, true), (_, _) => false, {}, 3, 0)

  function FullLog(n: nat): Log { seq(n, _ => Hit("", 0)) }

  lemma {:induction false} AllRecent(log: Log, cutoff: Time)
    requires forall i :: 0 <= i < |log| ==> log[i].at >= cutoff
    ensures Since(log, cutoff) == log
  {
    if log != [] {
      var init, last := log[..|log| - 1], log[|log| - 1];
      AllRecent(init, cutoff);
      SinceAppend(init, last, cutoff);
      assert log == init + [last];
    }
  }

  /** Every rate entry of a baseline belongs to a verb that the baseline lets through. */
  lemma BaselineEntry(p: Platform, name: string) returns (v: Verb)
    requires name in BaselinePolicy(p).ratePerMinute
    ensures VerbName(v) == name && v in BaselinePolicy(p).allowedVerbs && BaselinePolicy(p).ratePerMinute[name] > 0
    ensures v == Comment ==> BaselinePolicy(p).publishMode == Api
    ensures v == React ==> BaselinePolicy(p).reactAllowed
  {
    v := if name == "publish" then Publish else if name == "comment" then Comment else if name == "react" then React
         else if name == "read" then Read else if name == "monitor" then Monitor else Search;
  }

  /** A fully eligible account whose rate budget for `v` is used up at instant 0. */
  function ExhaustedRequest(p: Platform, o: Overrides, v: Verb): GuardContext {
    GuardContext(
      Account("a", p, {}, Authorization(true, {MayPublish, MayComment, MayReact, MayRead}, None), Some("c"),
              Active, false, Some(LockLease("agent", "tok", 0, 1)), 1, HealthOk,
              Compliance(true, Some("bot")), o, {}, None),
      v, Resolve(p, o), "agent", Some("tok"), None, Some(TargetRef("post", None, true)), Some("like"), 0, PERMISSIVE)
  }

  function ExhaustedTrackers(p: Platform, v: Verb): TrackerState
    requires VerbName(v) in BaselinePolicy(p).ratePerMinute && BaselinePolicy(p).ratePerMinute[VerbName(v)] > 0
  {
    TrackerState(Histories(map[RateKey("a", v) := FullLog(BaselinePolicy(p).ratePerMinute[VerbName(v)])]),
                 Histories(map[]), map[])
  }

  /** An override of a baseline limit that switches the check off, for a verb the baseline lets through. */
  predicate SwitchesOff(p: Platform, o: Overrides, v: Verb) {
    && VerbName(v) in o.ratePerMinute && o.ratePerMinute[VerbName(v)] <= 0
    && VerbName(v) in BaselinePolicy(p).ratePerMinute && BaselinePolicy(p).ratePerMinute[VerbName(v)] > 0
    && v in BaselinePolicy(p).allowedVerbs
    && (v == Comment ==> BaselinePolicy(p).publishMode == Api)
    && (v == React ==> BaselinePolicy(p).reactAllowed)
  }

  lemma DenialDecides(g: Guard, c: GuardContext, t: TrackerState)
    requires Verdict(g, c, t).outcome == Deny
    ensures EvaluateAll(c, t).outcome == Deny
  {
    DeniedBySome(c, t);
  }

  lemma BudgetIsSpent(c: GuardContext, t: TrackerState, n: nat)
    requires t.rate.Of(RateKey(c.account.id, c.verb)) == FullLog(n) && c.now == 0
    requires 0 < LimitFor(c.policy, c.verb) <= n
    ensures Verdict(RateLimit, c, t).outcome == Deny
  {
    AllRecent(FullLog(n), 0 - RATE_WINDOW);
  }

  lemma BaselineBudgetIsSpent(p: Platform, o: Overrides, v: Verb)
    requires SwitchesOff(p, o, v)
    ensures Verdict(RateLimit, UnderBaseline(ExhaustedRequest(p, o, v)), ExhaustedTrackers(p, v)).outcome == Deny
  {
    BudgetIsSpent(UnderBaseline(ExhaustedRequest(p, o, v)), ExhaustedTrackers(p, v),
                  BaselinePolicy(p).ratePerMinute[VerbName(v)]);
  }

  lemma BaselineDenies(p: Platform, o: Overrides, v: Verb)
    requires SwitchesOff(p, o, v)
    ensures EvaluateAll(UnderBaseline(ExhaustedRequest(p, o, v)), ExhaustedTrackers(p, v)).outcome == Deny
  {
    BaselineBudgetIsSpent(p, o, v);
    DenialDecides(RateLimit, UnderBaseline(ExhaustedRequest(p, o, v)), ExhaustedTrackers(p, v));
  }

  lemma ZeroLimitLoosens(p: Platform, o: Overrides, v: Verb)
    requires SwitchesOff(p, o, v)
    ensures !NotLoosened(ExhaustedRequest(p, o, v), ExhaustedTrackers(p, v))
  {
    BaselineDenies(p, o, v);
    OnlyRateCouldDeny(p, o, v);
    DeniedBySome(ExhaustedRequest(p, o, v), ExhaustedTrackers(p, v));
  }

  lemma LowerOfLike()
    ensures !IsVote(Some("like"))
  {
    assert Lower("like") == "like";
  }

  lemma OnlyRateCouldDeny(p: Platform, o: Overrides, v: Verb)
    requires SwitchesOff(p, o, v)
    ensures forall g :: Verdict(g, ExhaustedRequest(p, o, v), ExhaustedTrackers(p, v)).outcome != Deny
  {
    var c, t := ExhaustedRequest(p, o, v), ExhaustedTrackers(p, v);
    LowerOfLike();
    forall g
      ensures Verdict(g, c, t).outcome != Deny
    {
      match g
      case RateLimit => assert LimitFor(c.policy, v) <= 0;
      case Capability => assert CapabilityDecision(c) == PASS;
      case Coordination => assert c.OwnedTarget();
      case PlatformRules => assert RedditDecision(c, t) == PASS;
      case _ =>
    }
  }

  /**
   * "Overrides may only tighten" holds exactly when no override lowers a baseline limit to 0 or less:
   * then for every request and every tracker state, and otherwise it fails for some request.
   */
  lemma TighteningExactlyWhenLimitsKept(p: Platform, o: Overrides)
    ensures KeepsLimits(p, o)
       <==> forall c: GuardContext, t: TrackerState ::
              c.account.platform == p && c.account.overrides == o && Resolved(c) ==> NotLoosened(c, t)
  {
    if KeepsLimits(p, o) {
      forall c: GuardContext, t: TrackerState
        | c.account.platform == p && c.account.overrides == o && Resolved(c)
        ensures NotLoosened(c, t)
      {
        OverridesTighten(c, t);
      }
    } else {
      var name :| name in o.ratePerMinute && name in BaselinePolicy(p).ratePerMinute && o.ratePerMinute[name] <= 0;
      var v := BaselineEntry(p, name);
      ZeroLimitLoosens(p, o, v);
      assert Resolved(ExhaustedRequest(p, o, v));
    }
  }
}

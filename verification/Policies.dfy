/** The per-platform baseline and its resolution against an account's overrides. */
module Policies {
  import opened Domain

  const READ_VERBS: set<ActionType> := {Read, Monitor, Search}

  function BaselinePolicy(p: Platform): PlatformPolicy {
    match p
    case Reddit => PlatformPolicy(Reddit, Api, {Publish, Comment} + READ_VERBS,
      map["publish" := 1, "comment" := 3, "read" := 30, "monitor" := 30, "search" := 10],
      false, false, false, false, 9)
    case Mastodon => PlatformPolicy(Mastodon, Api, {Publish, Comment, React} + READ_VERBS,
      map["publish" := 5, "comment" := 10, "react" := 20, "read" := 60, "search" := 30],
      true, false, true, false, 0)
    case Bluesky => PlatformPolicy(Bluesky, Api, {Publish, Comment, React} + READ_VERBS,
      map["publish" := 5, "comment" := 10, "react" := 20, "read" := 60, "search" := 30],
      true, false, false, true, 0)
    case Twitter => PlatformPolicy(Twitter, Api, {Publish, Comment, React} + READ_VERBS,
      map["publish" := 3, "comment" := 5, "react" := 10, "read" := 15, "search" := 10],
      true, false, false, false, 0)
    case Medium => PlatformPolicy(Medium, DraftOnly, {Publish, Read},
      map["publish" := 2, "read" := 20], false, false, false, false, 0)
    case Substack => PlatformPolicy(Substack, Manual, {Publish, Read},
      map["publish" := 1, "read" := 20], false, false, false, false, 0)
    case _ => PlatformPolicy(p, Manual, READ_VERBS, map["read" := 20], false, false, false, false, 0)
  }

  function Min(a: int, b: int): int { if a <= b then a else b }

  /** Every overridden verb gets the smaller of its two limits, or the override's where there is no baseline. */
  function TightenRates(base: map<string, int>, over: map<string, int>): map<string, int> {
    map v | v in base.Keys + over.Keys ::
      if v !in over then base[v] else if v !in base then over[v] else Min(base[v], over[v])
  }

  function Resolve(p: Platform, o: Overrides): PlatformPolicy {
    var base := BaselinePolicy(p);
    base.(ratePerMinute := TightenRates(base.ratePerMinute, o.ratePerMinute),
          requiresBotFlag := base.requiresBotFlag || o.requiresBotFlag,
          requiresSelfLabel := base.requiresSelfLabel || o.requiresSelfLabel,
          selfPromoRatio := if o.selfPromoRatio.Some? && o.selfPromoRatio.value > base.selfPromoRatio
                            then o.selfPromoRatio.value else base.selfPromoRatio)
  }

  /** The limit the rate guard uses; 0 when the verb has none. */
  function LimitFor(policy: PlatformPolicy, v: ActionType): int {
    GetOr(policy.ratePerMinute, VerbName(v), 0)
  }

  /** The loop over the rate overrides, in whatever order. */
  method TightenAll(base: map<string, int>, over: map<string, int>) returns (rates: map<string, int>)
    ensures rates == TightenRates(base, over)
  {
    rates := base;
    var todo := over.Keys;
    while todo != {}
      invariant todo <= over.Keys
      invariant rates == TightenRates(base, map v | v in over && v !in todo :: over[v])
      decreases todo
    {
      var verb :| verb in todo;
      var limit := over[verb];
      rates := rates[verb := if verb in rates then Min(rates[verb], limit) else limit];
      todo := todo - {verb};
    }
    assert over == map v | v in over && v !in todo :: over[v];
  }

  /** `resolve_policy`: the rates, then the flags, then the ratio. */
  method ResolvePolicy(account: Account) returns (policy: PlatformPolicy)
    ensures policy == Resolve(account.platform, account.overrides)
  {
    policy := BaselinePolicy(account.platform);
    var overrides := account.overrides;
    var rates := TightenAll(policy.ratePerMinute, overrides.ratePerMinute);
    policy := policy.(ratePerMinute := rates);
    if overrides.requiresBotFlag {
      policy := policy.(requiresBotFlag := true);
    }
    if overrides.requiresSelfLabel {
      policy := policy.(requiresSelfLabel := true);
    }
    match overrides.selfPromoRatio {
      case Some(ratio) =>
        if ratio > policy.selfPromoRatio {
          policy := policy.(selfPromoRatio := ratio);
        }
      case None =>
    }
  }

  /** No override reaches the fields that decide whether an act may be sent at all. */
  lemma OverridesKeepTheSendingRules(p: Platform, o: Overrides)
    ensures var r := Resolve(p, o);
            && r.publishMode == BaselinePolicy(p).publishMode
            && r.allowedVerbs == BaselinePolicy(p).allowedVerbs
            && r.reactAllowed == BaselinePolicy(p).reactAllowed
            && !r.voteAllowed
    ensures BaselinePolicy(p).reactAllowed ==> BaselinePolicy(p).publishMode == Api && p != Reddit
    ensures p == Reddit ==> Resolve(p, o).selfPromoRatio >= 9
  {
  }

  /** The platforms' own limits per minute, verb by verb; 0 is no limit. */
  lemma LimitsByVerb(p: Platform)
    ensures var limit := v => LimitFor(BaselinePolicy(p), v);
            && limit(Publish) == (match p case Reddit => 1 case Mastodon => 5 case Bluesky => 5 case Twitter => 3
                                          case Medium => 2 case Substack => 1 case _ => 0)
            && limit(Comment) == (match p case Reddit => 3 case Mastodon => 10 case Bluesky => 10 case Twitter => 5
                                          case _ => 0)
            && limit(React) == (match p case Mastodon => 20 case Bluesky => 20 case Twitter => 10 case _ => 0)
            && limit(Read) == (match p case Reddit => 30 case Mastodon => 60 case Bluesky => 60 case Twitter => 15
                                       case _ => 20)
            && limit(Search) == (match p case Reddit => 10 case Mastodon => 30 case Bluesky => 30 case Twitter => 10
                                         case _ => 0)
            && limit(Monitor) == if p == Reddit then 30 else 0
  {
  }
}

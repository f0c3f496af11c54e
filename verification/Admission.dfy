/**
 * Admission, field by field: which requests are launched, queued or refused, told from the records and the recorded
 * histories without the guards' own words.
 */
module Admission {
  import opened Domain
  import opened Ids
  import opened Policies
  import opened Trackers
  import opened Guards
  import opened ActionModel

  predicate Acts(verb: Verb) { verb == Publish || verb == Comment || verb == React }

  /** The owner's consent stands and covers the verb. */
  predicate Consented(o: Authorization, verb: Verb) {
    && o.authorized && o.revokedAt == None
    && (verb == Publish ==> MayPublish in o.consentScope)
    && (verb == Comment ==> MayComment in o.consentScope)
    && (verb == React ==> MayReact in o.consentScope)
    && (!Acts(verb) ==> MayRead in o.consentScope)
  }

  /** The platform offers the verb and its adapter can do it. */
  predicate Capable(p: Platform, can: Capabilities, verb: Verb) {
    match verb
    case Publish => p in {Reddit, Mastodon, Bluesky, Twitter, Medium, Substack} && can.canPublish
    case Comment => p in {Reddit, Mastodon, Bluesky, Twitter} && can.canComment
    case React => p in {Mastodon, Bluesky, Twitter} && can.canReact
    case Search => p !in {Medium, Substack} && can.canSearch
    case Monitor => p !in {Medium, Substack} && can.canRead
    case Read => can.canRead
  }

  /** There is a text, and it is not empty. */
  predicate Given(text: Option<string>) { text.Some? && text.value != "" }

  /** The account says that it is automated wherever the platform or its owner asks for it. */
  predicate Identified(a: Account) {
    && (a.platform == Mastodon || a.overrides.requiresBotFlag ==> a.compliance.botFlagSet)
    && (a.platform == Bluesky || a.overrides.requiresSelfLabel ==> Given(a.compliance.selfLabel))
  }

  /** Both limits leave room, the platform's and the override's, unless one of them is switched off. */
  predicate WithinBudget(a: Account, verb: Verb, spent: nat) {
    var base, over, name := BaselinePolicy(a.platform).ratePerMinute, a.overrides.ratePerMinute, VerbName(verb);
    || (name in base && base[name] <= 0) || (name in over && over[name] <= 0)
    || ((name in base ==> spent < base[name]) && (name in over ==> spent < over[name]))
  }

  /** `kind` and `word` are the same letters, in upper or lower case. */
  predicate SameLetters(kind: string, word: string) {
    |kind| == |word| && forall i :: 0 <= i < |kind| ==>
      kind[i] == word[i] || ('a' <= word[i] <= 'z' && kind[i] == word[i] - 'a' + 'A')
  }

  predicate SpellsVote(kind: string) {
    || SameLetters(kind, "up") || SameLetters(kind, "down") || SameLetters(kind, "vote")
    || SameLetters(kind, "upvote") || SameLetters(kind, "downvote") || kind == "+1" || kind == "-1"
  }

  /** One promotional post more would outweigh the ordinary ones: each needs nine of them, or as many as overridden. */
  predicate Overpromotes(a: Account, counts: PromoCounts) {
    var each := if a.overrides.selfPromoRatio.Some? && a.overrides.selfPromoRatio.value > 9
                then a.overrides.selfPromoRatio.value else 9;
    (counts.promo + 1) * each > counts.nonPromo
  }

  /** With this account, too many of the pool would have acted on the target within five minutes. */
  predicate Crowded(w: World, a: Account, target: TargetRef) {
    var recent := Since(w.trackers.coordination.Of(TargetKey(a.platform, target)), w.now - 300 * SECOND);
    |Who(recent) + {a.id}| > w.config.maxDistinctAccounts
  }

  /** Nobody has to look at the act first. */
  predicate SelfApproved(a: Account, verb: Verb, target: Option<TargetRef>) {
    !a.overrides.approveAllWrites
    && (verb == Publish || (target.Some? && target.value.isOwned) || !a.requiresApproval)
  }

  /** What each guard holds against a request, if anything. */
  function Objection(g: Guard, w: World, r: Request, target: Option<TargetRef>): Option<DenialCode> {
    var a, acts := r.account, Acts(r.verb);
    match g
    case AccountActive => if a.status == Active then None else Some(AccountNotActive)
    case Lock =>
      if !acts then None
      else if a.lock.None? || a.lock.value.expiresAt <= w.now then Some(LockRequired)
      else if a.lock.value.holder != r.caller then Some(LockHeldByOther)
      else if r.lockToken == Some(a.lock.value.token) then None
      else Some(LockRequired)
    case AuthorizationScope => if Consented(a.authorization, r.verb) then None else Some(NotAuthorized)
    case Capability =>
      if Capable(a.platform, w.config.capabilities(a.platform), r.verb) then None else Some(CapabilityUnsupported)
    case SelfIdentification => if acts && !Identified(a) then Some(BotIdentificationRequired) else None
    case RateLimit =>
      var spent := |Since(w.trackers.rate.Of(RateKey(a.id, r.verb)), w.now - 60 * SECOND)|;
      if WithinBudget(a, r.verb, spent) then None else Some(RateLimited)
    case Manipulation =>
      if r.verb == React && r.kind.Some? && SpellsVote(r.kind.value) then Some(VoteManipulationBlocked) else None
    case PlatformRules =>
      if !acts || a.platform != Reddit then None
      else if target.Some? && Given(target.value.container)
              && target.value.container.value in w.config.blockedContainers then Some(SubredditRule)
      else if r.draft.Some? && w.config.isPromotional(r.draft.value, a) && Overpromotes(a, w.trackers.PromoOf(a.id))
      then Some(SelfPromoRatio)
      else None
    case Coordination =>
      if (r.verb == Comment || r.verb == React) && target.Some? && !target.value.isOwned && Crowded(w, a, target.value)
      then Some(CoordinationBlocked) else None
    case Autonomy => None
  }

  function First(objections: seq<Option<DenialCode>>): Option<DenialCode> {
    if objections == [] then None else if objections[0].Some? then objections[0] else First(objections[1..])
  }

  function Objections(w: World, r: Request, target: Option<TargetRef>): seq<Option<DenialCode>> {
    [ Objection(AccountActive, w, r, target), Objection(Lock, w, r, target),
      Objection(AuthorizationScope, w, r, target), Objection(Capability, w, r, target),
      Objection(SelfIdentification, w, r, target), Objection(RateLimit, w, r, target),
      Objection(Manipulation, w, r, target), Objection(PlatformRules, w, r, target),
      Objection(Coordination, w, r, target)]
  }

  /** Why the request is refused, if it is: the first objection in the order in which they are looked for. */
  function Refusal(w: World, r: Request, target: Option<TargetRef>): Option<DenialCode> {
    First(Objections(w, r, target))
  }

  // ---- the guards, one by one ----

  /** The verdict of `g` on the request is its objection, or none. */
  predicate Judges(g: Guard, w: World, r: Request, target: Option<TargetRef>) {
    Verdict(g, ContextOf(w, r, target), w.trackers)
    == match Objection(g, w, r, target)
       case Some(code) => Decision(Deny, Some(code))
       case None =>
         if g == Autonomy && Acts(r.verb) && !SelfApproved(r.account, r.verb, target)
         then Decision(Route, Some(ApprovalRequired)) else Decision(Allow, None)
  }

  /** What a resolved policy says, against the platform's own and the overrides. */
  lemma ResolutionByFields(p: Platform, o: Overrides)
    ensures var r, base := Resolve(p, o), BaselinePolicy(p);
            && r.publishMode == base.publishMode && r.allowedVerbs == base.allowedVerbs
            && r.reactAllowed == base.reactAllowed && !r.voteAllowed
            && (r.requiresBotFlag <==> p == Mastodon || o.requiresBotFlag)
            && (r.requiresSelfLabel <==> p == Bluesky || o.requiresSelfLabel)
            && (forall v :: v in r.ratePerMinute <==> v in base.ratePerMinute || v in o.ratePerMinute)
            && (forall v :: v in r.ratePerMinute ==>
                  && (v in base.ratePerMinute ==> r.ratePerMinute[v] <= base.ratePerMinute[v])
                  && (v in o.ratePerMinute ==> r.ratePerMinute[v] <= o.ratePerMinute[v])
                  && ((v in base.ratePerMinute && r.ratePerMinute[v] == base.ratePerMinute[v])
                      || (v in o.ratePerMinute && r.ratePerMinute[v] == o.ratePerMinute[v])))
            && r.selfPromoRatio >= base.selfPromoRatio
            && (o.selfPromoRatio.Some? ==> r.selfPromoRatio >= o.selfPromoRatio.value)
            && (r.selfPromoRatio == base.selfPromoRatio || Some(r.selfPromoRatio) == o.selfPromoRatio)
  {
  }

  lemma LimitIsBudget(a: Account, verb: Verb, spent: nat)
    ensures var limit := LimitFor(Resolve(a.platform, a.overrides), verb);
            limit <= 0 || spent < limit <==> WithinBudget(a, verb, spent)
  {
    ResolutionByFields(a.platform, a.overrides);
  }

  lemma SpelledInLowerCase(kind: string, word: string)
    requires forall i :: 0 <= i < |word| ==> !('A' <= word[i] <= 'Z')
    ensures Lower(kind) == word <==> SameLetters(kind, word)
  {
    if SameLetters(kind, word) {
      assert forall i :: 0 <= i < |word| ==> Lower(kind)[i] == word[i];
    } else if |kind| == |word| {
      var i :| 0 <= i < |kind|
        && !(kind[i] == word[i] || ('a' <= word[i] <= 'z' && kind[i] == word[i] - 'a' + 'A'));
      assert Lower(kind)[i] != word[i];
    }
  }

  /** Votes are five words in any case and two signs. */
  lemma VotesAreTheseWords(kind: string)
    ensures IsVote(Some(kind)) <==> SpellsVote(kind)
  {
    SpelledInLowerCase(kind, "up");
    SpelledInLowerCase(kind, "down");
    SpelledInLowerCase(kind, "vote");
    SpelledInLowerCase(kind, "upvote");
    SpelledInLowerCase(kind, "downvote");
    SpelledInLowerCase(kind, "+1");
    SpelledInLowerCase(kind, "-1");
    assert SameLetters(kind, "+1") <==> kind == "+1";
    assert SameLetters(kind, "-1") <==> kind == "-1";
  }

  /** Floor division, multiplied out. */
  lemma QuotientMultipliedOut(promo: nat, ordinary: nat, each: int)
    requires each > 0
    ensures promo >= ordinary / each <==> (promo + 1) * each > ordinary
  {
    var q := ordinary / each;
    assert ordinary == q * each + ordinary % each;
    if promo >= q {
      assert (promo + 1) * each >= (q + 1) * each;
    } else {
      assert (promo + 1) * each <= q * each;
    }
  }

  lemma AccountGuardsByFields(w: World, r: Request, target: Option<TargetRef>)
    ensures Judges(AccountActive, w, r, target) && Judges(Lock, w, r, target)
    ensures Judges(AuthorizationScope, w, r, target) && Judges(Autonomy, w, r, target)
  {
  }

  lemma CapabilityByFields(w: World, r: Request, target: Option<TargetRef>)
    ensures Judges(Capability, w, r, target)
  {
    ResolutionByFields(r.account.platform, r.account.overrides);
  }

  lemma IdentificationByFields(w: World, r: Request, target: Option<TargetRef>)
    ensures Judges(SelfIdentification, w, r, target)
  {
    ResolutionByFields(r.account.platform, r.account.overrides);
  }

  lemma RateByFields(w: World, r: Request, target: Option<TargetRef>)
    ensures Judges(RateLimit, w, r, target)
  {
    LimitIsBudget(r.account, r.verb, |Since(w.trackers.rate.Of(RateKey(r.account.id, r.verb)), w.now - 60 * SECOND)|);
  }

  lemma ManipulationByFields(w: World, r: Request, target: Option<TargetRef>)
    ensures Judges(Manipulation, w, r, target)
  {
    ResolutionByFields(r.account.platform, r.account.overrides);
    if r.kind.Some? {
      VotesAreTheseWords(r.kind.value);
    }
  }

  lemma PlatformRulesByFields(w: World, r: Request, target: Option<TargetRef>)
    ensures Judges(PlatformRules, w, r, target)
  {
    var counts, policy := w.trackers.PromoOf(r.account.id), Resolve(r.account.platform, r.account.overrides);
    ResolutionByFields(r.account.platform, r.account.overrides);
    if r.account.platform == Reddit {
      QuotientMultipliedOut(counts.promo, counts.nonPromo, policy.selfPromoRatio);
    }
  }

  lemma CrowdIsCounted(w: World, a: Account, target: TargetRef)
    ensures WouldCoordinate(w.trackers.coordination.Of(TargetKey(a.platform, target)), a.id,
                            w.config.maxDistinctAccounts, w.now, COORDINATION_WINDOW)
       <==> Crowded(w, a, target)
  {
    assert COORDINATION_WINDOW == 300 * SECOND;
  }

  lemma CoordinationByFields(w: World, r: Request, target: Option<TargetRef>)
    ensures Judges(Coordination, w, r, target)
  {
    var c := ContextOf(w, r, target);
    if target.Some? {
      var key := TargetKey(r.account.platform, target.value);
      assert |key| > 0 && c.Key() == key;
      CrowdIsCounted(w, r.account, target.value);
    } else {
      assert c.Key() == "";
    }
  }

  lemma GuardsByFields(g: Guard, w: World, r: Request, target: Option<TargetRef>)
    ensures Judges(g, w, r, target)
  {
    match g
    case Capability => CapabilityByFields(w, r, target);
    case SelfIdentification => IdentificationByFields(w, r, target);
    case RateLimit => RateByFields(w, r, target);
    case Manipulation => ManipulationByFields(w, r, target);
    case PlatformRules => PlatformRulesByFields(w, r, target);
    case Coordination => CoordinationByFields(w, r, target);
    case _ => AccountGuardsByFields(w, r, target);
  }

  lemma {:induction false} FirstIs(objections: seq<Option<DenialCode>>, n: nat)
    requires n <= |objections| && forall i :: 0 <= i < n ==> objections[i].None?
    requires n < |objections| ==> objections[n].Some?
    ensures First(objections) == if n < |objections| then objections[n] else None
  {
    if n > 0 {
      FirstIs(objections[1..], n - 1);
    }
  }

  lemma NoneOf(objections: seq<Option<DenialCode>>, i: nat)
    requires First(objections).None? && i < |objections|
    ensures objections[i].None?
  {
    if i > 0 {
      NoneOf(objections[1..], i - 1);
    }
  }

  lemma ObjectionsInOrder(w: World, r: Request, target: Option<TargetRef>, i: nat)
    requires i < 9
    ensures |Objections(w, r, target)| == 9
    ensures Objections(w, r, target)[i] == Objection(DEFAULT_GUARDS[i], w, r, target)
  {
  }

  /** The decision at this position: the objection there or, after all of them, the gate. */
  predicate Decided(objections: seq<Option<DenialCode>>, gated: bool, i: nat, d: Decision) {
    if i < |objections|
    then d == if objections[i].Some? then Decision(Deny, objections[i]) else Decision(Allow, None)
    else d == if gated then Decision(Route, Some(ApprovalRequired)) else Decision(Allow, None)
  }

  lemma VerdictDecides(i: nat, w: World, r: Request, target: Option<TargetRef>)
    requires i < 10
    ensures Decided(Objections(w, r, target), Acts(r.verb) && !SelfApproved(r.account, r.verb, target), i,
                    Verdict(DEFAULT_GUARDS[i], ContextOf(w, r, target), w.trackers))
  {
    var g := DEFAULT_GUARDS[i];
    GuardsByFields(g, w, r, target);
    if i < 9 {
      ObjectionsInOrder(w, r, target, i);
      assert g != Autonomy;
    }
  }

  /** Denied with the first objection's code; without one, routed if gated and allowed otherwise. */
  predicate Concludes(objections: seq<Option<DenialCode>>, gated: bool, verdict: PolicyResult) {
    && (verdict.outcome == Deny <==> First(objections).Some?)
    && (verdict.outcome == Route <==> First(objections).None? && gated)
    && (verdict.outcome == Deny ==> verdict.code == First(objections))
    && (verdict.outcome == Route ==> verdict.code == Some(ApprovalRequired))
  }

  lemma TraceConcludes(objections: seq<Option<DenialCode>>, gated: bool, verdict: PolicyResult)
    requires forall i :: 0 <= i < |verdict.trace| ==> Decided(objections, gated, i, verdict.trace[i])
    requires |verdict.trace| <= |objections| + 1
    requires verdict.outcome == Allow ==>
      |verdict.trace| == |objections| + 1 && forall i :: 0 <= i < |verdict.trace| ==> verdict.trace[i].outcome == Allow
    requires verdict.outcome != Allow ==>
      && verdict.trace != [] && verdict.trace[|verdict.trace| - 1] == Decision(verdict.outcome, verdict.code)
      && forall i :: 0 <= i < |verdict.trace| - 1 ==> verdict.trace[i].outcome == Allow
    ensures Concludes(objections, gated, verdict)
  {
    var n := |verdict.trace| - 1;
    assert Decided(objections, gated, n, verdict.trace[n]);
    var m := if verdict.outcome == Deny then n else |objections|;
    assert forall i {:trigger objections[i]} :: 0 <= i < m ==> Decided(objections, gated, i, verdict.trace[i]);
    FirstIs(objections, m);
  }

  /**
   * All ten together: a request is denied with the first objection's code; without one it is routed if it is a write
   * that is not approved by itself, and allowed otherwise.
   */
  lemma JudgedByFields(w: World, r: Request, target: Option<TargetRef>)
    ensures var verdict, objection := Judge(w, r, target), Refusal(w, r, target);
            && (verdict.outcome == Deny <==> objection.Some?)
            && (verdict.outcome == Route
                <==> objection.None? && Acts(r.verb) && !SelfApproved(r.account, r.verb, target))
            && (verdict.outcome == Deny ==> verdict.code == objection)
            && (verdict.outcome == Route ==> verdict.code == Some(ApprovalRequired))
  {
    var verdict := Judge(w, r, target);
    var objections, gated := Objections(w, r, target), Acts(r.verb) && !SelfApproved(r.account, r.verb, target);
    FirstObjectionDecides(DEFAULT_GUARDS, ContextOf(w, r, target), w.trackers);
    forall i: nat | i < |verdict.trace|
      ensures Decided(objections, gated, i, verdict.trace[i])
    {
      VerdictDecides(i, w, r, target);
    }
    PositionsAreRight(Autonomy);
    ObjectionsInOrder(w, r, target, 0);
    forall i | 0 <= i < |verdict.trace| && verdict.outcome == Allow
      ensures verdict.trace[i].outcome == Allow
    {
      assert verdict.trace[i] == Verdict(DEFAULT_GUARDS[i], ContextOf(w, r, target), w.trackers);
    }
    TraceConcludes(objections, gated, verdict);
  }

  // ---- writes ----

  /** The action a request asks for, before it is judged. */
  function Asked(r: Request, target: Option<TargetRef>, id: Id): Action {
    Action(id, r.account.id, r.verb, target, if r.draft.Some? then Some(r.draft.value.id) else None, r.kind, r.caller,
           r.key, Pending)
  }

  predicate KeyOnFile(w: World, key: Option<string>) {
    key.Some? && key.value != "" && exists id :: id in w.actions && w.actions[id].key == key
  }

  /** How a submission must end: replayed, refused, launched or queued. */
  ghost predicate Answered(w: World, b: Block, client: nat, r: Request, target: Option<TargetRef>, actionId: Id,
                           approvalId: Id) {
    var a, u := Asked(r, target, actionId), w.(used := w.used + {actionId, approvalId});
    if KeyOnFile(w, r.key) then b == Block(w, Stop)
    else if Refusal(w, r, target).Some?
    then b == Block(u, Settling(a, Refused, r.caller, Deny, Refusal(w, r, target)))
    else if SelfApproved(r.account, r.verb, target)
    then b == Block(u, Launching(client, Execution(a, r.account, r.draft, target, r.kind, r.caller, Submitted)))
    else
      var pinned := if r.draft.Some? then Some(r.draft.value.revision) else None;
      var expiry := if w.config.approvalTtl > 0 then Some(w.now + w.config.approvalTtl) else None;
      var item := Approval(approvalId, actionId, r.account.id, Open, pinned, None, None, None, expiry);
      var pins := u.seen.pins[approvalId := Pin(r.verb, target, r.kind, r.draft)];
      b == Block(u.(approvals := u.approvals[approvalId := item], seen := u.seen.(pins := pins)),
                 Settling(a, NeedsApproval, r.caller, Route, Some(ApprovalRequired)))
  }

  lemma DisposalByFields(w: World, client: nat, r: Request, target: Option<TargetRef>, actionId: Id, approvalId: Id,
                         verdict: PolicyResult)
    requires Acts(r.verb) && !KeyOnFile(w, r.key)
    requires verdict.outcome == Deny <==> Refusal(w, r, target).Some?
    requires verdict.outcome == Allow <==> Refusal(w, r, target).None? && SelfApproved(r.account, r.verb, target)
    requires verdict.outcome == Deny ==> verdict.code == Refusal(w, r, target)
    ensures var u := w.(used := w.used + {actionId, approvalId});
            Answered(w, Dispose(u, client, r, target, NewAction(r, actionId, target), approvalId, verdict), client, r,
                     target, actionId, approvalId)
  {
  }

  /**
   * A submission that is not a replay is launched if and only if nothing speaks against it and it is approved by
   * itself, queued if and only if nothing speaks against it and it is not, and refused otherwise.
   */
  lemma SubmissionByFields(w: World, client: nat, r: Request, target: Option<TargetRef>, actionId: Id, approvalId: Id)
    requires Acts(r.verb)
    ensures var b := SubmitWrite(w, client, r, target, actionId, approvalId);
            Answered(w, b, client, r, target, actionId, approvalId)
  {
    JudgedByFields(w, r, target);
    if !KeyOnFile(w, r.key) {
      DisposalByFields(w, client, r, target, actionId, approvalId, Judge(w, r, target));
    }
  }

  lemma PublishByFields(w: World, c: Command)
    requires Enabled(w, c) && c.SubmitPublish?
    ensures var v := w.(now := c.now);
            if c.accountId in w.accounts && c.draftId in w.drafts
            then Answered(v, BlockOf(w, c), c.client,
                          Request(c.caller, w.accounts[c.accountId], Publish, Some(c.lockToken),
                                  Some(w.drafts[c.draftId]), None, c.key),
                          None, c.actionId, c.approvalId)
            else BlockOf(w, c) == Block(v, Stop)
  {
    if c.accountId in w.accounts && c.draftId in w.drafts {
      SubmissionByFields(w.(now := c.now), c.client, PublishRequest(w, c), None, c.actionId, c.approvalId);
    }
  }

  /** A comment or reaction reads its records when it begins; only a comment needs a draft, only a reaction a kind. */
  lemma TargetedBeginsByFields(w: World, c: Command)
    requires Enabled(w, c) && c.BeginTargeted?
    ensures var v := w.(now := c.now);
            BlockOf(w, c) == Block(
              if c.accountId !in w.accounts || (c.verb == Comment && c.draftId !in w.drafts) then v
              else v.(tasks := v.tasks[c.client := Resolving(
                if c.verb == Comment
                then Request(c.caller, w.accounts[c.accountId], Comment, Some(c.lockToken), Some(w.drafts[c.draftId]),
                             None, c.key)
                else Request(c.caller, w.accounts[c.accountId], React, Some(c.lockToken), None, Some(c.kind), c.key))]),
              Stop)
  {
  }

  // ---- reads ----

  /** How a read must go on: refused, or waiting without having been stored. */
  ghost predicate ReadAnswered(w: World, b: Block, client: nat, r: Request, target: Option<TargetRef>, actionId: Id) {
    var a, u := Asked(r, target, actionId), w.(used := w.used + {actionId});
    if Refusal(w, r, target).Some?
    then b == Block(u, Settling(a, Refused, r.caller, Deny, Refusal(w, r, target)))
    else
      var x := Execution(a.(state := Executing), r.account, None, target, None, r.caller, Submitted);
      b == Block(u.(tasks := u.tasks[client := Reading(x)]), Stop)
  }

  lemma ReadByFields(w: World, client: nat, r: Request, target: Option<TargetRef>, actionId: Id)
    ensures !Acts(r.verb) ==> ReadAnswered(w, RunRead(w, client, r, target, actionId), client, r, target, actionId)
  {
    JudgedByFields(w, r, target);
  }

  /** Once its target is known, a write is judged as a submission and anything else as a read, by what was read then. */
  lemma ResolvedByFields(w: World, c: Command)
    requires Enabled(w, c) && c.TargetResolved?
    ensures var v, r := w.(now := c.now, tasks := w.tasks - {c.client}), w.tasks[c.client].request;
            if Acts(r.verb)
            then Answered(v, BlockOf(w, c), c.client, r, Some(c.target), c.actionId, c.approvalId)
            else ReadAnswered(v, BlockOf(w, c), c.client, r, Some(c.target), c.actionId)
  {
    var v, r := w.(now := c.now, tasks := w.tasks - {c.client}), w.tasks[c.client].request;
    if Acts(r.verb) {
      SubmissionByFields(v, c.client, r, Some(c.target), c.actionId, c.approvalId);
    } else {
      ReadByFields(v, c.client, r, Some(c.target), c.actionId);
    }
  }

  lemma ReadsBeginByFields(w: World, c: Command)
    requires Enabled(w, c) && (c.BeginRead? || c.BeginSearch?)
    ensures var v := w.(now := c.now);
            if c.accountId !in w.accounts then BlockOf(w, c) == Block(v, Stop)
            else if c.BeginRead?
            then BlockOf(w, c) == Block(
                   v.(tasks := v.tasks[c.client :=
                     Resolving(Request(c.caller, w.accounts[c.accountId], Read, None, None, None, None))]),
                   Stop)
            else ReadAnswered(v, BlockOf(w, c), c.client,
                              Request(c.caller, w.accounts[c.accountId], Search, None, None, None, None), None,
                              c.actionId)
  {
    if c.BeginSearch? && c.accountId in w.accounts {
      ReadByFields(w.(now := c.now), c.client,
                   Request(c.caller, w.accounts[c.accountId], Search, None, None, None, None), None, c.actionId);
    }
  }
}

/** Consent and acting, joined: whose grant an act needs, told from the log of the account services. */
module ConsentActing {
  import opened Domain
  import opened ActionModel
  import opened Interleaving
  import opened LifecycleRefinement
  import opened LeaseActing
  import opened AccountHistory
  import opened Admission
  import opened Decisions

  /** The account's last grant or revocation is a grant that covers the verb. */
  ghost predicate Covered(log: seq<LogEntry>, id: Id, verb: Verb) {
    var last := Last(log, id, GrantsOrRevokes);
    && last.Some? && last.value.op.Authorize?
    && (match verb case Publish => MayPublish case Comment => MayComment case React => MayReact case _ => MayRead)
       in last.value.op.scopes
  }

  /** A stored consent covers a verb if and only if the log says so. */
  lemma ConsentIsLogged(events: seq<Event>, id: Id, verb: Verb)
    requires id in Interleaving.Run(EMPTY, events).table
    ensures var s := Interleaving.Run(EMPTY, events);
            Consented(s.table[id].data.authorization, verb) <==> Covered(s.log, id, verb)
  {
    RowsTellTheirHistory(events, id);
  }

  /** A publish proceeds only where the last the owner has said about the account is a grant that covers publishing. */
  lemma PublishNeedsTheGrant(w: World, c: Command, events: seq<Event>)
    requires ActionModel.Enabled(w, c) && c.SubmitPublish? && Proceeds(BlockOf(w, c).ending)
    requires Shows(w.(now := c.now), Interleaving.Run(EMPTY, events))
    ensures Covered(Interleaving.Run(EMPTY, events).log, c.accountId, Publish)
  {
    var s := Interleaving.Run(EMPTY, events);
    PublishByFields(w, c);
    var r := Request(c.caller, w.accounts[c.accountId], Publish, Some(c.lockToken), Some(w.drafts[c.draftId]), None,
                     c.key);
    UnrefusedIsConsented(w.(now := c.now), r, None);
    assert w.accounts[c.accountId] == s.table[c.accountId].data;
    ConsentIsLogged(events, c.accountId, Publish);
  }

  lemma UnrefusedIsConsented(w: World, r: Request, target: Option<TargetRef>)
    requires Refusal(w, r, target).None?
    ensures Consented(r.account.authorization, r.verb)
  {
    NoneOf(Objections(w, r, target), 2);
  }

  /** An approval launches its act only under such a grant, whatever was granted when the act was queued. */
  lemma ApprovalNeedsTheGrant(w: World, c: Command, events: seq<Event>)
    requires ActionModel.Enabled(w, c) && c.DecideApproval? && BlockOf(w, c).ending.Launching?
    requires Shows(w.(now := c.now), Interleaving.Run(EMPTY, events))
    ensures var a := BlockOf(w, c).ending.x.action; Covered(Interleaving.Run(EMPTY, events).log, a.accountId, a.verb)
  {
    var s, a := Interleaving.Run(EMPTY, events), BlockOf(w, c).ending.x.action;
    DecisionByFields(w, c);
    assert w.accounts[a.accountId] == s.table[a.accountId].data;
    ConsentIsLogged(events, a.accountId, a.verb);
  }

  /**
   * A comment or reaction that read its account where the store was `Run(EMPTY, first)` proceeds by the grant there.
   * Where it proceeds, the stored consent still covers it if and only if the owner's last word since is such a grant.
   */
  lemma TargetedNeedsTheEarlierGrant(w: World, c: Command, first: seq<Event>, later: seq<Event>)
    requires ActionModel.Enabled(w, c) && c.TargetResolved? && Acts(w.tasks[c.client].request.verb)
    requires Proceeds(BlockOf(w, c).ending)
    requires Shows(w.(now := c.now), Interleaving.Run(EMPTY, first + later))
    requires var r, s := w.tasks[c.client].request, Interleaving.Run(EMPTY, first);
             r.account.id in s.table && s.table[r.account.id].data == r.account
    ensures var r := w.tasks[c.client].request;
            && Covered(Interleaving.Run(EMPTY, first).log, r.account.id, r.verb)
            && r.account.id in w.accounts
            && (Consented(w.accounts[r.account.id].authorization, r.verb)
                <==> Covered(Interleaving.Run(EMPTY, first + later).log, r.account.id, r.verb))
  {
    var r, s := w.tasks[c.client].request, Interleaving.Run(EMPTY, first);
    ResolvedByFields(w, c);
    UnrefusedIsConsented(w.(now := c.now, tasks := w.tasks - {c.client}), r, Some(c.target));
    ConsentIsLogged(first, r.account.id, r.verb);
    NoLostUpdate(first);
    RowsStay(first, later, r.account.id);
    ConsentIsLogged(first + later, r.account.id, r.verb);
  }

  lemma RowsStay(first: seq<Event>, later: seq<Event>, id: Id)
    requires id in Interleaving.Run(EMPTY, first).table
    ensures id in Interleaving.Run(EMPTY, first + later).table
  {
    RunsCompose(EMPTY, first, later);
    RunKeepsInv(EMPTY, first);
    KnownStays(Interleaving.Run(EMPTY, first), later, id);
  }

  lemma {:induction false} KnownStays(s: System, events: seq<Event>, id: Id)
    requires Inv(s) && id in s.table
    ensures id in Interleaving.Run(s, events).table
  {
    if events != [] {
      var earlier := events[..|events| - 1];
      KnownStays(s, earlier, id);
      RunKeepsInv(s, earlier);
      RowStep(Interleaving.Run(s, earlier), events[|events| - 1], id);
    }
  }
}

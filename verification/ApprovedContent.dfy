/** Approved content is sent content: what a human approved is, field for field, what the adapter gets. */
module ApprovedContent {
  import opened Domain
  import opened ActionModel
  import opened Structure
  import opened DispatchSafety

  /** An approval is bound to its act and to one recorded draft content. */
  predicate Bound(w: World, id: Id) {
    && id in w.approvals && id in w.seen.pins && w.approvals[id].actionId in w.actions
    && var item, pin, a := w.approvals[id], w.seen.pins[id], w.actions[w.approvals[id].actionId];
       && pin == PinOf(a, pin.draft) && item.pinnedRevision == RevisionOf(pin.draft)
       && (pin.draft.Some? ==> OnRecord(w, pin.draft.value) && a.draftId == Some(pin.draft.value.id))
       && (pin.draft.None? ==> a.draftId.None?)
  }

  function KindSent(kind: Option<string>): string {
    if kind.Some? && kind.value != "" then kind.value else "like"
  }

  /** The call carries exactly what its approval was bound to. */
  predicate Faithful(d: Dispatch) {
    d.via.ApprovedBy? ==>
      && d.pin.Some?
      && d.verb == d.pin.value.verb && d.target == d.pin.value.target && d.draft == d.pin.value.draft
      && d.kind == KindSent(d.pin.value.kind)
  }

  ghost predicate ContentInv(w: World) {
    && (forall id :: id in w.approvals ==> Bound(w, id))
    && (forall i :: 0 <= i < |w.seen.sent| ==> Faithful(w.seen.sent[i]))
  }

  lemma BoundKept(w: World, u: World, id: Id)
    requires Bound(w, id) && Bookkeeping(w, u)
    requires id in u.approvals && id in u.seen.pins && u.seen.pins[id] == w.seen.pins[id]
    requires u.approvals[id].actionId == w.approvals[id].actionId
    requires u.approvals[id].pinnedRevision == w.approvals[id].pinnedRevision
    ensures Bound(u, id)
  {
    var d := w.seen.pins[id].draft;
    if d.Some? {
      assert OnRecord(u, d.value);
    }
  }

  lemma BoundAfterClose(w: World, b: Block, t: World, id: Id)
    requires ContentInv(w) && Prepared(w, b) && ApprovalsMove(w, b) && KeepsActs(b.world, t)
    requires b.ending.Settling? ==> b.ending.a.id in t.actions && SameAct(b.ending.a, t.actions[b.ending.a.id])
    requires id in t.approvals
    ensures Bound(t, id)
  {
    var u := b.world;
    if u.approvals == w.approvals && u.seen.pins == w.seen.pins {
      BoundKept(w, u, id);
      assert SameAct(u.actions[u.approvals[id].actionId], t.actions[u.approvals[id].actionId]);
    } else {
      var item: Approval, a: Action, draft: Option<ContentDraft> :| ItemMove(w, b, item, a, draft);
      BoundAfterMove(w, b, t, item, a, draft, id);
    }
  }

  lemma BoundAfterMove(w: World, b: Block, t: World, item: Approval, a: Action, draft: Option<ContentDraft>, id: Id)
    requires ContentInv(w) && Bookkeeping(w, b.world) && ItemMove(w, b, item, a, draft) && KeepsActs(b.world, t)
    requires b.ending.Settling? ==> b.ending.a.id in t.actions && SameAct(b.ending.a, t.actions[b.ending.a.id])
    requires id in t.approvals
    ensures Bound(t, id)
  {
    var u := b.world;
    if id != item.id || KeptBinding(w, u, item) {
      BoundKept(w, u, id);
      assert SameAct(u.actions[u.approvals[id].actionId], t.actions[u.approvals[id].actionId]);
    } else {
      assert PinnedAs(w, u, item, a, draft);
      if draft.Some? {
        assert OnRecord(u, draft.value);
      }
      if id in w.approvals {
        assert SameAct(u.actions[a.id], t.actions[a.id]);
      }
    }
  }

  /** Approval sends the current draft only if its revision is the pinned one, hence only the pinned content. */
  lemma ApprovedIsFaithful(w: World, b: Block)
    requires RecordsInv(w) && ContentInv(w) && EndingOk(w, b) && ApprovalsMove(w, b) && b.ending.Launching?
    ensures Faithful(DispatchOf(b.world, b.ending.x))
  {
    var x := b.ending.x;
    if x.via.ApprovedBy? {
      assert Bound(w, x.via.approval);
      PinsKept(w, b);
      var pin := w.seen.pins[x.via.approval];
      if pin.draft.Some? {
        assert OnRecord(w, w.drafts[pin.draft.value.id]);
        assert x.draft.value == pin.draft.value;
      }
    }
  }

  lemma PinsKept(w: World, b: Block)
    requires ApprovalsMove(w, b) && b.ending.Launching?
    ensures b.world.seen.pins == w.seen.pins
  {
    forall item: Approval, a: Action, draft: Option<ContentDraft> | ItemMove(w, b, item, a, draft)
      ensures KeptBinding(w, b.world, item)
    {
    }
  }

  lemma AllBoundAfterClose(w: World, b: Block)
    requires Wf(w) && ContentInv(w) && Prepared(w, b) && ApprovalsMove(w, b)
    ensures forall id :: id in Close(b).approvals ==> Bound(Close(b), id)
  {
    CloseKeepsActs(w, b);
    forall id | id in Close(b).approvals
      ensures Bound(Close(b), id)
    {
      BoundAfterClose(w, b, Close(b), id);
    }
  }

  lemma CloseKeeps(w: World, b: Block)
    requires Wf(w) && ContentInv(w) && Prepared(w, b) && ApprovalsMove(w, b)
    ensures ContentInv(Close(b))
  {
    AllBoundAfterClose(w, b);
    SentByClose(w, b);
    if Close(b).seen.sent != w.seen.sent {
      ApprovedIsFaithful(w, b);
    }
  }

  lemma {:induction false} RunKeeps(w: World, commands: seq<Command>)
    requires Wf(w) && ContentInv(w)
    ensures ContentInv(Run(w, commands))
  {
    if commands != [] {
      var earlier, c := commands[..|commands| - 1], commands[|commands| - 1];
      RunKeeps(w, earlier);
      RunKeepsWf(w, earlier);
      var r := Run(w, earlier);
      if Enabled(r, c) {
        var v := r.(now := c.now);
        NowKeepsWf(r, c.now);
        assert ContentInv(v) by {
          forall id | id in v.approvals
            ensures Bound(v, id)
          {
            assert Bound(r, id);
          }
        }
        BlockPrepared(v, c);
        ApprovalsMoved(v, c);
        CloseKeeps(v, Perform(v, c));
      }
    }
  }

  /**
   * In every interleaved run, each draft an approval hands to an adapter equals, field for field, the draft
   * content it was bound to when submitted or last reopened; verb, target and kind are the bound ones too.
   */
  lemma ApprovedContentIsSentContent(config: Config, start: Time, commands: seq<Command>, w: World, i: nat)
    requires w == Run(Initial(config, start), commands) && i < |w.seen.sent|
    ensures Faithful(w.seen.sent[i])
  {
    InitialWf(config, start);
    RunKeeps(Initial(config, start), commands);
  }

  // ---- contents over a run ----

  /** What is on record stays on record as it is. */
  ghost predicate KeepsContents(w: World, t: World) {
    forall key :: key in w.seen.contents ==> key in t.seen.contents && t.seen.contents[key] == w.seen.contents[key]
  }

  lemma StepKeepsContents(w: World, c: Command)
    requires Wf(w)
    ensures KeepsContents(w, Step(w, c))
  {
    if Enabled(w, c) {
      var v := w.(now := c.now);
      NowKeepsWf(w, c.now);
      BlockPrepared(v, c);
      CloseKeepsActs(v, Perform(v, c));
    }
  }

  lemma {:induction false} RunKeepsContents(w: World, commands: seq<Command>, n: nat)
    requires Wf(w) && n <= |commands|
    ensures KeepsContents(Run(w, commands[..n]), Run(w, commands))
    decreases |commands|
  {
    if n == |commands| {
      assert commands[..n] == commands;
    } else {
      var earlier := commands[..|commands| - 1];
      assert earlier[..n] == commands[..n];
      RunKeepsContents(w, earlier, n);
      RunKeepsWf(w, earlier);
      StepKeepsContents(Run(w, earlier), commands[|commands| - 1]);
    }
  }

  /**
   * One (draft, revision) pair never has two contents: a draft that shows the same revision at any two boundaries
   * of a run is the same draft, field for field, whatever happened in between.
   */
  lemma RevisionFixesContent(config: Config, start: Time, commands: seq<Command>, m: nat, n: nat, u: World, w: World,
                             id: Id)
    requires m <= |commands| && n <= |commands|
    requires u == Run(Initial(config, start), commands[..m]) && w == Run(Initial(config, start), commands[..n])
    requires id in u.drafts && id in w.drafts && u.drafts[id].revision == w.drafts[id].revision
    ensures u.drafts[id] == w.drafts[id]
  {
    var w0 := Initial(config, start);
    InitialWf(config, start);
    RunKeepsWf(w0, commands[..m]);
    RunKeepsWf(w0, commands[..n]);
    RunKeepsContents(w0, commands, m);
    RunKeepsContents(w0, commands, n);
    assert OnRecord(u, u.drafts[id]) && OnRecord(w, w.drafts[id]);
  }
}

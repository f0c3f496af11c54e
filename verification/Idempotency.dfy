/** Idempotency keys, in every run whose interleaving happens only at adapter awaits. */
module Idempotency {
  import opened Domain
  import opened ActionModel
  import opened Structure
  import opened DispatchSafety

  predicate Keyed(key: Option<string>) { key.Some? && key.value != "" }

  ghost predicate OneActionPerKey(actions: map<Id, Action>) {
    forall i, j :: i in actions && j in actions && i != j && Keyed(actions[i].key) ==> actions[i].key != actions[j].key
  }

  /** Calls carry their action's key, and no action is sent twice by its own submission. */
  ghost predicate SentOnce(actions: map<Id, Action>, sent: seq<Dispatch>) {
    && (forall i :: 0 <= i < |sent| ==> sent[i].actionId in actions && actions[sent[i].actionId].key == sent[i].key)
    && (forall i, j :: 0 <= i < j < |sent| && sent[i].via == Submitted && sent[j].via == Submitted
          ==> sent[i].actionId != sent[j].actionId)
  }

  ghost predicate KeyInv(w: World) {
    OneActionPerKey(w.actions) && SentOnce(w.actions, w.seen.sent)
  }

  function EndingAct(e: Ending): Action
    requires !e.Stop?
  {
    match e
    case Settling(a, _, _, _, _) => a
    case Launching(_, x) => x.action
    case Returning(_, x, _) => x.action
    case ReadReturning(_, x) => x.action
  }

  /** An ending stores no act but its own. */
  ghost predicate StoresOnly(before: map<Id, Action>, after: map<Id, Action>, a: Action) {
    && (forall id :: id in after ==> id in before || id == a.id)
    && (a.id in after ==> SameAct(a, after[a.id]) || a.id in before)
  }

  lemma ExecuteStores(w: World, client: nat, x: Execution)
    ensures StoresOnly(w.actions, Execute(w, client, x).actions, x.action)
    ensures x.action.id in Execute(w, client, x).actions
  {
    var y := x.(action := x.action.(state := Executing));
    match TransportOf(y)
    case Staged => SucceedStores(WithAction(w, y.action), y);
    case _ =>
  }

  lemma SucceedStores(w: World, x: Execution)
    ensures Succeed(w, x).actions == w.actions[x.action.id := x.action.(state := Done)]
  {
  }

  lemma FinishStores(w: World, client: nat, x: Execution, result: AdapterResult)
    ensures StoresOnly(w.actions, Finish(w, client, x, result).actions, x.action)
  {
  }

  lemma CloseStores(w: World, b: Block)
    requires Prepared(w, b)
    ensures if b.ending.Stop? then Close(b).actions == w.actions
            else StoresOnly(w.actions, Close(b).actions, EndingAct(b.ending))
  {
    match b.ending
    case Stop =>
    case Settling(_, _, _, _, _) =>
    case Launching(client, x) => ExecuteStores(b.world, client, x);
    case Returning(client, x, result) => FinishStores(w, client, x, result);
    case ReadReturning(_, _) =>
  }

  /** A stored act that is new has a key nobody else has. */
  lemma NewActHasFreeKey(w: World, b: Block)
    requires Wf(w) && Prepared(w, b) && !b.ending.Stop?
    requires EndingAct(b.ending).id !in w.actions
    ensures !KeyTaken(w.actions, EndingAct(b.ending).key)
  {
    if b.ending.Returning? || b.ending.ReadReturning? {
      assert TaskOk(w, w.tasks[b.ending.client]);
    }
  }

  lemma ActionsKeepKeys(before: map<Id, Action>, after: map<Id, Action>, a: Action)
    requires OneActionPerKey(before) && StoresOnly(before, after, a)
    requires forall id :: id in before ==> id in after && SameAct(before[id], after[id])
    requires a.id !in before ==> !KeyTaken(before, a.key)
    ensures OneActionPerKey(after)
  {
    forall i, j | i in after && j in after && i != j && Keyed(after[i].key)
      ensures after[i].key != after[j].key
    {
      if i in before && j in before {
        assert SameAct(before[i], after[i]) && SameAct(before[j], after[j]);
      }
    }
  }

  lemma SentKept(before: map<Id, Action>, after: map<Id, Action>, sent: seq<Dispatch>)
    requires SentOnce(before, sent)
    requires forall id :: id in before ==> id in after && SameAct(before[id], after[id])
    ensures SentOnce(after, sent)
  {
    forall i | 0 <= i < |sent|
      ensures sent[i].actionId in after && after[sent[i].actionId].key == sent[i].key
    {
      assert SameAct(before[sent[i].actionId], after[sent[i].actionId]);
    }
  }

  lemma CloseKeepsActions(w: World, b: Block)
    requires Wf(w) && KeyInv(w) && Prepared(w, b)
    ensures OneActionPerKey(Close(b).actions) && SentOnce(Close(b).actions, w.seen.sent)
  {
    CloseKeepsActs(w, b);
    CloseStores(w, b);
    SentKept(w.actions, Close(b).actions, w.seen.sent);
    if !b.ending.Stop? {
      if EndingAct(b.ending).id !in w.actions {
        NewActHasFreeKey(w, b);
      }
      ActionsKeepKeys(w.actions, Close(b).actions, EndingAct(b.ending));
    }
  }

  /** What a submission sends concerns an act that did not exist when the block began. */
  lemma NewDispatch(w: World, b: Block)
    requires Wf(w) && KeyInv(w) && Prepared(w, b) && b.ending.Launching?
    ensures var d, t := DispatchOf(b.world, b.ending.x), Close(b);
            && d.actionId in t.actions && t.actions[d.actionId].key == d.key
            && (d.via == Submitted ==> d.actionId !in w.actions)
  {
    var x := b.ending.x;
    CloseKeepsActs(w, b);
    ExecuteStores(b.world, b.ending.client, x);
    if x.action.id in w.actions {
      assert SameAct(b.world.actions[x.action.id], Close(b).actions[x.action.id]);
    }
  }

  lemma SentAppended(before: map<Id, Action>, after: map<Id, Action>, sent: seq<Dispatch>, d: Dispatch)
    requires SentOnce(before, sent) && SentOnce(after, sent)
    requires d.actionId in after && after[d.actionId].key == d.key
    requires d.via == Submitted ==> d.actionId !in before
    ensures SentOnce(after, sent + [d])
  {
  }

  lemma CloseKeeps(w: World, b: Block)
    requires Wf(w) && KeyInv(w) && Prepared(w, b)
    ensures KeyInv(Close(b))
  {
    CloseKeepsActions(w, b);
    SentByClose(w, b);
    if Close(b).seen.sent != w.seen.sent {
      NewDispatch(w, b);
      SentAppended(w.actions, Close(b).actions, w.seen.sent, DispatchOf(b.world, b.ending.x));
    }
  }

  lemma {:induction false} RunKeeps(w: World, commands: seq<Command>)
    requires Wf(w) && KeyInv(w)
    ensures KeyInv(Run(w, commands))
  {
    if commands != [] {
      var earlier, c := commands[..|commands| - 1], commands[|commands| - 1];
      RunKeeps(w, earlier);
      RunKeepsWf(w, earlier);
      var r := Run(w, earlier);
      if Enabled(r, c) {
        NowKeepsWf(r, c.now);
        BlockPrepared(r.(now := c.now), c);
        CloseKeeps(r.(now := c.now), Perform(r.(now := c.now), c));
      }
    }
  }

  /** Two different calls made by submissions never share a key. */
  lemma KeysAreSentOnce(w: World, i: int, j: int)
    requires KeyInv(w) && 0 <= i < j < |w.seen.sent|
    requires w.seen.sent[i].via == Submitted && w.seen.sent[j].via == Submitted && Keyed(w.seen.sent[i].key)
    ensures w.seen.sent[i].key != w.seen.sent[j].key
  {
    assert w.actions[w.seen.sent[i].actionId].key == w.seen.sent[i].key;
    assert w.actions[w.seen.sent[j].actionId].key == w.seen.sent[j].key;
  }

  /** At most one stored action and at most one submission-path dispatch per non-empty key. */
  ghost predicate Idempotent(w: World) {
    && OneActionPerKey(w.actions)
    && forall i, j ::
         0 <= i < j < |w.seen.sent| && w.seen.sent[i].via == Submitted && w.seen.sent[j].via == Submitted ==>
           Keyed(w.seen.sent[i].key) ==> w.seen.sent[i].key != w.seen.sent[j].key
  }

  lemma KeysAreIdempotent(config: Config, start: Time, commands: seq<Command>, w: World)
    requires w == Run(Initial(config, start), commands)
    ensures Idempotent(w)
  {
    InitialWf(config, start);
    RunKeeps(Initial(config, start), commands);
    forall i, j | 0 <= i < j < |w.seen.sent| && w.seen.sent[i].via == Submitted && w.seen.sent[j].via == Submitted
                  && Keyed(w.seen.sent[i].key)
      ensures w.seen.sent[i].key != w.seen.sent[j].key
    {
      KeysAreSentOnce(w, i, j);
    }
  }

  /** A replay changes nothing but the clock, whatever the account, draft and lock now look like. */
  lemma ReplayChangesNothing(w: World, c: Command)
    requires Enabled(w, c) && c.SubmitPublish? && KeyTaken(w.actions, c.key)
    ensures Step(w, c) == w.(now := c.now)
  {
  }

  lemma TargetedReplayOnlyEndsItsTask(w: World, c: Command)
    requires Enabled(w, c) && c.TargetResolved? && IsWrite(w.tasks[c.client].request.verb)
    requires KeyTaken(w.actions, w.tasks[c.client].request.key)
    ensures Step(w, c) == w.(now := c.now, tasks := w.tasks - {c.client})
  {
  }
}

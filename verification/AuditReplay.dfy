/** The audit log replays to the stored action states, at every boundary of every interleaving. */
module AuditReplay {
  import opened Domain
  import opened ActionModel
  import opened Structure

  /** The outcome of the last event about an action. */
  function LastOutcome(audit: seq<AuditEvent>, id: Id): Option<Outcome> {
    if audit == [] then None
    else if audit[|audit| - 1].actionId == Some(id) then Some(audit[|audit| - 1].outcome)
    else LastOutcome(audit[..|audit| - 1], id)
  }

  ghost predicate ReplaysOne(actions: map<Id, Action>, audit: seq<AuditEvent>, tasks: map<nat, Task>, crashed: set<Id>,
                             id: Id)
    requires id in actions
  {
    if actions[id].state == Executing then InFlight(tasks, id) || id in crashed
    else LastOutcome(audit, id).Some? && Agrees(actions[id].state, LastOutcome(audit, id).value)
  }

  ghost predicate ReplaysExcept(w: World, exempt: Option<Id>) {
    forall id :: id in w.actions && exempt != Some(id) ==> ReplaysOne(w.actions, w.audit, w.tasks, w.seen.crashed, id)
  }

  /**
   * An action that is not executing has the state its last event says; one that is executing is waiting
   * for its adapter or was abandoned by an exception that escaped.
   */
  ghost predicate AuditInv(w: World) { ReplaysExcept(w, None) }

  lemma LastOfAppend(audit: seq<AuditEvent>, e: AuditEvent, id: Id)
    ensures LastOutcome(audit + [e], id) == if e.actionId == Some(id) then Some(e.outcome) else LastOutcome(audit, id)
  {
    assert (audit + [e])[..|audit|] == audit;
  }

  /** Storing one state with one matching event restores agreement for that action. */
  lemma SettleKeeps(w: World, a: Action, s: ActionState, actor: string, outcome: Outcome, code: Option<DenialCode>)
    requires ReplaysExcept(w, Some(a.id)) && Agrees(s, outcome)
    ensures AuditInv(Settle(w, a, s, actor, outcome, code))
  {
    var t := Settle(w, a, s, actor, outcome, code);
    forall id | id in t.actions
      ensures ReplaysOne(t.actions, t.audit, t.tasks, t.seen.crashed, id)
    {
      LastOfAppend(w.audit, t.audit[|w.audit|], id);
      if id != a.id {
        assert ReplaysOne(w.actions, w.audit, w.tasks, w.seen.crashed, id);
      }
    }
  }

  lemma InFlightGrows(tasks: map<nat, Task>, after: map<nat, Task>, id: Id)
    requires InFlight(tasks, id)
    requires forall c :: c in tasks && tasks[c].Running? && tasks[c].x.action.id == id ==>
               c in after && after[c] == tasks[c]
    ensures InFlight(after, id)
  {
    var c :| c in tasks && tasks[c].Running? && tasks[c].x.action.id == id;
    assert after[c].Running?;
  }

  /** Changes the log does not speak of, apart from executions of one exempt action that came to an end. */
  lemma QuietKeeps(w: World, t: World, exempt: Option<Id>)
    requires ReplaysExcept(w, exempt)
    requires t.actions == w.actions && t.audit == w.audit && w.seen.crashed <= t.seen.crashed
    requires forall c :: c in w.tasks && w.tasks[c].Running? && exempt != Some(w.tasks[c].x.action.id)
               ==> c in t.tasks && t.tasks[c] == w.tasks[c]
    ensures ReplaysExcept(t, exempt)
  {
    forall id | id in t.actions && exempt != Some(id)
      ensures ReplaysOne(t.actions, t.audit, t.tasks, t.seen.crashed, id)
    {
      assert ReplaysOne(w.actions, w.audit, w.tasks, w.seen.crashed, id);
      if InFlight(w.tasks, id) {
        InFlightGrows(w.tasks, t.tasks, id);
      }
    }
  }

  lemma Exempt(w: World, id: Id)
    requires AuditInv(w)
    ensures ReplaysExcept(w, Some(id))
  {
    forall i | i in w.actions && i != id
      ensures ReplaysOne(w.actions, w.audit, w.tasks, w.seen.crashed, i)
    {
    }
  }

  lemma WithActionExempt(w: World, a: Action)
    requires AuditInv(w)
    ensures ReplaysExcept(WithAction(w, a), Some(a.id))
  {
    forall i | i in WithAction(w, a).actions && i != a.id
      ensures ReplaysOne(WithAction(w, a).actions, w.audit, w.tasks, w.seen.crashed, i)
    {
      assert ReplaysOne(w.actions, w.audit, w.tasks, w.seen.crashed, i);
    }
  }

  lemma SucceedKeeps(w: World, x: Execution)
    requires ReplaysExcept(w, Some(x.action.id))
    ensures AuditInv(Succeed(w, x))
  {
    var u := w.(trackers := Track(w.config, w.trackers, x, w.now),
                seen := w.seen.(executed := w.seen.executed + [ExecutedBy(w, x)]));
    QuietKeeps(w, u, Some(x.action.id));
    SettleKeeps(u, x.action, Done, x.actor, Allow, None);
  }

  lemma LaunchKeeps(w: World, client: nat, x: Execution)
    requires ReplaysExcept(w, Some(x.action.id)) && client !in w.tasks
    requires x.action.id in w.actions && w.actions[x.action.id].state == Executing
    ensures var t := w.(tasks := w.tasks[client := Running(x)],
                        seen := w.seen.(sent := w.seen.sent + [DispatchOf(w, x)]));
            AuditInv(t)
  {
    var t := w.(tasks := w.tasks[client := Running(x)], seen := w.seen.(sent := w.seen.sent + [DispatchOf(w, x)]));
    QuietKeeps(w, t, Some(x.action.id));
    assert t.tasks[client].Running? && t.tasks[client].x.action.id == x.action.id;
    assert InFlight(t.tasks, x.action.id);
    assert ReplaysOne(t.actions, t.audit, t.tasks, t.seen.crashed, x.action.id);
  }

  lemma ExecuteKeeps(w: World, client: nat, x: Execution)
    requires AuditInv(w) && client !in w.tasks
    ensures AuditInv(Execute(w, client, x))
  {
    var y := x.(action := x.action.(state := Executing));
    var u := WithAction(w, y.action);
    WithActionExempt(w, y.action);
    match TransportOf(y)
    case Live => LaunchKeeps(u, client, y);
    case Staged => SucceedKeeps(u, y);
    case Unsupported => SettleKeeps(u, y.action, Failed, y.actor, Deny, Some(CapabilityUnsupported));
  }

  lemma FinishKeeps(w: World, client: nat, result: AdapterResult)
    requires AuditInv(w) && client in w.tasks && w.tasks[client].Running?
    ensures AuditInv(Finish(w, client, w.tasks[client].x, result))
  {
    var x := w.tasks[client].x;
    var u := w.(tasks := w.tasks - {client});
    Exempt(w, x.action.id);
    QuietKeeps(w, u, Some(x.action.id));
    match result
    case Succeeded => SucceedKeeps(u, x);
    case Rejected => SettleKeeps(u, x.action, Failed, x.actor, Deny, None);
    case RaisedInvalid => SettleKeeps(u, x.action, Failed, x.actor, Deny, Some(ContentInvalid));
    case RaisedUnsupported => SettleKeeps(u, x.action, Failed, x.actor, Deny, Some(CapabilityUnsupported));
    case RaisedOther => CrashKeeps(w, client);
  }

  lemma CrashKeeps(w: World, client: nat)
    requires AuditInv(w) && client in w.tasks && w.tasks[client].Running?
    ensures AuditInv(Finish(w, client, w.tasks[client].x, RaisedOther))
  {
    var id, t := w.tasks[client].x.action.id, Finish(w, client, w.tasks[client].x, RaisedOther);
    Exempt(w, id);
    QuietKeeps(w, t, Some(id));
    if id in t.actions {
      assert ReplaysOne(w.actions, w.audit, w.tasks, w.seen.crashed, id);
      assert ReplaysOne(t.actions, t.audit, t.tasks, t.seen.crashed, id);
    }
  }

  lemma FinishReadKeeps(w: World, client: nat)
    requires AuditInv(w) && client in w.tasks && w.tasks[client].Reading?
    ensures AuditInv(FinishRead(w, client, w.tasks[client].x))
  {
    var x, t := w.tasks[client].x, FinishRead(w, client, w.tasks[client].x);
    var u := w.(tasks := w.tasks - {client}, trackers := t.trackers, seen := t.seen);
    QuietKeeps(w, u, None);
    Exempt(u, x.action.id);
    SettleKeeps(u, x.action, Done, x.actor, Allow, None);
  }

  /** Bookkeeping writes no act event and starts or ends no execution. */
  lemma BookkeepingKeeps(w: World, u: World)
    requires AuditInv(w) && Bookkeeping(w, u)
    ensures AuditInv(u)
  {
    forall id | id in u.actions
      ensures ReplaysOne(u.actions, u.audit, u.tasks, u.seen.crashed, id)
    {
      assert ReplaysOne(w.actions, w.audit, w.tasks, w.seen.crashed, id);
      if u.audit != w.audit {
        var e: AuditEvent :| u.audit == w.audit + [e] && e.actionId.None?;
        LastOfAppend(w.audit, e, id);
      }
      if InFlight(w.tasks, id) {
        InFlightGrows(w.tasks, u.tasks, id);
      }
    }
  }

  lemma CloseKeeps(w: World, b: Block)
    requires AuditInv(w) && Prepared(w, b)
    ensures AuditInv(Close(b))
  {
    BookkeepingKeeps(w, b.world);
    match b.ending
    case Stop =>
    case Settling(a, s, actor, outcome, code) =>
      Exempt(b.world, a.id);
      SettleKeeps(b.world, a, s, actor, outcome, code);
    case Launching(client, x) => ExecuteKeeps(b.world, client, x);
    case Returning(client, _, result) => FinishKeeps(w, client, result);
    case ReadReturning(client, _) => FinishReadKeeps(w, client);
  }

  lemma {:induction false} RunKeeps(w: World, commands: seq<Command>)
    requires Wf(w) && AuditInv(w)
    ensures AuditInv(Run(w, commands))
  {
    if commands != [] {
      var earlier, c := commands[..|commands| - 1], commands[|commands| - 1];
      RunKeeps(w, earlier);
      RunKeepsWf(w, earlier);
      var v := Run(w, earlier).(now := c.now);
      if Enabled(Run(w, earlier), c) {
        NowKeepsWf(Run(w, earlier), c.now);
        QuietKeeps(Run(w, earlier), v, None);
        BlockPrepared(v, c);
        CloseKeeps(v, Perform(v, c));
      }
    }
  }

  /** The last event decides the state, unless an execution is under way or was lost. */
  ghost predicate FollowsLog(w: World, id: Id)
    requires id in w.actions
  {
    var s, last := w.actions[id].state, LastOutcome(w.audit, id);
    if s == Executing then InFlight(w.tasks, id) || id in w.seen.crashed
    else
      && last.Some?
      && (last.value == Allow <==> s == Done)
      && (last.value == Route <==> s == NeedsApproval)
      && (last.value == Deny <==> s == Refused || s == Failed)
  }

  lemma InvFollowsLog(w: World, id: Id)
    requires AuditInv(w) && id in w.actions
    ensures FollowsLog(w, id)
  {
    assert ReplaysOne(w.actions, w.audit, w.tasks, w.seen.crashed, id);
  }

  /**
   * In every interleaving, at every boundary: an action that is not executing has the state its last audit
   * event stands for, and one that is executing waits for its adapter or lost it to an escaped exception.
   */
  lemma AuditReplaysToStates(config: Config, start: Time, commands: seq<Command>, w: World, id: Id)
    requires w == Run(Initial(config, start), commands) && id in w.actions
    ensures FollowsLog(w, id)
  {
    InitialWf(config, start);
    RunKeeps(Initial(config, start), commands);
    InvFollowsLog(w, id);
  }
}

/** What one block does to the execution log and to the suspended executions: the ground of the three bounds. */
module Flights {
  import opened Domain
  import opened ActionModel
  import opened Structure

  /** The clock is ahead of everything that happened. */
  ghost predicate Timely(w: World) {
    forall i :: 0 <= i < |w.seen.executed| ==> w.seen.executed[i].at <= w.now
  }

  function Started(x: Execution): Execution { x.(action := x.action.(state := Executing)) }

  function ReadEntry(w: World, x: Execution): Executed {
    Executed(x.account.id, x.action.verb, w.now, Submitted, None, false, None)
  }

  /** The entry a block adds to the execution log, if it completes an execution. */
  function Entry(w: World, b: Block): Option<Executed> {
    match b.ending
    case Launching(_, x) => if TransportOf(x) == Staged then Some(ExecutedBy(w, x)) else None
    case Returning(_, x, result) => if result == Succeeded then Some(ExecutedBy(w, x)) else None
    case ReadReturning(_, x) => Some(ReadEntry(w, x))
    case _ => None
  }

  /** The tasks after a block: a live launch starts to wait, a return stops waiting. */
  function TasksAfter(w: World, b: Block): map<nat, Task> {
    match b.ending
    case Launching(client, x) =>
      if TransportOf(x) == Live then b.world.tasks[client := Running(Started(x))] else b.world.tasks
    case Returning(client, _, _) => w.tasks - {client}
    case ReadReturning(client, _) => w.tasks - {client}
    case _ => b.world.tasks
  }

  function Logged(log: seq<Executed>, e: Option<Executed>): seq<Executed> {
    if e.Some? then log + [e.value] else log
  }

  lemma ExecuteAdvances(w: World, client: nat, x: Execution)
    requires IsWrite(x.action.verb)
    ensures var t := Execute(w, client, x);
            && t.now == w.now && t.config == w.config && t.accounts == w.accounts
            && t.seen.executed == Logged(w.seen.executed,
                                         if TransportOf(x) == Staged then Some(ExecutedBy(w, x)) else None)
            && t.tasks == if TransportOf(x) == Live then w.tasks[client := Running(Started(x))] else w.tasks
  {
    var y := Started(x);
    assert TransportOf(y) == TransportOf(x);
    if TransportOf(x) == Staged {
      SucceedAdvances(WithAction(w, y.action), y);
    }
  }

  lemma SucceedAdvances(w: World, x: Execution)
    ensures var t := Succeed(w, x);
            && t.now == w.now && t.config == w.config && t.accounts == w.accounts && t.tasks == w.tasks
            && t.seen.executed == w.seen.executed + [ExecutedBy(w, x)]
  {
  }

  lemma FinishAdvances(w: World, client: nat, x: Execution, result: AdapterResult)
    ensures var t := Finish(w, client, x, result);
            && t.now == w.now && t.config == w.config && t.accounts == w.accounts && t.tasks == w.tasks - {client}
            && t.seen.executed == Logged(w.seen.executed, if result == Succeeded then Some(ExecutedBy(w, x)) else None)
  {
  }

  lemma CloseAdvances(w: World, b: Block)
    requires Prepared(w, b)
    ensures var t := Close(b);
            && t.now == w.now && t.config == w.config && t.accounts == b.world.accounts
            && t.seen.executed == Logged(w.seen.executed, Entry(w, b)) && t.tasks == TasksAfter(w, b)
  {
    match b.ending
    case Launching(client, x) => ExecuteAdvances(b.world, client, x);
    case Returning(client, x, result) => FinishAdvances(w, client, x, result);
    case _ =>
  }

  lemma StaysTimely(w: World, b: Block)
    requires Prepared(w, b) && Timely(w)
    ensures Timely(Close(b))
  {
    CloseAdvances(w, b);
  }

  lemma {:induction false} SubsetSize<T>(s: set<T>, t: set<T>)
    requires s <= t
    ensures |s| <= |t|
  {
    if s != {} {
      var x :| x in s;
      SubsetSize(s - {x}, t - {x});
    }
  }
}

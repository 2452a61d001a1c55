/** The registry of execution progress bars shared by all sessions.

    Every access runs under the session lock, so a run is a sequence of handler
    calls and closes; `log` lists the events in lock order.
 */
module ProgressBars {
  import opened Prelude

  type OpId = string

  datatype Stage = Stage(numTasks: nat, completedTasks: nat)

  /** One call of the progress handler. */
  datatype Report = Report(stages: seq<Stage>, op: Option<OpId>, done: bool)

  datatype Bar = Bar(id: nat, total: nat, n: nat)

  datatype Event =
    | Opened(op: OpId, total: nat)
    | Updated(op: OpId, completed: nat, total: nat)
    | Closed(op: OpId, completed: nat, total: nat, reason: string)

  datatype Registry = Registry(
    bars: map<OpId, Bar>,
    log: seq<Event>,
    created: nat,        // bars created so far; bar k is the k-th one
    closed: seq<nat>     // ids of the bars closed, in order
  )

  const Empty := Registry(map[], [], 0, [])

  function Total(stages: seq<Stage>): nat {
    if stages == [] then 0 else Total(stages[..|stages| - 1]) + Last(stages).numTasks
  }

  function Completed(stages: seq<Stage>): nat {
    if stages == [] then 0 else Completed(stages[..|stages| - 1]) + Last(stages).completedTasks
  }

  /** The handler's effect, given the sums of its stages. */
  function Handled(r: Registry, shown: bool, op: Option<OpId>, total: nat, completed: nat, done: bool): Registry {
    if op.None? || !shown || total == 0 then r
    else if op.value !in r.bars then
      if done then r
      else r.(bars := r.bars[op.value := Bar(r.created, total, completed)],
              log := r.log + [Opened(op.value, total)], created := r.created + 1)
    else if done then
      r.(bars := r.bars - {op.value}, closed := r.closed + [r.bars[op.value].id],
         log := r.log + [Closed(op.value, Max(completed, total), total, "done")])
    else
      r.(bars := r.bars[op.value := r.bars[op.value].(total := total, n := completed)],
         log := r.log + [Updated(op.value, completed, total)])
  }

  function ClosedBar(r: Registry, op: OpId, reason: string): Registry {
    if op == "" || op !in r.bars then r
    else
      var bar := r.bars[op];
      r.(bars := r.bars - {op}, closed := r.closed + [bar.id],
         log := r.log + [Closed(op, bar.n, bar.total, reason)])
  }

  class ProgressBars {
    var bars: map<OpId, Bar>
    var log: seq<Event>
    var created: nat
    var closed: seq<nat>

    function View(): Registry
      reads this
    {
      Registry(bars, log, created, closed)
    }

    constructor ()
      ensures View() == Empty
    {
      bars, log, created, closed := map[], [], 0, [];
    }

    method Handle(report: Report, shown: bool)
      modifies this
      ensures View() == Handled(old(View()), shown, report.op,
                                Total(report.stages), Completed(report.stages), report.done)
    {
      if report.op.None? || !shown {
        return;
      }
      var op := report.op.value;
      var total, completed := 0, 0;
      var i := 0;
      while i < |report.stages|
        invariant 0 <= i <= |report.stages|
        invariant total == Total(report.stages[..i]) && completed == Completed(report.stages[..i])
        invariant View() == old(View())
      {
        assert report.stages[..i + 1][..i] == report.stages[..i];
        total := total + report.stages[i].numTasks;
        completed := completed + report.stages[i].completedTasks;
        i := i + 1;
      }
      assert report.stages[..i] == report.stages;
      if total == 0 {
        return;
      }
      var event: Option<Event> := None;
      if op !in bars {
        if report.done {
          return;
        }
        bars := bars[op := Bar(created, total, 0)];
        created := created + 1;
        event := Some(Opened(op, total));
      } else if bars[op].total != total {
        bars := bars[op := bars[op].(total := total)];
      }
      if report.done && completed < total {
        completed := total;
      }
      bars := bars[op := bars[op].(n := completed)];
      if report.done {
        closed := closed + [bars[op].id];
        bars := bars - {op};
        event := Some(Closed(op, completed, total, "done"));
        assert bars == old(bars) - {op};
      } else if event.None? {
        event := Some(Updated(op, completed, total));
      }
      log := log + [event.value];
    }

    method CloseProgressBar(op: OpId, reason: string)
      modifies this
      ensures View() == ClosedBar(old(View()), op, reason)
      ensures op in bars <==> op == "" && op in old(bars)
    {
      if op == "" {
        return;
      }
      if op !in bars {
        return;
      }
      var bar := bars[op];
      bars := bars - {op};
      closed := closed + [bar.id];
      log := log + [Closed(op, bar.n, bar.total, reason)];
    }
  }

  // ----- runs ----------------------------------------------------------------

  datatype Action =
    | HandlerCall(report: Report, shown: bool)
    | CloseCall(op: OpId, reason: string)

  function Act(r: Registry, a: Action): Registry {
    match a
    case HandlerCall(report, shown) =>
      Handled(r, shown, report.op, Total(report.stages), Completed(report.stages), report.done)
    case CloseCall(op, reason) => ClosedBar(r, op, reason)
  }

  function Run(actions: seq<Action>): Registry {
    if actions == [] then Empty
    else Act(Run(actions[..|actions| - 1]), Last(actions))
  }

  /** Where an operation is in (open update* close)*, or that it left that form. */
  datatype Phase = Shut | Showing | Broken

  function After(phase: Phase, e: Event): Phase {
    match e
    case Opened(_, _) => if phase.Shut? then Showing else Broken
    case Updated(_, _, _) => if phase.Showing? then Showing else Broken
    case Closed(_, _, _, _) => if phase.Showing? then Shut else Broken
  }

  function PhaseOf(log: seq<Event>, op: OpId): Phase {
    if log == [] then Shut
    else
      var before := PhaseOf(log[..|log| - 1], op);
      if Last(log).op == op then After(before, Last(log)) else before
  }

  ghost predicate PhasesMatch(r: Registry) {
    forall op :: PhaseOf(r.log, op) == (if op in r.bars then Showing else Shut)
  }

  /** Every bar created is either open under one operation or closed once. */
  ghost predicate BarsAccountedFor(r: Registry) {
    && (forall op :: op in r.bars ==> r.bars[op].id < r.created && r.bars[op].id !in r.closed)
    && (forall op, op' :: op in r.bars && op' in r.bars && r.bars[op].id == r.bars[op'].id ==> op == op')
    && (forall id :: id in r.closed ==> id < r.created)
    && (forall i, j :: 0 <= i < j < |r.closed| ==> r.closed[i] != r.closed[j])
    && (forall id: nat :: id < r.created && id !in r.closed ==> ShownUnderSomeOp(r.bars, id))
  }

  ghost predicate ShownUnderSomeOp(bars: map<OpId, Bar>, id: nat) {
    exists op :: op in bars && bars[op].id == id
  }

  lemma ActKeepsPhases(r: Registry, a: Action)
    requires PhasesMatch(r)
    ensures PhasesMatch(Act(r, a))
  {
    var t := Act(r, a);
    if t.log != r.log {
      assert t.log[..|t.log| - 1] == r.log;
    }
  }

  lemma OpenKeepsBars(r: Registry, op: OpId, bar: Bar)
    requires BarsAccountedFor(r) && op !in r.bars && bar.id == r.created
    ensures BarsAccountedFor(r.(bars := r.bars[op := bar], created := r.created + 1))
  {
    var t := r.(bars := r.bars[op := bar], created := r.created + 1);
    forall id: nat | id < t.created && id !in t.closed
      ensures ShownUnderSomeOp(t.bars, id)
    {
      if id == r.created {
        assert t.bars[op].id == id;
      } else {
        var o :| o in r.bars && r.bars[o].id == id;
        assert t.bars[o].id == id;
      }
    }
  }

  lemma CloseKeepsBars(r: Registry, op: OpId)
    requires BarsAccountedFor(r) && op in r.bars
    ensures BarsAccountedFor(r.(bars := r.bars - {op}, closed := r.closed + [r.bars[op].id]))
  {
    var t := r.(bars := r.bars - {op}, closed := r.closed + [r.bars[op].id]);
    forall id: nat | id < t.created && id !in t.closed
      ensures ShownUnderSomeOp(t.bars, id)
    {
      assert id !in r.closed && id != r.bars[op].id;
      var o :| o in r.bars && r.bars[o].id == id;
      assert t.bars[o].id == id;
    }
  }

  lemma UpdateKeepsBars(r: Registry, op: OpId, bar: Bar)
    requires BarsAccountedFor(r) && op in r.bars && bar.id == r.bars[op].id
    ensures BarsAccountedFor(r.(bars := r.bars[op := bar]))
  {
    var bars := r.bars[op := bar];
    assert forall o :: o in bars <==> o in r.bars;
    assert forall o :: o in bars ==> bars[o].id == r.bars[o].id;
    forall id: nat | id < r.created && id !in r.closed
      ensures ShownUnderSomeOp(bars, id)
    {
      var o :| o in r.bars && r.bars[o].id == id;
      assert o in bars && bars[o].id == id;
    }
    forall o, o' | o in bars && o' in bars && bars[o].id == bars[o'].id
      ensures o == o'
    {
      assert r.bars[o].id == r.bars[o'].id;
    }
  }

  lemma ActKeepsBars(r: Registry, a: Action)
    requires BarsAccountedFor(r)
    ensures BarsAccountedFor(Act(r, a))
  {
    match a {
      case HandlerCall(report, shown) =>
        var total, completed := Total(report.stages), Completed(report.stages);
        if report.op.Some? && shown && total != 0 {
          var op := report.op.value;
          if op in r.bars && report.done {
            CloseKeepsBars(r, op);
          } else if op in r.bars {
            UpdateKeepsBars(r, op, r.bars[op].(total := total, n := completed));
          } else if !report.done {
            OpenKeepsBars(r, op, Bar(r.created, total, completed));
          }
        }
      case CloseCall(op, reason) =>
        if op != "" && op in r.bars {
          CloseKeepsBars(r, op);
        }
    }
  }

  /** Over any run: each operation's events form (open update* close)*, the
      registry holds exactly the bars opened and not closed, and no bar is closed
      twice or lost. */
  lemma {:induction false} EveryBarOpenOrClosedOnce(actions: seq<Action>)
    ensures PhasesMatch(Run(actions)) && BarsAccountedFor(Run(actions))
  {
    if actions != [] {
      EveryBarOpenOrClosedOnce(actions[..|actions| - 1]);
      ActKeepsPhases(Run(actions[..|actions| - 1]), Last(actions));
      ActKeepsBars(Run(actions[..|actions| - 1]), Last(actions));
    }
  }

  /** The sums are those of the stages, each once. */
  lemma {:induction false} SumsAdd(a: seq<Stage>, b: seq<Stage>)
    ensures Total(a + b) == Total(a) + Total(b) && Completed(a + b) == Completed(a) + Completed(b)
    ensures |a| == 1 ==> Total(a) == a[0].numTasks && Completed(a) == a[0].completedTasks
  {
    if b == [] {
      assert a + b == a;
    } else {
      SumsAdd(a, b[..|b| - 1]);
      assert (a + b)[..|a + b| - 1] == a + b[..|b| - 1];
    }
  }

  /** A report on `op` that the handler does not pass over. */
  predicate Counts(a: Action, op: OpId) {
    a.HandlerCall? && a.shown && a.report.op == Some(op) && Total(a.report.stages) > 0
  }

  predicate Closes(a: Action, op: OpId) {
    a.CloseCall? && a.op == op && op != ""
  }

  /** The i-th action is the last that says anything about `op`, and says it goes on. */
  ghost predicate LastReport(actions: seq<Action>, i: int, op: OpId) {
    && 0 <= i < |actions| && Counts(actions[i], op) && !actions[i].report.done
    && forall j :: i < j < |actions| ==> !Counts(actions[j], op) && !Closes(actions[j], op)
  }

  ghost predicate Shows(r: Registry, op: OpId, stages: seq<Stage>) {
    op in r.bars && r.bars[op].total == Total(stages) && r.bars[op].n == Completed(stages)
  }

  lemma ActShows(r: Registry, a: Action, op: OpId)
    ensures
      var t := Act(r, a);
      if Counts(a, op) then if a.report.done then op !in t.bars else Shows(t, op, a.report.stages)
      else if Closes(a, op) then op !in t.bars
      else (op in t.bars <==> op in r.bars) && (op in r.bars ==> t.bars[op] == r.bars[op])
  {
    hide Total, Completed;
  }

  /** An operation has a bar exactly when the last thing said about it is a report that
      it goes on, and the bar shows the numbers of that report. */
  lemma {:induction false} BarShowsLastReport(actions: seq<Action>, op: OpId)
    ensures op in Run(actions).bars <==> exists i :: LastReport(actions, i, op)
    ensures forall i :: LastReport(actions, i, op) ==> Shows(Run(actions), op, actions[i].report.stages)
  {
    hide Total, Completed, Act;
    if actions != [] {
      var before := actions[..|actions| - 1];
      BarShowsLastReport(before, op);
      ActShows(Run(before), Last(actions), op);
      forall i | LastReport(before, i, op) && !Counts(Last(actions), op) && !Closes(Last(actions), op)
        ensures LastReport(actions, i, op)
      {
      }
      forall i | LastReport(actions, i, op) && i < |before|
        ensures LastReport(before, i, op) && !Counts(Last(actions), op) && !Closes(Last(actions), op)
      {
        assert before[i] == actions[i] && actions[|before|] == Last(actions);
      }
      if Counts(Last(actions), op) && !Last(actions).report.done {
        assert LastReport(actions, |actions| - 1, op);
      }
    } else {
      assert op !in Run(actions).bars by { NothingShown(op); }
    }
  }

  lemma NothingShown(op: OpId)
    ensures op !in Run([]).bars
  {
  }

  /** The event of an action says what the bar shows after it, and a close what it
      showed last; a "done" says that all tasks are completed, at least. */
  ghost predicate EventFits(r: Registry, a: Action, t: Registry, e: Event) {
    match e
    case Opened(op, total) => op !in r.bars && op in t.bars && total == t.bars[op].total
    case Updated(op, completed, total) =>
      op in r.bars && op in t.bars && completed == t.bars[op].n && total == t.bars[op].total
    case Closed(op, completed, total, reason) =>
      && op in r.bars && op !in t.bars
      && match a
         case CloseCall(_, why) => completed == r.bars[op].n && total == r.bars[op].total && reason == why
         case HandlerCall(report, _) =>
           && total == Total(report.stages) && reason == "done" && total <= completed
           && completed in {total, Completed(report.stages)} && Completed(report.stages) <= completed
  }

  /** Every report that counts and every close of a bar makes one event, which says
      what happened to the bar; nothing else makes any. */
  lemma EventsFit(r: Registry, a: Action)
    ensures
      var t := Act(r, a);
      if exists op :: (Counts(a, op) && (op in r.bars || !a.report.done)) || (Closes(a, op) && op in r.bars)
      then |t.log| == |r.log| + 1 && t.log[..|r.log|] == r.log && Last(t.log).op == ActedOn(a)
           && EventFits(r, a, t, Last(t.log))
      else t == r
  {
    hide Total, Completed;
    if Counts(a, ActedOn(a)) {
      assert Act(r, a).log == r.log || Act(r, a).log[..|r.log|] == r.log;
    }
  }

  function ActedOn(a: Action): OpId {
    match a
    case HandlerCall(report, _) => if report.op.Some? then report.op.value else ""
    case CloseCall(op, _) => op
  }

  /** The fallback close leaves a bar open in one case only: the handler accepts
      an empty operation id, and the close does not. */
  lemma EmptyIdStaysOpen(r: Registry, report: Report)
    requires report.op == Some("") && !report.done && Total(report.stages) > 0
    ensures "" in ClosedBar(Act(r, HandlerCall(report, true)), "", "query_end").bars
  {
    if "" !in r.bars {
      assert Act(r, HandlerCall(report, true)).bars[""].id == r.created;
    }
  }
}

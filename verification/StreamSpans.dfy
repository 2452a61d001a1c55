/** The spans of one streaming RPC: an inner one on the wire to the proxy and an
    outer one around the liveness guard. The consumer finishes them, outer call
    first, while gRPC's thread may be recording the final status on either. */
module StreamSpans {
  import opened Prelude

  datatype LayerId = Inner | Outer

  /** A span: what its record shows, and whether it has ended. The record handed
      to the sinks shares `attrs` and `events` with it. */
  datatype Span = Span(responseCount: Option<nat>, statusEvents: nat, coded: bool, failed: bool, cancelled: bool,
                       ended: bool)

  /** A `_StreamingCall`. */
  datatype Layer = Layer(count: nat, finished: bool, statusRecorded: bool, span: Span)

  const NEW_LAYER := Layer(0, false, false, Span(None, 0, false, false, false, false))

  // ----- what each locked region does ----------------------------------------

  function Set(p: Span, q: Span): Span {
    if p.ended then p else q
  }

  /** Whether this call records the status, and the layer afterwards. */
  function MarksStatus(l: Layer, active: bool): bool {
    !l.statusRecorded && !l.finished && !active
  }

  function AddCode(l: Layer): Layer {
    l.(span := Set(l.span, l.span.(coded := true)))
  }

  function AddStatus(l: Layer): Layer {
    l.(span := Set(l.span, l.span.(statusEvents := l.span.statusEvents + 1)))
  }

  function SetCount(l: Layer): Layer {
    l.(span := Set(l.span, l.span.(responseCount := Some(l.count))))
  }

  function Fail(l: Layer): Layer {
    l.(span := Set(l.span, l.span.(failed := true)))
  }

  function SetCancelled(l: Layer): Layer {
    l.(span := Set(l.span, l.span.(cancelled := true)))
  }

  function End(l: Layer): Layer {
    l.(span := l.span.(ended := true))
  }

  function StatusRecorded(l: Layer, active: bool): Layer {
    if MarksStatus(l, active) then AddStatus(AddCode(l.(statusRecorded := true))) else l
  }

  /** A whole `_finish` with nobody else about. */
  function Finished(l: Layer, active: bool, failed: bool): Layer {
    var m := StatusRecorded(l, active);
    if m.finished then m
    else
      var n := SetCount(m.(finished := true));
      End(if failed then Fail(n) else n)
  }

  class StreamingCall {
    var count: nat
    var finished: bool
    var statusRecorded: bool
    var span: Span

    function View(): Layer
      reads this
    {
      Layer(count, finished, statusRecorded, span)
    }

    constructor ()
      ensures View() == NEW_LAYER
    {
      count, finished, statusRecorded, span := 0, false, false, NEW_LAYER.span;
    }

    /** The check-and-set under the lock. */
    method MarkStatus(active: bool) returns (mine: bool)
      modifies this
      ensures mine == MarksStatus(old(View()), active)
      ensures View() == old(View()).(statusRecorded := mine || old(statusRecorded))
    {
      if statusRecorded || finished {
        return false;
      }
      if active {
        return false;
      }
      statusRecorded := true;
      mine := true;
    }

    method RecordStatus(active: bool)
      modifies this
      ensures View() == StatusRecorded(old(View()), active)
    {
      var mine := MarkStatus(active);
      if mine {
        if !span.ended {
          span := span.(coded := true);
        }
        if !span.ended {
          span := span.(statusEvents := span.statusEvents + 1);
        }
      }
    }

    /** With nobody else about, the span ends once, with the count, after that of
        the layer inside, if there is one. */
    method Finish(active: bool, failed: bool, inner: StreamingCall?) returns (emitted: bool)
      requires inner != this
      requires span.ended ==> finished
      requires inner != null ==> (inner.span.ended ==> inner.finished)
      modifies this, inner
      ensures View() == Finished(old(View()), active, failed)
      ensures inner != null ==>
                inner.View() == if old(finished) then old(inner.View()) else Finished(old(inner.View()), active, failed)
      ensures finished && emitted == !old(finished)
      ensures emitted ==> span.ended && span.responseCount == Some(count)
      decreases if inner == null then 0 else 1
    {
      RecordStatus(active);
      if finished {
        return false;
      }
      finished := true;
      if inner != null {
        var first := inner.Finish(active, failed, null);
      }
      if !span.ended {
        span := span.(responseCount := Some(count));
      }
      if failed && !span.ended {
        span := span.(failed := true);
      }
      emitted := !span.ended;
      span := span.(ended := true);
    }
  }

  // ----- the interleavings ---------------------------------------------------

  /** Where the consumer is in a layer's `_finish`: `Due` is before it, when the
      inner layer's own `_finish` comes first; `Nested` is inside the inner one. */
  datatype Pc = Idle | Due | Status | Code | Event | Close | Nested | Count | Failing | Ending | Untrack | Emit

  /** Where the status callback is in `_record_status`. */
  datatype Callback = NotRun | CbStatus | CbCode | CbEvent | CbDone

  /** One layer, with where its consumer and its callback are; whether its span
      is in flight, and how often it has been handed to the sinks. */
  datatype Side = Side(layer: Layer, pc: Pc, cb: Callback, tracked: bool, emissions: nat)

  /** `late` messages were delivered after the stream had been finished. */
  datatype State = State(inner: Side, outer: Side, active: bool, dropped: bool, failing: bool,
                         delivered: nat, late: nat, emitted: seq<LayerId>)

  predicate Resting(s: State) {
    s.inner.pc == Idle && s.outer.pc == Idle
  }

  function Init(): State {
    var x := Side(NEW_LAYER, Idle, NotRun, true, 0);
    State(x, x, true, false, false, 0, 0, [])
  }

  datatype Step =
    | Deliver
    | Raise(failed: bool, over: bool)   // next() ends the iteration, or raises
    | Cancel
    | Drop                              // the consumer lets go of the iterator
    | Go(layer: LayerId)                // the consumer's next step in a `_finish`
    | Over                              // the RPC terminates
    | CallBack(layer: LayerId)          // also the constructor's own try, when gRPC takes no callback

  predicate Enabled(s: State, step: Step) {
    match step
    case Deliver => Resting(s) && !s.dropped
    case Raise(_, _) => Resting(s) && !s.dropped
    case Cancel => Resting(s) && !s.dropped
    case Drop => Resting(s) && !s.dropped
    case Go(Inner) => s.inner.pc != Idle
    case Go(Outer) => s.inner.pc == Idle && s.outer.pc != Idle
    case Over => true
    case CallBack(Inner) => !s.active && s.inner.cb != CbDone
    case CallBack(Outer) => !s.active && s.outer.cb != CbDone
  }

  /** The consumer's step at its current place in a layer's `_finish`. */
  function Advance(x: Side, active: bool, failing: bool, wraps: bool): Side {
    var y := x.layer;
    match x.pc
    case Idle => x
    case Due => x.(pc := Status)
    case Status =>
      if MarksStatus(y, active) then x.(layer := y.(statusRecorded := true), pc := Code) else x.(pc := Close)
    case Code => x.(layer := AddCode(y), pc := Event)
    case Event => x.(layer := AddStatus(y), pc := Close)
    case Close =>
      if y.finished then x.(pc := Idle)
      else x.(layer := y.(finished := true), pc := if wraps then Nested else Count)
    case Nested => x.(pc := Count)
    case Count => x.(layer := SetCount(y), pc := if failing then Failing else Ending)
    case Failing => x.(layer := Fail(y), pc := Ending)
    case Ending => if y.span.ended then x.(pc := Idle) else x.(layer := End(y), pc := Untrack)
    case Untrack => x.(tracked := false, pc := Emit)
    case Emit => x.(emissions := x.emissions + 1, pc := Idle)
  }

  function RunCallback(x: Side, active: bool): Side {
    var y := x.layer;
    match x.cb
    case NotRun => x.(cb := CbStatus)
    case CbStatus =>
      if MarksStatus(y, active) then x.(layer := y.(statusRecorded := true), cb := CbCode) else x.(cb := CbDone)
    case CbCode => x.(layer := AddCode(y), cb := CbEvent)
    case CbEvent => x.(layer := AddStatus(y), cb := CbDone)
    case CbDone => x
  }

  function Received(x: Side): Side {
    x.(layer := x.layer.(count := x.layer.count + 1))
  }

  function Apply(s: State, step: Step): State {
    match step
    case Deliver =>
      s.(inner := Received(s.inner), outer := Received(s.outer), delivered := s.delivered + 1,
         late := if s.outer.layer.finished then s.late + 1 else s.late)
    case Raise(failed, over) =>
      s.(failing := failed, active := s.active && !over, inner := s.inner.(pc := Status), outer := s.outer.(pc := Due))
    case Cancel =>
      s.(failing := false, active := false,
         inner := s.inner.(layer := SetCancelled(s.inner.layer), pc := Status),
         outer := s.outer.(layer := SetCancelled(s.outer.layer), pc := Due))
    case Drop => s.(failing := false, dropped := true, outer := s.outer.(pc := Status))
    case Go(Inner) =>
      s.(inner := Advance(s.inner, s.active, s.failing, false),
         emitted := if s.inner.pc == Emit then s.emitted + [Inner] else s.emitted)
    case Go(Outer) =>
      var x := Advance(s.outer, s.active, s.failing, true);
      s.(outer := x, inner := if x.pc == Nested then s.inner.(pc := Status) else s.inner,
         emitted := if s.outer.pc == Emit then s.emitted + [Outer] else s.emitted)
    case Over => s.(active := false)
    case CallBack(Inner) => s.(inner := RunCallback(s.inner, s.active))
    case CallBack(Outer) => s.(outer := RunCallback(s.outer, s.active))
  }

  function Run(steps: seq<Step>): State {
    if steps == [] then Init() else Apply(Run(steps[..|steps| - 1]), Last(steps))
  }

  ghost predicate Possible(steps: seq<Step>) {
    steps == [] || (Possible(steps[..|steps| - 1]) && Enabled(Run(steps[..|steps| - 1]), Last(steps)))
  }

  // ----- the invariant -------------------------------------------------------

  predicate PastClose(pc: Pc) {
    pc in {Nested, Count, Failing, Ending}
  }

  predicate Leaving(pc: Pc) {
    pc in {Untrack, Emit}
  }

  /** Threads that have yet to add the status event they are committed to. */
  function Adding(x: Side): nat {
    (if x.pc in {Code, Event} then 1 else 0) + (if x.cb in {CbCode, CbEvent} then 1 else 0)
  }

  predicate StatusInv(x: Side) {
    var marked := if x.layer.statusRecorded then 1 else 0;
    && x.layer.span.statusEvents + Adding(x) <= marked
    && (!x.layer.span.ended ==> x.layer.span.statusEvents + Adding(x) == marked)
  }

  predicate Emitted(x: Side) {
    x.layer.span.ended && !Leaving(x.pc)
  }

  predicate SpanInv(x: Side, delivered: nat, counted: int) {
    var p := x.layer.span;
    && x.layer.count == delivered
    && (x.layer.finished <==> p.ended || PastClose(x.pc))
    && (PastClose(x.pc) ==> !p.ended)
    && (Leaving(x.pc) ==> p.ended)
    && (x.tracked <==> !p.ended || x.pc == Untrack)
    && x.emissions == (if Emitted(x) then 1 else 0)
    && (x.pc in {Failing, Ending} || p.ended ==> p.responseCount.Some? && p.responseCount.value == counted)
  }

  /** How the consumer's places in the two layers go together. */
  predicate NestingInv(s: State) {
    && s.inner.pc !in {Due, Nested}
    && (s.inner.pc != Idle ==> s.outer.pc in {Due, Nested})
    && (Resting(s) ==> s.inner.layer.finished == s.outer.layer.finished)
    && (s.outer.layer.finished && s.outer.pc != Nested ==> Emitted(s.inner))
    && (s.outer.pc == Nested && s.inner.pc == Idle ==> Emitted(s.inner))
    && (s.late > 0 ==> s.inner.layer.finished && s.outer.layer.finished && Emitted(s.inner) && Emitted(s.outer))
    && s.emitted == (if Emitted(s.inner) then [Inner] else []) + (if Emitted(s.outer) then [Outer] else [])
  }

  predicate Inv(s: State) {
    && s.late <= s.delivered
    && SpanInv(s.inner, s.delivered, s.delivered - s.late) && SpanInv(s.outer, s.delivered, s.delivered - s.late)
    && StatusInv(s.inner) && StatusInv(s.outer)
    && NestingInv(s)
  }

  lemma AdvanceKeeps(x: Side, active: bool, failing: bool, wraps: bool, delivered: nat, counted: int)
    requires SpanInv(x, delivered, counted) && StatusInv(x) && x.pc != Idle
    requires counted == delivered || x.layer.span.ended
    ensures
      var y := Advance(x, active, failing, wraps);
      && SpanInv(y, delivered, counted) && StatusInv(y)
      && (Emitted(y) <==> Emitted(x) || x.pc == Emit)
      && (y.pc == Idle ==> y.layer.finished && Emitted(y))
      && (y.layer.finished <==> x.layer.finished || x.pc == Close)
      && (y.pc == Nested <==> wraps && x.pc == Close && !x.layer.finished)
      && y.pc != Due && (x.pc == Nested ==> y.pc == Count)
  {
  }

  lemma CallbackKeeps(x: Side, active: bool, delivered: nat, counted: int)
    requires SpanInv(x, delivered, counted) && StatusInv(x)
    ensures
      var y := RunCallback(x, active);
      && SpanInv(y, delivered, counted) && StatusInv(y)
      && y.pc == x.pc && y.layer.finished == x.layer.finished && y.layer.span.ended == x.layer.span.ended
  {
  }

  lemma InnerKeepsInv(s: State)
    requires Inv(s) && Enabled(s, Go(Inner))
    ensures Inv(Apply(s, Go(Inner)))
  {
    hide StatusInv, Advance;
    AdvanceKeeps(s.inner, s.active, s.failing, false, s.delivered, s.delivered - s.late);
  }

  lemma OuterKeepsInv(s: State)
    requires Inv(s) && Enabled(s, Go(Outer))
    ensures Inv(Apply(s, Go(Outer)))
  {
    hide StatusInv, Advance;
    AdvanceKeeps(s.outer, s.active, s.failing, true, s.delivered, s.delivered - s.late);
    StartKeepsStatus(s.inner);
  }

  lemma CallbackKeepsInv(s: State, l: LayerId)
    requires Inv(s) && Enabled(s, CallBack(l))
    ensures Inv(Apply(s, CallBack(l)))
  {
    hide StatusInv, RunCallback, SpanInv;
    CallbackKeeps(if l.Inner? then s.inner else s.outer, s.active, s.delivered, s.delivered - s.late);
  }

  lemma ConsumerKeepsInv(s: State, step: Step)
    requires Inv(s) && Enabled(s, step) && !step.Go? && !step.CallBack?
    ensures Inv(Apply(s, step))
  {
    hide StatusInv;
    ConsumerKeepsStatus(s, step);
  }

  lemma StepKeepsInv(s: State, step: Step)
    requires Inv(s) && Enabled(s, step)
    ensures Inv(Apply(s, step))
  {
    hide *;
    match step {
      case Go(Inner) => InnerKeepsInv(s);
      case Go(Outer) => OuterKeepsInv(s);
      case CallBack(l) => CallbackKeepsInv(s, l);
      case _ => ConsumerKeepsInv(s, step);
    }
  }

  lemma StartKeepsStatus(x: Side)
    requires StatusInv(x) && x.pc == Idle
    ensures StatusInv(x.(pc := Status))
  {
  }

  lemma ConsumerKeepsStatus(s: State, step: Step)
    requires StatusInv(s.inner) && StatusInv(s.outer)
    requires Enabled(s, step) && !step.Go? && !step.CallBack?
    ensures StatusInv(Apply(s, step).inner) && StatusInv(Apply(s, step).outer)
  {
  }

  // ----- what every run keeps ------------------------------------------------

  lemma {:induction false} EveryRunKeepsInv(steps: seq<Step>)
    requires Possible(steps)
    ensures Inv(Run(steps))
  {
    hide Inv, Apply, Enabled;
    if steps == [] {
      assert Inv(Init()) by { InitInv(); }
    } else {
      EveryRunKeepsInv(steps[..|steps| - 1]);
      StepKeepsInv(Run(steps[..|steps| - 1]), Last(steps));
    }
  }

  lemma InitInv()
    ensures Inv(Init())
  {
  }

  /** Each span is emitted at most once, the inner one first, with at most one
      status event; when the consumer is done with the stream and at rest, both
      have been emitted and neither is in flight. */
  lemma {:induction false} EmittedOnceInOrder(steps: seq<Step>)
    requires Possible(steps)
    ensures
      var s := Run(steps);
      && s.inner.emissions <= 1 && s.outer.emissions <= 1
      && s.emitted <= [Inner, Outer]
      && s.inner.layer.span.statusEvents <= 1 && s.outer.layer.span.statusEvents <= 1
      && (Resting(s) && s.outer.layer.finished ==>
            s.emitted == [Inner, Outer] && !s.inner.tracked && !s.outer.tracked)
      && (!s.outer.layer.finished ==> s.outer.tracked && Outer !in s.emitted)
  {
    hide Run, Possible;
    EveryRunKeepsInv(steps);
  }

  /** The response count of an ended span is that of the messages delivered,
      exactly when none was delivered after the stream had been finished. */
  lemma {:induction false} CountIsDelivered(steps: seq<Step>)
    requires Possible(steps)
    ensures
      var s := Run(steps);
      forall x :: x in [s.inner, s.outer] && x.layer.span.ended ==>
        && x.layer.span.responseCount == Some(s.delivered - s.late)
        && (x.layer.span.responseCount == Some(s.delivered) <==> s.late == 0)
  {
    hide Run, Possible;
    EveryRunKeepsInv(steps);
  }

  lemma SideKeepsRecord(x: Side, active: bool, failing: bool, wraps: bool)
    ensures forall y :: y in [Advance(x, active, failing, wraps), RunCallback(x, active)] ==>
      && (x.layer.span.ended ==> y.layer.span == x.layer.span)
      && (x.layer.finished ==> y.layer.finished && y.layer.statusRecorded == x.layer.statusRecorded)
      && (y.tracked ==> x.tracked)
  {
  }

  predicate StatusSettled(x: Side, y: Side) {
    x.layer.finished ==> y.layer.finished && y.layer.statusRecorded == x.layer.statusRecorded
  }

  lemma StepKeepsRecord(s: State, step: Step)
    requires Inv(s) && Enabled(s, step)
    ensures
      var t := Apply(s, step);
      && (s.inner.layer.span.ended ==> t.inner.layer.span == s.inner.layer.span)
      && (s.outer.layer.span.ended ==> t.outer.layer.span == s.outer.layer.span)
      && (t.inner.tracked ==> s.inner.tracked) && (t.outer.tracked ==> s.outer.tracked)
      && s.emitted <= t.emitted && StatusSettled(s.inner, t.inner) && StatusSettled(s.outer, t.outer)
  {
    hide Inv, Advance, RunCallback;
    SideKeepsRecord(s.inner, s.active, s.failing, false);
    SideKeepsRecord(s.outer, s.active, s.failing, true);
  }

  lemma {:induction false} PossiblePrefix(steps: seq<Step>, more: seq<Step>)
    requires Possible(steps + more)
    ensures Possible(steps)
  {
    if more == [] {
      assert steps + more == steps;
    } else {
      assert (steps + more)[..|steps + more| - 1] == steps + more[..|more| - 1];
      PossiblePrefix(steps, more[..|more| - 1]);
    }
  }

  /** Whatever happens after a span has ended, its record stays as it was, and it
      does not come back in flight; and nobody records the status of a finished layer. */
  lemma {:induction false} RecordNeverChanges(steps: seq<Step>, more: seq<Step>)
    requires Possible(steps + more)
    ensures
      var s, t := Run(steps), Run(steps + more);
      && (s.inner.layer.span.ended ==> t.inner.layer.span == s.inner.layer.span)
      && (s.outer.layer.span.ended ==> t.outer.layer.span == s.outer.layer.span)
      && (t.inner.tracked ==> s.inner.tracked) && (t.outer.tracked ==> s.outer.tracked)
      && s.emitted <= t.emitted && StatusSettled(s.inner, t.inner) && StatusSettled(s.outer, t.outer)
  {
    hide Inv, Apply, Enabled;
    if more == [] {
      assert steps + more == steps;
    } else {
      var before := steps + more[..|more| - 1];
      assert (steps + more)[..|steps + more| - 1] == before && Last(steps + more) == Last(more);
      RecordNeverChanges(steps, more[..|more| - 1]);
      EveryRunKeepsInv(before);
      StepKeepsRecord(Run(before), Last(more));
    }
  }

  // ----- what the record says ------------------------------------------------

  /** The step by which the consumer first was done with the stream. */
  function EndedBy(steps: seq<Step>): Option<Step> {
    if steps == [] then None else Ender(EndedBy(steps[..|steps| - 1]), Last(steps))
  }

  function Ender(how: Option<Step>, step: Step): Option<Step> {
    if how.None? && (step.Raise? || step.Cancel? || step.Drop?) then Some(step) else how
  }

  predicate ByFailure(how: Option<Step>) {
    how.Some? && how.value.Raise? && how.value.failed
  }

  predicate SaysHow(x: Side, how: Option<Step>) {
    var p := x.layer.span;
    && p.cancelled == (how == Some(Cancel))
    && (x.pc == Failing ==> ByFailure(how))
    && (if p.ended || x.pc == Ending then p.failed == ByFailure(how) else !p.failed)
  }

  /** The status event comes with the code, and both with the mark. */
  predicate SaysCode(x: Side) {
    var p := x.layer.span;
    && (p.statusEvents > 0 ==> p.coded)
    && (p.coded || x.pc in {Code, Event} || x.cb in {CbCode, CbEvent} ==> x.layer.statusRecorded)
    && (x.pc == Event || x.cb == CbEvent ==> p.coded || p.ended)
  }

  /** A dropped stream is finished from the outside in, any other from the inside out. */
  predicate FinishedInOrder(s: State, how: Option<Step>) {
    if how == Some(Drop) then s.inner.layer.finished || s.inner.pc != Idle ==> s.outer.layer.finished
    else
      && (s.outer.layer.finished || s.outer.pc !in {Idle, Due} ==> s.inner.layer.finished)
      && (s.outer.pc == Due && s.inner.pc == Idle ==> s.inner.layer.finished)
  }

  predicate SaysInv(s: State, how: Option<Step>) {
    && FinishedInOrder(s, how)
    && SaysHow(s.inner, how) && SaysHow(s.outer, how) && SaysCode(s.inner) && SaysCode(s.outer)
    && (how.None? ==> Resting(s) && !s.inner.layer.finished && !s.outer.layer.finished)
    && (how.Some? && Resting(s) ==> s.inner.layer.finished && s.outer.layer.finished)
    && (how.Some? && !(s.inner.layer.span.ended && s.outer.layer.span.ended) ==> s.failing == ByFailure(how))
  }

  lemma AdvanceSays(x: Side, active: bool, failing: bool, wraps: bool, how: Option<Step>)
    requires SaysHow(x, how) && SaysCode(x) && x.pc != Idle
    requires (PastClose(x.pc) ==> !x.layer.span.ended) && (Leaving(x.pc) ==> x.layer.span.ended)
    requires !x.layer.span.ended ==> failing == ByFailure(how)
    ensures SaysHow(Advance(x, active, failing, wraps), how) && SaysCode(Advance(x, active, failing, wraps))
    ensures x.layer.span.ended ==> Advance(x, active, failing, wraps).layer.span.ended
  {
  }

  lemma CallbackSays(x: Side, active: bool, how: Option<Step>)
    requires SaysHow(x, how) && SaysCode(x)
    ensures SaysHow(RunCallback(x, active), how) && SaysCode(RunCallback(x, active))
  {
  }

  lemma GoKeepsSays(s: State, l: LayerId, how: Option<Step>)
    requires Inv(s) && Enabled(s, Go(l)) && SaysInv(s, how)
    ensures SaysInv(Apply(s, Go(l)), how)
  {
    hide Advance, StatusInv, SaysHow, SaysCode;
    var x := SideOf(s, l);
    AdvanceSays(x, s.active, s.failing, l.Outer?, how);
    AdvanceKeeps(x, s.active, s.failing, l.Outer?, s.delivered, s.delivered - s.late);
    StepKeepsInv(s, Go(l));
    if s.inner.pc == Idle {
      StartSays(s.inner, how);
    }
  }

  lemma StartSays(x: Side, how: Option<Step>)
    requires SaysHow(x, how) && SaysCode(x) && x.pc == Idle
    ensures SaysHow(x.(pc := Status), how) && SaysCode(x.(pc := Status))
  {
  }

  lemma CallBackKeepsSays(s: State, l: LayerId, how: Option<Step>)
    requires Inv(s) && Enabled(s, CallBack(l)) && SaysInv(s, how)
    ensures SaysInv(Apply(s, CallBack(l)), how)
  {
    hide RunCallback, StatusInv, SpanInv, NestingInv, SaysHow, SaysCode;
    CallbackSays(SideOf(s, l), s.active, how);
    CallbackKeeps(SideOf(s, l), s.active, s.delivered, s.delivered - s.late);
  }

  lemma ConsumerKeepsSays(s: State, step: Step, how: Option<Step>)
    requires Inv(s) && Enabled(s, step) && SaysInv(s, how) && !step.Go? && !step.CallBack?
    ensures SaysInv(Apply(s, step), Ender(how, step))
  {
    hide StatusInv;
  }

  lemma {:induction false} EveryRunSays(steps: seq<Step>)
    requires Possible(steps)
    ensures SaysInv(Run(steps), EndedBy(steps))
  {
    hide Inv, Apply, Enabled, SaysInv;
    if steps == [] {
      NothingSaid();
    } else {
      var before := steps[..|steps| - 1];
      EveryRunSays(before);
      EveryRunKeepsInv(before);
      match Last(steps) {
        case Go(l) => GoKeepsSays(Run(before), l, EndedBy(before));
        case CallBack(l) => CallBackKeepsSays(Run(before), l, EndedBy(before));
        case _ => ConsumerKeepsSays(Run(before), Last(steps), EndedBy(before));
      }
    }
  }

  lemma NothingSaid()
    ensures SaysInv(Init(), None)
  {
  }

  /** The RPC runs until it terminates, is cancelled or ends in what next() raises. */
  lemma {:induction false} ActiveUntilOver(steps: seq<Step>)
    ensures Run(steps).active <==>
              forall step :: step in steps ==> !step.Over? && !step.Cancel? && !(step.Raise? && step.over)
  {
    hide Advance, RunCallback;
    if steps != [] {
      ActiveUntilOver(steps[..|steps| - 1]);
      assert steps == steps[..|steps| - 1] + [Last(steps)];
    }
  }

  /** Dropping the iterator finishes the outer layer and then, inside that, the inner
      one; the end of the iteration, an exception and cancel() the inner one first. */
  lemma OrderOfFinishing(steps: seq<Step>)
    requires Possible(steps)
    ensures
      var s := Run(steps);
      if EndedBy(steps) == Some(Drop) then s.inner.layer.finished ==> s.outer.layer.finished
      else s.outer.layer.finished ==> s.inner.layer.finished
  {
    hide Run, Possible;
    EveryRunSays(steps);
  }

  /** The record of an ended span says that the stream failed exactly when the consumer
      was first done with it by an exception, and that it was cancelled exactly when by
      cancel(); a status event never comes without the code. */
  lemma RecordSaysHowItEnded(steps: seq<Step>, l: LayerId)
    requires Possible(steps)
    ensures
      var x, how := SideOf(Run(steps), l).layer, EndedBy(steps);
      && (x.span.ended ==> (x.span.failed <==> how == Some(Raise(true, true)) || how == Some(Raise(true, false))))
      && (x.span.cancelled <==> how == Some(Cancel))
      && (x.span.statusEvents > 0 ==> x.span.coded) && (x.span.coded ==> x.statusRecorded)
  {
    hide Run, Possible;
    EveryRunSays(steps);
  }

  // ----- finishing ends ------------------------------------------------------

  function PcWork(pc: Pc): nat {
    match pc
    case Idle => 0 case Emit => 1 case Untrack => 2 case Ending => 3 case Failing => 4 case Count => 5
    case Nested => 6 case Close => 7 case Event => 8 case Code => 9 case Status => 10 case Due => 11
  }

  function Work(s: State): nat {
    11 * PcWork(s.outer.pc) + PcWork(s.inner.pc)
  }

  lemma AdvanceWorks(x: Side, active: bool, failing: bool, wraps: bool)
    requires x.pc != Idle
    ensures PcWork(Advance(x, active, failing, wraps).pc) < PcWork(x.pc)
  {
  }

  /** Until it is at rest the consumer can take a step; each brings it nearer to
      the end of what it is doing, no other step takes it away from there, and it
      only comes to rest with both layers finished. */
  lemma FinishingEnds(s: State, step: Step)
    requires Inv(s) && !Resting(s) && Enabled(s, step)
    ensures Enabled(s, Go(Inner)) || Enabled(s, Go(Outer))
    ensures Work(Apply(s, step)) < Work(s) <==> step.Go?
    ensures Work(Apply(s, step)) <= Work(s)
    ensures Resting(Apply(s, step)) ==> Apply(s, step).inner.layer.finished && Apply(s, step).outer.layer.finished
  {
    hide Advance, RunCallback, SpanInv, StatusInv;
    match step {
      case Go(Inner) =>
        AdvanceWorks(s.inner, s.active, s.failing, false);
      case Go(Outer) =>
        AdvanceWorks(s.outer, s.active, s.failing, true);
        OuterRests(s);
      case CallBack(l) =>
        CallbackKeeps(if l.Inner? then s.inner else s.outer, s.active, s.delivered, s.delivered - s.late);
      case _ =>
    }
    StepKeepsInv(s, step);
  }

  lemma OuterRests(s: State)
    requires Inv(s) && Enabled(s, Go(Outer))
    ensures
      var y := Advance(s.outer, s.active, s.failing, true);
      && (y.pc == Idle ==> y.layer.finished)
      && (y.pc == Nested ==> PcWork(s.outer.pc) == 7)
  {
    AdvanceKeeps(s.outer, s.active, s.failing, true, s.delivered, s.delivered - s.late);
  }

  /** A layer's steps to the end of its `_finish`, uninterrupted. */
  function ToEnd(x: Side, active: bool, failing: bool, wraps: bool): Side
    decreases PcWork(x.pc)
  {
    if x.pc == Idle then x
    else
      AdvanceWorks(x, active, failing, wraps);
      ToEnd(Advance(x, active, failing, wraps), active, failing, wraps)
  }

  lemma FromCount(x: Side, active: bool, failing: bool, wraps: bool)
    requires x.pc == Count && !x.layer.span.ended
    ensures ToEnd(x, active, failing, wraps).layer
            == (var n := SetCount(x.layer); End(if failing then Fail(n) else n))
  {
    var y := Advance(x, active, failing, wraps);
    if failing {
      assert Advance(y, active, failing, wraps).pc == Ending;
    }
    FromEnding(if failing then Advance(y, active, failing, wraps) else y, active, failing, wraps);
  }

  lemma FromEnding(x: Side, active: bool, failing: bool, wraps: bool)
    requires x.pc == Ending && !x.layer.span.ended
    ensures ToEnd(x, active, failing, wraps).layer == End(x.layer)
  {
    var y := Advance(x, active, failing, wraps);
    var z := Advance(y, active, failing, wraps);
    assert ToEnd(z, active, failing, wraps).layer == End(x.layer);
  }

  lemma FromClose(x: Side, active: bool, failing: bool, wraps: bool)
    requires x.pc == Close && (x.layer.span.ended ==> x.layer.finished)
    ensures ToEnd(x, active, failing, wraps).layer
            == if x.layer.finished then x.layer
               else (var n := SetCount(x.layer.(finished := true)); End(if failing then Fail(n) else n))
  {
    var y := Advance(x, active, failing, wraps);
    if !x.layer.finished {
      FromCount(if wraps then Advance(y, active, failing, wraps) else y, active, failing, wraps);
    }
  }

  /** Uninterrupted, the steps of a layer are what `Finish` does to it. */
  lemma StepsAreFinish(x: Side, active: bool, failing: bool, wraps: bool)
    requires x.pc == Status && (x.layer.span.ended ==> x.layer.finished)
    ensures ToEnd(x, active, failing, wraps).layer == Finished(x.layer, active, failing)
  {
    var y := Advance(x, active, failing, wraps);
    if y.pc == Code {
      var z := Advance(y, active, failing, wraps);
      assert ToEnd(y, active, failing, wraps) == ToEnd(z, active, failing, wraps);
      FromClose(Advance(z, active, failing, wraps), active, failing, wraps);
    } else {
      FromClose(y, active, failing, wraps);
    }
  }

  // ----- the status event ----------------------------------------------------

  datatype Who = Consumer | GrpcThread

  function SideOf(s: State, l: LayerId): Side {
    if l.Inner? then s.inner else s.outer
  }

  /** This step decides, under the lock, to record the status: the RPC is over, the
      layer not finished, and nobody has decided so before. */
  predicate Marks(s: State, step: Step, l: LayerId, who: Who) {
    && (if who.Consumer? then step == Go(l) && SideOf(s, l).pc == Status
        else step == CallBack(l) && SideOf(s, l).cb == CbStatus)
    && MarksStatus(SideOf(s, l).layer, s.active)
  }

  /** This step adds the status event, if the span has not ended. */
  predicate Adds(s: State, step: Step, l: LayerId, who: Who) {
    if who.Consumer? then step == Go(l) && SideOf(s, l).pc == Event
    else step == CallBack(l) && SideOf(s, l).cb == CbEvent
  }

  predicate Committed(x: Side, who: Who) {
    if who.Consumer? then x.pc in {Code, Event} else x.cb in {CbCode, CbEvent}
  }

  lemma AdvanceCommits(x: Side, active: bool, failing: bool, wraps: bool)
    ensures
      var y := Advance(x, active, failing, wraps);
      && (y.pc in {Code, Event} ==> x.pc == Code || (x.pc == Status && MarksStatus(x.layer, active)))
      && y.cb == x.cb
  {
    hide MarksStatus, AddCode, AddStatus, SetCount, Fail, End;
  }

  lemma OnlyAddStatusAdds(y: Layer)
    ensures forall z :: z in [AddCode(y), SetCount(y), Fail(y), End(y)] ==> z.span.statusEvents == y.span.statusEvents
    ensures AddStatus(y).span.statusEvents == y.span.statusEvents + if y.span.ended then 0 else 1
  {
  }

  lemma AdvanceAdds(x: Side, active: bool, failing: bool, wraps: bool)
    ensures Advance(x, active, failing, wraps).layer.span.statusEvents
            == x.layer.span.statusEvents + if !x.layer.span.ended && x.pc == Event then 1 else 0
  {
    hide MarksStatus, AddCode, AddStatus, SetCount, Fail, End;
    OnlyAddStatusAdds(x.layer);
  }

  lemma CallbackStatus(x: Side, active: bool)
    ensures
      var y := RunCallback(x, active);
      && (y.cb in {CbCode, CbEvent} ==> x.cb == CbCode || (x.cb == CbStatus && MarksStatus(x.layer, active)))
      && y.pc == x.pc
      && y.layer.span.statusEvents
         == x.layer.span.statusEvents + if !x.layer.span.ended && x.cb == CbEvent then 1 else 0
  {
  }

  lemma StatusStep(s: State, step: Step, l: LayerId, who: Who)
    requires Enabled(s, step)
    ensures
      var x, y := SideOf(s, l), SideOf(Apply(s, step), l);
      && (Committed(y, who) ==> Committed(x, who) || Marks(s, step, l, who))
      && (Adds(s, step, l, who) ==> Committed(x, who))
      && y.layer.span.statusEvents
         == x.layer.span.statusEvents + if !x.layer.span.ended && AddsByAny(s, step, l) then 1 else 0
  {
    var x := SideOf(s, l);
    if step == Go(l) {
      AdvanceCommits(x, s.active, s.failing, l.Outer?);
      AdvanceAdds(x, s.active, s.failing, l.Outer?);
      GoAdvances(s, l);
    } else if step == CallBack(l) {
      CallbackStatus(x, s.active);
    } else {
      OtherStatus(s, step, l);
    }
    hide Apply, Enabled, MarksStatus, Advance, RunCallback;
  }

  lemma GoAdvances(s: State, l: LayerId)
    requires Enabled(s, Go(l))
    ensures SideOf(Apply(s, Go(l)), l) == Advance(SideOf(s, l), s.active, s.failing, l.Outer?)
  {
  }

  lemma OtherStatus(s: State, step: Step, l: LayerId)
    requires Enabled(s, step) && step != Go(l) && step != CallBack(l)
    ensures
      var x, y := SideOf(s, l), SideOf(Apply(s, step), l);
      && y.pc in {x.pc, Status, Due} && y.cb == x.cb && y.layer.span.statusEvents == x.layer.span.statusEvents
      && y.layer.statusRecorded == x.layer.statusRecorded
  {
    hide Advance, RunCallback;
  }

  predicate AddsByAny(s: State, step: Step, l: LayerId) {
    Adds(s, step, l, Consumer) || Adds(s, step, l, GrpcThread)
  }

  ghost predicate MarkedAt(steps: seq<Step>, j: int, l: LayerId, who: Who) {
    0 <= j < |steps| && Marks(Run(steps[..j]), steps[j], l, who)
  }

  ghost predicate AddedAt(steps: seq<Step>, k: int, l: LayerId, who: Who) {
    && 0 <= k < |steps| && Adds(Run(steps[..k]), steps[k], l, who)
    && !SideOf(Run(steps[..k]), l).layer.span.ended
  }

  /** A thread marked the status before the layer was finished, and added its event
      before the span ended. */
  ghost predicate RecordedInTime(steps: seq<Step>, l: LayerId) {
    exists who, j, k :: RecordedBy(steps, l, who, j, k)
  }

  ghost predicate RecordedBy(steps: seq<Step>, l: LayerId, who: Who, j: int, k: int) {
    j < k && MarkedAt(steps, j, l, who) && AddedAt(steps, k, l, who)
  }

  lemma EarlierSteps(steps: seq<Step>, l: LayerId, who: Who, j: int)
    requires steps != [] && j < |steps| - 1
    ensures MarkedAt(steps, j, l, who) <==> MarkedAt(steps[..|steps| - 1], j, l, who)
    ensures AddedAt(steps, j, l, who) <==> AddedAt(steps[..|steps| - 1], j, l, who)
  {
    hide Run, Marks, Adds;
    if 0 <= j {
      assert steps[..|steps| - 1][..j] == steps[..j];
    }
  }

  /** Who is committed to add the event has marked the status. */
  lemma {:induction false} CommittedHasMarked(steps: seq<Step>, l: LayerId, who: Who) returns (j: int)
    requires Possible(steps) && Committed(SideOf(Run(steps), l), who)
    ensures MarkedAt(steps, j, l, who)
  {
    hide Inv, Apply, Enabled, Marks, Committed;
    assert steps != [] by { NobodyCommitted(l, who); }
    var before := steps[..|steps| - 1];
    StatusStep(Run(before), Last(steps), l, who);
    if Committed(SideOf(Run(before), l), who) {
      j := CommittedHasMarked(before, l, who);
      EarlierSteps(steps, l, who, j);
    } else {
      j := |steps| - 1;
    }
  }

  lemma NobodyCommitted(l: LayerId, who: Who)
    ensures !Committed(SideOf(Init(), l), who)
  {
  }

  lemma AddedMeansRecorded(steps: seq<Step>, l: LayerId, who: Who)
    requires Possible(steps) && steps != [] && AddedAt(steps, |steps| - 1, l, who)
    ensures RecordedInTime(steps, l)
  {
    hide Apply, Enabled, Marks, Adds, Committed;
    var before := steps[..|steps| - 1];
    StatusStep(Run(before), Last(steps), l, who);
    var j := CommittedHasMarked(before, l, who);
    EarlierSteps(steps, l, who, j);
    assert RecordedBy(steps, l, who, j, |steps| - 1);
  }

  lemma RecordedEarlierOrNow(steps: seq<Step>, l: LayerId)
    requires Possible(steps) && steps != []
    ensures RecordedInTime(steps, l) <==>
              || RecordedInTime(steps[..|steps| - 1], l)
              || AddedAt(steps, |steps| - 1, l, Consumer) || AddedAt(steps, |steps| - 1, l, GrpcThread)
  {
    hide Run, Possible, MarkedAt, AddedAt;
    var before := steps[..|steps| - 1];
    if RecordedInTime(before, l) {
      var who, j, k :| RecordedBy(before, l, who, j, k);
      assert k < |before| by { AddedInside(before, k, l, who); }
      EarlierSteps(steps, l, who, j);
      EarlierSteps(steps, l, who, k);
      assert RecordedBy(steps, l, who, j, k);
    }
    if RecordedInTime(steps, l) {
      var who, j, k :| RecordedBy(steps, l, who, j, k);
      AddedInside(steps, k, l, who);
      if k < |steps| - 1 {
        EarlierSteps(steps, l, who, j);
        EarlierSteps(steps, l, who, k);
        assert RecordedBy(before, l, who, j, k);
      } else {
        assert who == Consumer || who == GrpcThread;
      }
    }
    if AddedAt(steps, |steps| - 1, l, Consumer) {
      AddedMeansRecorded(steps, l, Consumer);
    }
    if AddedAt(steps, |steps| - 1, l, GrpcThread) {
      AddedMeansRecorded(steps, l, GrpcThread);
    }
  }

  lemma AddedInside(steps: seq<Step>, k: int, l: LayerId, who: Who)
    requires AddedAt(steps, k, l, who)
    ensures 0 <= k < |steps|
  {
  }

  /** A span has its one status event exactly when some thread marked the status
      before the layer was finished and added the event before the span ended. */
  lemma {:induction false} StatusIffRecordedInTime(steps: seq<Step>, l: LayerId)
    requires Possible(steps)
    ensures SideOf(Run(steps), l).layer.span.statusEvents == (if RecordedInTime(steps, l) then 1 else 0)
  {
    hide Apply, Enabled, Adds, Marks, Committed, RecordedInTime;
    AtMostOneStatus(steps, l);
    if steps == [] {
      NoStatusYet(l);
    } else {
      var before := steps[..|steps| - 1];
      StatusIffRecordedInTime(before, l);
      StatusStep(Run(before), Last(steps), l, Consumer);
      RecordedEarlierOrNow(steps, l);
    }
  }

  lemma AtMostOneStatus(steps: seq<Step>, l: LayerId)
    requires Possible(steps)
    ensures SideOf(Run(steps), l).layer.span.statusEvents <= 1
  {
    hide Run, Possible;
    EveryRunKeepsInv(steps);
  }

  lemma NoStatusYet(l: LayerId)
    ensures SideOf(Init(), l).layer.span.statusEvents == 0 && !RecordedInTime([], l)
  {
  }

  // ----- when the RPC is over in time ----------------------------------------

  predicate BeforeStatus(x: Side) {
    !x.layer.finished && x.pc in {Idle, Due, Status}
  }

  /** The RPC is over, and the consumer cannot pass the status by. */
  predicate OverInTime(s: State, l: LayerId) {
    !s.active && (BeforeStatus(SideOf(s, l)) || SideOf(s, l).layer.statusRecorded)
  }

  lemma AdvanceRecords(x: Side, failing: bool, wraps: bool)
    requires BeforeStatus(x) || x.layer.statusRecorded
    ensures
      var y := Advance(x, false, failing, wraps);
      BeforeStatus(y) || y.layer.statusRecorded
  {
  }

  lemma CallbackRecords(x: Side)
    requires BeforeStatus(x) || x.layer.statusRecorded
    ensures
      var y := RunCallback(x, false);
      BeforeStatus(y) || y.layer.statusRecorded
  {
  }

  lemma StepKeepsOver(s: State, step: Step, l: LayerId)
    requires Inv(s) && Enabled(s, step) && OverInTime(s, l)
    ensures OverInTime(Apply(s, step), l)
  {
    hide Advance, RunCallback, SpanInv, StatusInv;
    if step == Go(l) {
      AdvanceRecords(SideOf(s, l), s.failing, l.Outer?);
      GoAdvances(s, l);
    } else if step == CallBack(l) {
      CallbackRecords(SideOf(s, l));
    } else {
      OtherStatus(s, step, l);
      OtherFinish(s, step, l);
    }
  }

  lemma OtherFinish(s: State, step: Step, l: LayerId)
    requires Enabled(s, step) && step != Go(l) && step != CallBack(l)
    ensures SideOf(Apply(s, step), l).layer.finished == SideOf(s, l).layer.finished
  {
    hide Advance, RunCallback;
  }

  lemma {:induction false} StaysOver(steps: seq<Step>, more: seq<Step>, l: LayerId)
    requires Possible(steps + more) && OverInTime(Run(steps), l)
    ensures OverInTime(Run(steps + more), l)
  {
    hide Inv, Apply, Enabled, OverInTime;
    if more == [] {
      assert steps + more == steps;
    } else {
      var before := steps + more[..|more| - 1];
      assert (steps + more)[..|steps + more| - 1] == before && Last(steps + more) == Last(more);
      StaysOver(steps, more[..|more| - 1], l);
      EveryRunKeepsInv(before);
      StepKeepsOver(Run(before), Last(more), l);
    }
  }

  predicate EndsNow(s: State, step: Step, l: LayerId) {
    step == Go(l) && SideOf(s, l).pc == Ending && !SideOf(s, l).layer.span.ended
  }

  /** When the RPC was over before the consumer began to finish a layer, its span ends
      with the status event, unless at that moment the callback is between marking the
      status and adding it. Nothing that comes later changes that. */
  lemma StatusWhenOver(steps: seq<Step>, more: seq<Step>, rest: seq<Step>, l: LayerId)
    requires Possible(steps + more + [Go(l)] + rest)
    requires !Run(steps).active && BeforeStatus(SideOf(Run(steps), l))
    requires EndsNow(Run(steps + more), Go(l), l)
    ensures SideOf(Run(steps + more + [Go(l)] + rest), l).layer.span.statusEvents
            == if SideOf(Run(steps + more), l).cb in {CbCode, CbEvent} then 0 else 1
  {
    hide Run, Possible, Apply, Inv;
    var at := steps + more;
    PossiblePrefix(at + [Go(l)], rest);
    PossiblePrefix(at, [Go(l)]);
    StaysOver(steps, more, l);
    EveryRunKeepsInv(at);
    EndKeepsStatus(at, l);
    RecordNeverChanges(at + [Go(l)], rest);
  }

  lemma EndKeepsStatus(at: seq<Step>, l: LayerId)
    requires Possible(at + [Go(l)]) && OverInTime(Run(at), l) && EndsNow(Run(at), Go(l), l)
    ensures
      var x := SideOf(Run(at + [Go(l)]), l);
      && x.layer.span.ended
      && x.layer.span.statusEvents == if SideOf(Run(at), l).cb in {CbCode, CbEvent} then 0 else 1
  {
    hide Inv, Apply, Enabled, OverInTime, EndsNow;
    assert (at + [Go(l)])[..|at|] == at;
    EveryRunKeepsInv(at);
    EndIsCounted(Run(at), l);
  }

  lemma EndIsCounted(s: State, l: LayerId)
    requires Inv(s) && Enabled(s, Go(l)) && OverInTime(s, l) && EndsNow(s, Go(l), l)
    ensures
      var x := SideOf(Apply(s, Go(l)), l);
      && x.layer.span.ended
      && x.layer.span.statusEvents == if SideOf(s, l).cb in {CbCode, CbEvent} then 0 else 1
  {
    GoAdvances(s, l);
    EndingEnds(SideOf(s, l), s.active, s.failing, l.Outer?);
    hide Apply, Enabled, Advance, SpanInv, NestingInv;
  }

  lemma EndingEnds(x: Side, active: bool, failing: bool, wraps: bool)
    requires x.pc == Ending && !x.layer.span.ended
    ensures Advance(x, active, failing, wraps).layer == End(x.layer)
  {
  }

  // ----- runs that record less -----------------------------------------------

  lemma OneMore(steps: seq<Step>, step: Step)
    requires Possible(steps) && Enabled(Run(steps), step)
    ensures Possible(steps + [step]) && Run(steps + [step]) == Apply(Run(steps), step)
  {
    hide Enabled, Apply;
    assert (steps + [step])[..|steps|] == steps;
  }

  /** The consumer goes on, undisturbed, to the end of what it is doing. */
  lemma RunToRest(steps: seq<Step>) returns (more: seq<Step>)
    requires Possible(steps)
    ensures Possible(steps + more) && Resting(Run(steps + more)) && forall step :: step in more ==> step.Go?
    ensures
      var s, t := Run(steps), Run(steps + more);
      && t.active == s.active && t.dropped == s.dropped && t.delivered == s.delivered && t.late == s.late
      && t.inner.cb == s.inner.cb && t.outer.cb == s.outer.cb
      && (if Resting(s) then more == [] else t.inner.layer.finished && t.outer.layer.finished)
    decreases Work(Run(steps))
  {
    hide Run, Possible, Inv, Apply, Enabled;
    var s := Run(steps);
    more := [];
    assert steps + [] == steps;
    if !Resting(s) {
      EveryRunKeepsInv(steps);
      var go := NextGo(s);
      FinishingEnds(s, go);
      OneMore(steps, go);
      GoKeepsInput(s, go);
      var rest := RunToRest(steps + [go]);
      if rest == [] {
        assert steps + [go] + rest == steps + [go];
      }
      Associates(steps, [go], rest);
      more := [go] + rest;
    }
  }

  lemma NextGo(s: State) returns (go: Step)
    requires !Resting(s)
    ensures go.Go? && Enabled(s, go)
  {
    go := Go(if s.inner.pc != Idle then Inner else Outer);
  }

  lemma GoKeepsInput(s: State, go: Step)
    requires go.Go? && Enabled(s, go)
    ensures
      var t := Apply(s, go);
      && t.active == s.active && t.dropped == s.dropped && t.delivered == s.delivered && t.late == s.late
      && t.inner.cb == s.inner.cb && t.outer.cb == s.outer.cb
  {
  }

  lemma {:induction false} NoStatusWhileActive(steps: seq<Step>, l: LayerId)
    requires Possible(steps) && Run(steps).active
    ensures !SideOf(Run(steps), l).layer.statusRecorded && SideOf(Run(steps), l).layer.span.statusEvents == 0
  {
    hide Inv, Apply, Enabled;
    AtMostOneStatus(steps, l);
    if steps == [] {
      NoStatusYet(l);
    } else {
      var before := steps[..|steps| - 1];
      ActiveBefore(Run(before), Last(steps), l);
      NoStatusWhileActive(before, l);
      EveryRunKeepsInv(steps);
      UnrecordedMeansNone(Run(steps), l);
    }
  }

  lemma ActiveBefore(s: State, step: Step, l: LayerId)
    requires Enabled(s, step) && Apply(s, step).active
    ensures s.active
    ensures SideOf(Apply(s, step), l).layer.statusRecorded == SideOf(s, l).layer.statusRecorded
  {
    hide Advance, RunCallback;
    if step == Go(l) {
      ActiveUnmarked(SideOf(s, l), s.failing, l.Outer?);
      GoAdvances(s, l);
    } else if step == CallBack(l) {
      ActiveUnmarked(SideOf(s, l), s.failing, l.Outer?);
    } else {
      OtherStatus(s, step, l);
    }
  }

  lemma ActiveUnmarked(x: Side, failing: bool, wraps: bool)
    ensures Advance(x, true, failing, wraps).layer.statusRecorded == x.layer.statusRecorded
    ensures RunCallback(x, true).layer.statusRecorded == x.layer.statusRecorded
  {
  }

  lemma UnrecordedMeansNone(s: State, l: LayerId)
    requires Inv(s) && !SideOf(s, l).layer.statusRecorded
    ensures SideOf(s, l).layer.span.statusEvents == 0
  {
  }

  /** A consumer that drops the iterator while the RPC runs: both spans are emitted,
      neither has a status event, and no callback has run. */
  lemma DropRecordsNoStatus() returns (steps: seq<Step>)
    ensures Possible(steps) && forall step :: step in steps ==> step.Drop? || step.Go?
    ensures
      var s := Run(steps);
      && s.emitted == [Inner, Outer] && s.active
      && s.inner.layer.span.statusEvents == 0 && s.outer.layer.span.statusEvents == 0
  {
    hide Run, Possible, Apply, Enabled;
    StartsActive();
    OneMore([], Drop);
    assert [] + [Drop] == [Drop];
    var more := RunToRest([Drop]);
    steps := [Drop] + more;
    EmittedOnceInOrder(steps);
    NoStatusWhileActive(steps, Inner);
    NoStatusWhileActive(steps, Outer);
  }

  /** The RPC is over and the callback of the outer layer has marked the status; the
      consumer drops the iterator and is done before it adds the event. Both spans are
      emitted, the outer one without it, and the callback then adds none. */
  lemma CallbackOvertaken() returns (steps: seq<Step>)
    ensures Possible(steps)
    ensures
      var s := Run(steps);
      && s.emitted == [Inner, Outer] && s.outer.layer.statusRecorded && s.outer.cb == CbDone
      && s.outer.layer.span.statusEvents == 0
  {
    hide Run, Possible, Apply, Enabled, Inv;
    var start := MarkedThenDropped();
    var more := RunToRest(start);
    var before := start + more;
    EmittedOnceInOrder(before);
    EveryRunKeepsInv(before);
    PendingMeansNone(Run(before));
    CallbackGoesOn(Run(before));
    OneMore(before, CallBack(Outer));
    OneMore(before + [CallBack(Outer)], CallBack(Outer));
    steps := before + [CallBack(Outer)] + [CallBack(Outer)];
    EmittedOnceInOrder(steps);
  }

  lemma MarkedThenDropped() returns (steps: seq<Step>)
    ensures Possible(steps) && !Resting(Run(steps))
    ensures !Run(steps).active && Run(steps).outer.cb == CbCode
  {
    hide Run, Possible;
    StartsActive();
    OneMore([], Over);
    OneMore([] + [Over], CallBack(Outer));
    OneMore([] + [Over] + [CallBack(Outer)], CallBack(Outer));
    OneMore([] + [Over] + [CallBack(Outer)] + [CallBack(Outer)], Drop);
    steps := [] + [Over] + [CallBack(Outer)] + [CallBack(Outer)] + [Drop];
  }

  lemma PendingMeansNone(s: State)
    requires Inv(s) && s.outer.cb == CbCode && s.outer.layer.finished && Resting(s)
    ensures s.outer.layer.statusRecorded && s.outer.layer.span.statusEvents == 0 && s.outer.layer.span.ended
  {
  }

  lemma CallbackGoesOn(s: State)
    requires !s.active && s.outer.cb == CbCode && s.outer.layer.span.ended
    ensures Enabled(s, CallBack(Outer))
    ensures
      var t := Apply(s, CallBack(Outer));
      && Enabled(t, CallBack(Outer))
      && var u := Apply(t, CallBack(Outer));
         && u.outer.cb == CbDone && u.outer.layer == s.outer.layer && u.emitted == s.emitted
  {
  }

  lemma StartsActive()
    ensures Possible([]) && Run([]) == Init() && Enabled(Init(), Drop) && Enabled(Init(), Raise(true, false))
    ensures Init().active && Apply(Init(), Drop).active && !Resting(Apply(Init(), Drop))
    ensures
      var s := Apply(Init(), Raise(true, false));
      !Resting(s) && !s.dropped && s.delivered == 0 && s.late == 0
  {
  }

  /** A message delivered after an exception in `next()` that did not end the RPC:
      the span says 0 responses, and 1 was delivered. */
  lemma LateMessageIsNotCounted() returns (steps: seq<Step>)
    ensures Possible(steps) && Outer in Run(steps).emitted
    ensures Run(steps).outer.layer.span.responseCount == Some(0) && Run(steps).delivered == 1
  {
    hide Run, Possible, Apply, Enabled;
    var fail := Raise(true, false);
    StartsActive();
    OneMore([], fail);
    assert [] + [fail] == [fail];
    var more := RunToRest([fail]);
    var before := [fail] + more;
    EmittedOnceInOrder(before);
    EveryRunKeepsInv(before);
    DeliversLate(Run(before));
    OneMore(before, Deliver);
    steps := before + [Deliver];
    CountIsDelivered(steps);
    EmittedOnceInOrder(steps);
  }

  lemma DeliversLate(s: State)
    requires Inv(s) && Resting(s) && !s.dropped && s.outer.layer.finished
    ensures Enabled(s, Deliver)
    ensures
      var t := Apply(s, Deliver);
      && t.delivered == s.delivered + 1 && t.late == s.late + 1 && t.outer.layer.span.ended && t.emitted == s.emitted
  {
  }

  // ----- waiting for spans to end --------------------------------------------

  type SpanId = nat

  datatype Change = Tracked(id: SpanId, name: string) | Untracked(id: SpanId)

  /** One look at the spans in flight: what changed since the last, and the clock. */
  datatype Look = Look(changes: seq<Change>, now: real)

  function After(m: map<SpanId, string>, changes: seq<Change>): map<SpanId, string> {
    if changes == [] then m
    else
      var before := After(m, changes[..|changes| - 1]);
      match Last(changes)
      case Tracked(id, name) => before[id := name]
      case Untracked(id) => before - {id}
  }

  function AfterLooks(m: map<SpanId, string>, looks: seq<Look>): map<SpanId, string> {
    if looks == [] then m else After(AfterLooks(m, looks[..|looks| - 1]), Last(looks).changes)
  }

  ghost predicate Quiet(m: map<SpanId, string>, prefix: string) {
    forall id :: id in m ==> !(prefix <= m[id])
  }

  /** The n-th look finds something in flight before the deadline. */
  ghost predicate LooksAgain(m: map<SpanId, string>, looks: seq<Look>, n: int, prefix: string, deadline: real) {
    0 < n <= |looks| && !Quiet(AfterLooks(m, looks[..n]), prefix) && looks[n - 1].now < deadline
  }

  class Recorder {
    var inflight: map<SpanId, string>

    constructor ()
      ensures inflight == map[]
    {
      inflight := map[];
    }

    method Track(id: SpanId, name: string)
      modifies this
      ensures inflight == old(inflight)[id := name]
    {
      inflight := inflight[id := name];
    }

    /** Waiters are woken the one time the span leaves. */
    method Untrack(id: SpanId) returns (notified: bool)
      modifies this
      ensures inflight == old(inflight) - {id} && notified == (id in old(inflight))
    {
      notified := id in inflight;
      inflight := inflight - {id};
    }

    method Meanwhile(changes: seq<Change>)
      modifies this
      ensures inflight == After(old(inflight), changes)
    {
      for i := 0 to |changes|
        invariant inflight == After(old(inflight), changes[..i])
      {
        assert changes[..i + 1][..i] == changes[..i];
        match changes[i] {
          case Tracked(id, name) => Track(id, name);
          case Untracked(id) => var _ := Untrack(id);
        }
      }
      assert changes[..|changes|] == changes;
    }

    method AnyInFlight(prefix: string) returns (busy: bool)
      ensures busy <==> !Quiet(inflight, prefix)
    {
      var todo := inflight.Keys;
      while todo != {}
        invariant todo <= inflight.Keys
        invariant forall id :: id in inflight.Keys - todo ==> !(prefix <= inflight[id])
        decreases todo
      {
        var id :| id in todo;
        if prefix <= inflight[id] {
          return true;
        }
        todo := todo - {id};
      }
      busy := false;
    }

    /** Looks until nothing named `prefix*` is in flight, or the deadline has
        passed; None while it is still waiting after all of `looks`. True is only
        answered at a moment when nothing is in flight, even past the deadline. */
    method WaitIdle(prefix: string, deadline: real, looks: seq<Look>) returns (idle: Option<bool>, used: nat)
      modifies this
      ensures used <= |looks| && inflight == AfterLooks(old(inflight), looks[..used])
      ensures idle.Some? ==> used > 0
      ensures idle == Some(true) ==> forall id :: id in inflight ==> !(prefix <= inflight[id])
      ensures idle == Some(false) ==>
                (exists id :: id in inflight && prefix <= inflight[id]) && looks[used - 1].now >= deadline
      ensures forall n :: 0 < n < used ==> LooksAgain(old(inflight), looks, n, prefix, deadline)
      ensures idle.None? ==> used == |looks| && (used > 0 ==> LooksAgain(old(inflight), looks, used, prefix, deadline))
    {
      hide After;
      used := 0;
      while used < |looks|
        invariant used <= |looks| && inflight == AfterLooks(old(inflight), looks[..used])
        invariant forall n :: 0 < n <= used ==> LooksAgain(old(inflight), looks, n, prefix, deadline)
      {
        assert looks[..used + 1][..used] == looks[..used];
        Meanwhile(looks[used].changes);
        used := used + 1;
        var busy := AnyInFlight(prefix);
        if !busy {
          return Some(true), used;
        }
        if looks[used - 1].now >= deadline {
          return Some(false), used;
        }
      }
      idle := None;
    }
  }
}

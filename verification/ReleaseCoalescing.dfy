/** Coalescing of the ReleaseExecute(until) RPCs of one result iterator.

    The consuming thread posts the id of every response it takes; a drain on the
    release pool sends the latest posted id until none is left. `ReleaseState`
    holds the two fields guarded by the iterator's lock, with one method per
    locked region. The state machine below interleaves those regions, written
    with the same functions, with everything else the two threads do.
 */
module ReleaseCoalescing {
  import opened Prelude

  type Id = string

  /** The fields guarded by the lock. */
  datatype Shared = Shared(next: Option<Id>, busy: bool)

  function Posted(sh: Shared, id: Id): Shared {
    Shared(Some(id), true)
  }

  /** A drain's locked region: what it takes, and the fields afterwards. */
  function Taken(sh: Shared, complete: bool): (Option<Id>, Shared) {
    if sh.next.None? || complete then (None, Shared(None, false))
    else (sh.next, Shared(None, sh.busy))
  }

  datatype Submit = Accepted | Refused

  class ReleaseState {
    var nextId: Option<Id>
    var busy: bool

    function View(): Shared
      reads this
    {
      Shared(nextId, busy)
    }

    constructor ()
      ensures View() == Shared(None, false)
    {
      nextId, busy := None, false;
    }

    method Post(id: Id) returns (schedule: bool)
      modifies this
      ensures View() == Posted(old(View()), id)
      ensures schedule == !old(busy)
    {
      nextId := Some(id);
      if busy {
        return false;
      }
      busy := true;
      schedule := true;
    }

    method Take(complete: bool) returns (until: Option<Id>)
      modifies this
      ensures (until, View()) == Taken(old(View()), complete)
    {
      until, nextId := nextId, None;
      if until.None? || complete {
        busy := false;
        until := None;
      }
    }

    /** What the consuming thread does for one response, when the drain it may
        have to schedule is accepted by the pool or not. */
    method ReleaseUntil(id: Id, complete: bool, submit: Submit) returns (queued: bool)
      modifies this
      ensures complete ==> View() == old(View()) && !queued
      ensures !complete ==> nextId == Some(id)
      ensures !complete && old(busy) ==> busy && !queued
      ensures !complete && !old(busy) ==> busy == queued && queued == submit.Accepted?
    {
      if complete {
        return false;
      }
      var schedule := Post(id);
      if !schedule {
        return false;
      }
      if submit.Accepted? {
        return true;
      }
      busy := false;
      queued := false;
    }

    /** The consumer posts these while a drain is on. */
    method PostAll(ids: seq<Id>)
      requires busy
      modifies this
      ensures busy && nextId == if ids == [] then old(nextId) else Some(Last(ids))
    {
      for i := 0 to |ids|
        invariant busy && nextId == if i == 0 then old(nextId) else Some(ids[i - 1])
      {
        var schedule := Post(ids[i]);
      }
    }

    /** The drain loop. While its k-th RPC is in flight the consumer posts
        `arrivals[k]`; `_result_complete` is seen from the `completeAt`-th take on. */
    method DrainReleases(arrivals: seq<seq<Id>>, completeAt: nat) returns (sent: seq<Id>)
      requires busy
      modifies this
      ensures View() == Shared(None, false)
      ensures sent == Batches(old(nextId), arrivals, completeAt)
    {
      hide Batches;
      sent := [];
      var k := 0;
      while true
        invariant busy && k <= completeAt
        invariant sent + Batches(nextId, From(arrivals, k), completeAt - k)
                  == Batches(old(nextId), arrivals, completeAt)
        invariant k > |arrivals| ==> nextId.None?
        decreases |arrivals| + 1 - k
      {
        BatchesNext(nextId, arrivals, k, completeAt - k);
        var until := Take(k == completeAt);
        if until.None? {
          return;
        }
        var batch := if k < |arrivals| then arrivals[k] else [];
        ghost var next := if batch == [] then None else Some(Last(batch));
        Associates(sent, [until.value], Batches(next, From(arrivals, k + 1), completeAt - k - 1));
        sent := sent + [until.value];
        PostAll(batch);
        k := k + 1;
      }
    }
  }

  function From(arrivals: seq<seq<Id>>, k: nat): seq<seq<Id>> {
    if k <= |arrivals| then arrivals[k..] else []
  }

  /** One round of a drain: nothing when there is nothing to take, and otherwise
      the pending id and then the rounds after it. */
  lemma BatchesNext(next: Option<Id>, arrivals: seq<seq<Id>>, k: nat, left: nat)
    ensures From(arrivals, 0) == arrivals
    ensures
      var batch := if k < |arrivals| then arrivals[k] else [];
      Batches(next, From(arrivals, k), left)
      == if next.None? || left == 0 then []
         else [next.value] + Batches(if batch == [] then None else Some(Last(batch)), From(arrivals, k + 1), left - 1)
  {
    if k < |arrivals| {
      assert arrivals[k..][1..] == arrivals[k + 1..];
    }
  }

  /** The ids a drain sends: the pending one, then the last of every batch that
      arrived during the previous RPC, up to the first empty batch. */
  ghost function Batches(next: Option<Id>, arrivals: seq<seq<Id>>, completeAt: nat): seq<Id>
    decreases |arrivals|, if next.Some? then 1 else 0
  {
    if next.None? || completeAt == 0 then []
    else if arrivals == [] || arrivals[0] == [] then [next.value]
    else [next.value] + Batches(Some(Last(arrivals[0])), arrivals[1..], completeAt - 1)
  }

  // ----- interleavings -------------------------------------------------------

  /** Where the consuming thread is in `_release_until`. */
  datatype Consumer = Idle | Submitting | SubmitRefused

  /** A drain on the pool: waiting to take (queued, or back from an RPC), or with
      its RPC in flight, which the server may already have applied. */
  datatype Drain = Ready | Sending(id: Id, applied: bool)

  datatype State = State(
    sh: Shared,
    complete: bool,
    consumer: Consumer,
    drains: seq<Drain>,
    lastSubmitRefused: bool,
    passed: seq<Id>,     // the ids posted, in order
    sent: seq<Id>,       // the ids of the RPCs started, in order
    takenAt: seq<nat>,   // how many ids had been posted when each was taken
    rpcsApplied: bool,   // every finished RPC was applied by the server
    released: nat        // how many responses the server has dropped
  )

  datatype Step =
    | Call(id: Id)                     // _release_until up to the locked region
    | SubmitAccepted
    | SubmitFails
    | ClearBusy
    | Complete                         // _result_complete is set
    | Take(drain: nat)
    | Attempt(drain: nat, ok: bool)    // one try of the RPC
    | Return(drain: nat)               // the RPC ends, successfully or not

  const Start := State(Shared(None, false), false, Idle, [], false, [], [], [], true, 0)

  predicate Enabled(s: State, step: Step) {
    match step
    case Call(_) => s.consumer.Idle?
    case Complete => s.consumer.Idle?
    case SubmitAccepted => s.consumer.Submitting?
    case SubmitFails => s.consumer.Submitting?
    case ClearBusy => s.consumer.SubmitRefused?
    case Take(k) => k < |s.drains| && s.drains[k].Ready?
    case Attempt(k, _) => k < |s.drains| && s.drains[k].Sending?
    case Return(k) => k < |s.drains| && s.drains[k].Sending?
  }

  /** `stream` lists the responses the server buffers, in order. */
  function Apply(stream: seq<Id>, s: State, step: Step): State
    requires Enabled(s, step)
  {
    match step
    case Call(id) =>
      if s.complete then s
      else s.(sh := Posted(s.sh, id), passed := s.passed + [id],
              consumer := if s.sh.busy then Idle else Submitting)
    case Complete => s.(complete := true)
    case SubmitAccepted =>
      s.(consumer := Idle, drains := s.drains + [Ready], lastSubmitRefused := false)
    case SubmitFails => s.(consumer := SubmitRefused, lastSubmitRefused := true)
    case ClearBusy => s.(consumer := Idle, sh := s.sh.(busy := false))
    case Take(k) =>
      var (until, sh) := Taken(s.sh, s.complete);
      if until.None? then s.(sh := sh, drains := s.drains[..k] + s.drains[k + 1..])
      else s.(sh := sh, drains := s.drains[k := Sending(until.value, false)],
              sent := s.sent + [until.value], takenAt := s.takenAt + [|s.passed|])
    case Attempt(k, ok) =>
      if !ok then s
      else s.(drains := s.drains[k := Sending(s.drains[k].id, true)],
              released := ReleaseOne(stream, s.released, s.drains[k].id))
    case Return(k) =>
      s.(drains := s.drains[k := Ready], rpcsApplied := s.rpcsApplied && s.drains[k].applied)
  }

  ghost predicate Reaches(stream: seq<Id>, steps: seq<Step>, s: State) {
    if steps == [] then s == Start
    else exists r :: Reaches(stream, steps[..|steps| - 1], r) && Enabled(r, Last(steps))
                     && s == Apply(stream, r, Last(steps))
  }

  // ----- the server ----------------------------------------------------------

  /** Position just after `id` in the stream (0 when it is not there). */
  function After(stream: seq<Id>, id: Id): nat
    ensures id in stream ==> 0 < After(stream, id) <= |stream| && stream[After(stream, id) - 1] == id
  {
    if stream == [] then 0
    else if Last(stream) == id then |stream|
    else After(stream[..|stream| - 1], id)
  }

  /** ReleaseExecute(until id): every response up to `id` is dropped. */
  function ReleaseOne(stream: seq<Id>, released: nat, id: Id): nat {
    Max(released, After(stream, id))
  }

  /** The release point after one RPC per id, in order. */
  function ReleaseEach(stream: seq<Id>, ids: seq<Id>): nat {
    if ids == [] then 0
    else ReleaseOne(stream, ReleaseEach(stream, ids[..|ids| - 1]), Last(ids))
  }

  /** The iterator takes responses in stream order. */
  ghost predicate InStreamOrder(stream: seq<Id>, ids: seq<Id>) {
    forall i, j :: 0 <= i <= j < |ids| ==> After(stream, ids[i]) <= After(stream, ids[j])
  }

  // ----- invariant -----------------------------------------------------------

  function Busy(s: State): nat {
    |s.drains| + if s.consumer.Idle? then 0 else 1
  }

  /** `sent` is a subsequence of `passed`, at the positions `takenAt`: every id
      sent was the latest one posted when it was taken. */
  ghost predicate LatestWhenTaken(passed: seq<Id>, sent: seq<Id>, takenAt: seq<nat>) {
    && |sent| == |takenAt|
    && (forall i :: 0 <= i < |sent| ==> 0 < takenAt[i] <= |passed| && sent[i] == passed[takenAt[i] - 1])
    && (forall i, j :: 0 <= i < j < |takenAt| ==> takenAt[i] < takenAt[j])
  }

  lemma TakeAppends(passed: seq<Id>, sent: seq<Id>, takenAt: seq<nat>)
    requires LatestWhenTaken(passed, sent, takenAt) && passed != []
    requires takenAt != [] ==> Last(takenAt) < |passed|
    ensures LatestWhenTaken(passed, sent + [Last(passed)], takenAt + [|passed|])
  {
  }

  ghost predicate PendingIsLatest(s: State) {
    && (s.sh.next.Some? ==> s.passed != [] && s.sh.next.value == Last(s.passed))
    && (s.sh.next.Some? && s.takenAt != [] ==> Last(s.takenAt) < |s.passed|)
    && (s.sh.next.None? && s.passed != [] && !s.complete ==> s.takenAt != [] && Last(s.takenAt) == |s.passed|)
  }

  ghost predicate LockProtocol(s: State) {
    && Busy(s) == (if s.sh.busy then 1 else 0)
    && (!s.consumer.Idle? ==> s.sh.next.Some?)
    && (s.sh.next.Some? && !s.sh.busy ==> s.lastSubmitRefused)
    && (s.lastSubmitRefused && s.consumer.Idle? ==> s.sh.next.Some? && !s.sh.busy)
    && (s.consumer.SubmitRefused? ==> s.lastSubmitRefused)
  }

  ghost predicate ServerTracks(stream: seq<Id>, s: State) {
    && (forall k :: 0 <= k < |s.drains| && s.drains[k].Sending? ==>
          s.sent != [] && s.drains[k].id == Last(s.sent)
          && (s.drains[k].applied ==> After(stream, Last(s.sent)) <= s.released))
    && s.released <= ReleaseEach(stream, s.passed)
    && (s.rpcsApplied ==> forall i :: 0 <= i < |s.sent| - (if InFlight(s) then 1 else 0) ==>
          After(stream, s.sent[i]) <= s.released)
  }

  predicate InFlight(s: State) {
    exists k :: 0 <= k < |s.drains| && s.drains[k].Sending?
  }

  ghost predicate Inv(stream: seq<Id>, s: State) {
    LatestWhenTaken(s.passed, s.sent, s.takenAt) && PendingIsLatest(s) && LockProtocol(s) && ServerTracks(stream, s)
  }

  lemma {:induction false} EachBounds(stream: seq<Id>, ids: seq<Id>, k: nat)
    requires k < |ids|
    ensures After(stream, ids[k]) <= ReleaseEach(stream, ids)
  {
    if k < |ids| - 1 {
      EachBounds(stream, ids[..|ids| - 1], k);
    }
  }

  lemma {:induction false} EachInOrder(stream: seq<Id>, ids: seq<Id>)
    requires ids != [] && InStreamOrder(stream, ids)
    ensures ReleaseEach(stream, ids) == After(stream, Last(ids))
  {
    var init := ids[..|ids| - 1];
    if init != [] {
      EachInOrder(stream, init);
      assert After(stream, Last(init)) <= After(stream, Last(ids));
    }
  }

  lemma StepKeepsLock(stream: seq<Id>, s: State, step: Step)
    requires Inv(stream, s) && Enabled(s, step)
    ensures LockProtocol(Apply(stream, s, step))
  {
  }

  lemma StepKeepsOrder(stream: seq<Id>, s: State, step: Step)
    requires Inv(stream, s) && Enabled(s, step)
    ensures var t := Apply(stream, s, step); LatestWhenTaken(t.passed, t.sent, t.takenAt)
  {
    if step.Take? {
      var t := Apply(stream, s, step);
      if t.sent != s.sent {
        TakeAppends(s.passed, s.sent, s.takenAt);
      }
    }
  }

  lemma StepKeepsPending(stream: seq<Id>, s: State, step: Step)
    requires Inv(stream, s) && Enabled(s, step)
    ensures PendingIsLatest(Apply(stream, s, step))
  {
  }

  lemma PostKeepsServer(stream: seq<Id>, s: State, id: Id)
    requires Inv(stream, s) && Enabled(s, Call(id))
    ensures ServerTracks(stream, Apply(stream, s, Call(id)))
  {
    var t := Apply(stream, s, Call(id));
    assert InFlight(t) == InFlight(s);
    if !s.complete {
      assert t.passed[..|t.passed| - 1] == s.passed;
    }
  }

  lemma TakeKeepsServer(stream: seq<Id>, s: State, k: nat)
    requires Inv(stream, s) && Enabled(s, Take(k))
    ensures ServerTracks(stream, Apply(stream, s, Take(k)))
  {
    var t := Apply(stream, s, Take(k));
    assert |s.drains| == 1 && !InFlight(s);
    if t.drains != [] {
      assert t.drains[0].Sending? && InFlight(t);
    }
  }

  lemma AttemptKeepsServer(stream: seq<Id>, s: State, k: nat, ok: bool)
    requires Inv(stream, s) && Enabled(s, Attempt(k, ok))
    ensures ServerTracks(stream, Apply(stream, s, Attempt(k, ok)))
  {
    var t := Apply(stream, s, Attempt(k, ok));
    EachBounds(stream, s.passed, Last(s.takenAt) - 1);
    assert |s.drains| == 1 && InFlight(s);
    assert t.drains[0].Sending? && InFlight(t);
  }

  lemma ReturnKeepsServer(stream: seq<Id>, s: State, k: nat)
    requires Inv(stream, s) && Enabled(s, Return(k))
    ensures ServerTracks(stream, Apply(stream, s, Return(k)))
  {
    var t := Apply(stream, s, Return(k));
    assert |s.drains| == 1 && InFlight(s);
    assert t.drains == [Ready] && !InFlight(t);
  }

  lemma StepKeepsServer(stream: seq<Id>, s: State, step: Step)
    requires Inv(stream, s) && Enabled(s, step)
    ensures ServerTracks(stream, Apply(stream, s, step))
  {
    match step {
      case Call(id) => PostKeepsServer(stream, s, id);
      case Take(k) => TakeKeepsServer(stream, s, k);
      case Attempt(k, ok) => AttemptKeepsServer(stream, s, k, ok);
      case Return(k) => ReturnKeepsServer(stream, s, k);
      case SubmitAccepted => assert s.drains == [] && !InFlight(Apply(stream, s, step));
      case _ =>
    }
  }

  lemma {:induction false} EveryRunKeepsInv(stream: seq<Id>, steps: seq<Step>, s: State)
    requires Reaches(stream, steps, s)
    ensures Inv(stream, s)
  {
    if steps != [] {
      var r :| Reaches(stream, steps[..|steps| - 1], r) && Enabled(r, Last(steps))
               && s == Apply(stream, r, Last(steps));
      EveryRunKeepsInv(stream, steps[..|steps| - 1], r);
      StepKeepsLock(stream, r, Last(steps));
      StepKeepsOrder(stream, r, Last(steps));
      StepKeepsPending(stream, r, Last(steps));
      StepKeepsServer(stream, r, Last(steps));
    }
  }

  // ----- main results --------------------------------------------------------

  predicate Quiescent(s: State) {
    s.consumer.Idle? && s.drains == []
  }

  /** At most one drain is queued or running, and `busy` says exactly whether
      one is or the consumer is about to schedule one. */
  lemma {:induction false} OneDrain(stream: seq<Id>, steps: seq<Step>, s: State)
    requires Reaches(stream, steps, s)
    ensures |s.drains| <= 1 && s.sh.busy == (s.drains != [] || !s.consumer.Idle?)
    ensures s.drains != [] ==> s.consumer.Idle?
    ensures LatestWhenTaken(s.passed, s.sent, s.takenAt)
  {
    EveryRunKeepsInv(stream, steps, s);
  }

  /** Once both threads are idle, the last id posted is the last id sent unless
      the pool refused the last drain; then it stays pending, and `busy` is off. */
  lemma {:induction false} NoReleaseLost(stream: seq<Id>, steps: seq<Step>, s: State)
    requires Reaches(stream, steps, s)
    requires Quiescent(s) && !s.complete && s.passed != []
    ensures !s.sh.busy
    ensures !s.lastSubmitRefused ==> s.sh.next.None? && s.sent != [] && Last(s.sent) == Last(s.passed)
    ensures s.lastSubmitRefused ==> s.sh.next == Some(Last(s.passed))
  {
    EveryRunKeepsInv(stream, steps, s);
  }

  /** Coalescing never releases past what one RPC per response would, and it
      ends at the same point when the RPCs succeed. */
  lemma {:induction false} CoalescedEqualsOnePerResponse(stream: seq<Id>, steps: seq<Step>, s: State)
    requires Reaches(stream, steps, s)
    ensures s.released <= ReleaseEach(stream, s.passed)
    ensures Quiescent(s) && !s.complete && !s.lastSubmitRefused && s.rpcsApplied && InStreamOrder(stream, s.passed)
            ==> s.released == ReleaseEach(stream, s.passed)
  {
    EveryRunKeepsInv(stream, steps, s);
    if && Quiescent(s) && !s.complete && !s.lastSubmitRefused && s.rpcsApplied
       && InStreamOrder(stream, s.passed) && s.passed != [] {
      EachInOrder(stream, s.passed);
      assert !InFlight(s);
    }
  }

  lemma {:induction false} OneState(stream: seq<Id>, steps: seq<Step>, s: State, t: State)
    requires Reaches(stream, steps, s) && Reaches(stream, steps, t)
    ensures s == t
  {
    if steps != [] {
      var init := steps[..|steps| - 1];
      var r :| Reaches(stream, init, r) && Enabled(r, Last(steps)) && s == Apply(stream, r, Last(steps));
      var q :| Reaches(stream, init, q) && Enabled(q, Last(steps)) && t == Apply(stream, q, Last(steps));
      OneState(stream, init, r, q);
    }
  }

  /** Once the result is complete no release RPC is started any more, and responses
      are passed over. */
  lemma {:induction false} NothingSentAfterComplete(stream: seq<Id>, steps: seq<Step>, more: seq<Step>,
                                                    s: State, t: State)
    requires Reaches(stream, steps, s) && s.complete && Reaches(stream, steps + more, t)
    ensures t.complete && t.sent == s.sent && t.passed == s.passed
  {
    if more == [] {
      assert steps + more == steps;
      OneState(stream, steps, s, t);
    } else {
      var init := more[..|more| - 1];
      assert (steps + more)[..|steps + more| - 1] == steps + init && Last(steps + more) == Last(more);
      var r :| Reaches(stream, steps + init, r) && Enabled(r, Last(more)) && t == Apply(stream, r, Last(more));
      NothingSentAfterComplete(stream, steps, init, s, r);
    }
  }

  /** How much is left to do before both threads are idle. */
  function Remaining(s: State): nat {
    (match s.consumer case Idle => 0 case Submitting => 10 case SubmitRefused => 1)
    + (if s.drains == [] then 0 else if s.drains[0].Ready? then 1 else 2)
    + (if s.drains != [] && s.sh.next.Some? then 2 else 0)
  }

  predicate Internal(step: Step) {
    !step.Call? && !step.Complete? && !step.Attempt?
  }

  lemma StepProgresses(stream: seq<Id>, s: State, step: Step)
    requires Inv(stream, s) && Internal(step) && Enabled(s, step)
    ensures Remaining(Apply(stream, s, step)) < Remaining(s)
  {
    assert |s.drains| <= 1;
    match step {
      case Take(k) =>
        assert k == 0;
        if s.sh.next.None? || s.complete {
          assert Apply(stream, s, step).drains == [];
        }
      case _ =>
    }
  }

  /** No deadlock and no endless drain: short of new responses, some step is
      always possible until both threads are idle, and every one makes progress. */
  lemma {:induction false} DrainsFinish(stream: seq<Id>, steps: seq<Step>, s: State)
    requires Reaches(stream, steps, s)
    ensures !Quiescent(s) ==> exists step :: Internal(step) && Enabled(s, step)
    ensures forall step :: Internal(step) && Enabled(s, step) ==> Remaining(Apply(stream, s, step)) < Remaining(s)
  {
    EveryRunKeepsInv(stream, steps, s);
    if s.consumer.Submitting? {
      assert Enabled(s, SubmitAccepted);
    } else if s.consumer.SubmitRefused? {
      assert Enabled(s, ClearBusy);
    } else if s.drains != [] {
      assert Enabled(s, if s.drains[0].Ready? then Take(0) else Return(0));
    }
    forall step | Internal(step) && Enabled(s, step)
      ensures Remaining(Apply(stream, s, step)) < Remaining(s)
    {
      StepProgresses(stream, s, step);
    }
  }
}

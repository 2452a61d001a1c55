/** One forwarding direction of the proxy: bytes move from one socket to the
    other, and the connection is cut when the server stays silent too long while
    a result-stream consumer waits.

    Sockets and clocks are scripts. Each `Turn` is one receive: what the waiting
    consumers did before it returned, when and with what it returned, and how the
    other socket answers the sends of that frame. A script that runs out is a
    thread still blocked in that call, so every prefix of a run is covered.
 */
module Forwarding {
  import opened Prelude

  type Bytes = seq<bv8>

  const SEND_ATTEMPTS := 10
  const WS_RECV_TIMEOUT_S := 60.0

  datatype SendOutcome = Took(count: nat) | SendTimesOut | SendFails

  datatype RecvOutcome = Received(bytes: Bytes) | RecvTimesOut | RecvFails

  datatype WaitOp = Begin(at: real) | End(token: nat)

  datatype Turn = Turn(waitOps: seq<WaitOp>, at: real, recv: RecvOutcome, sends: seq<SendOutcome>)

  datatype Ending =
    | Receiving        // the script ran out in recv
    | StillSending     // the script ran out in send
    | EndOfFile
    | RecvError
    | SendTimeout
    | SendError
    | SilenceCut

  class Socket {
    var accepted: Bytes   // what its send has taken, in order
    var closed: bool

    constructor ()
      ensures accepted == [] && !closed
    {
      accepted, closed := [], false;
    }

  }

  method ShutdownAndClose(first: Socket, second: Socket)
    modifies first`closed, second`closed
    ensures first.closed && second.closed
  {
    first.closed := true;
    second.closed := true;
  }

  class DirectionStats {
    var bytes: nat
    var frames: nat

    constructor ()
      ensures bytes == 0 && frames == 0
    {
      bytes, frames := 0, 0;
    }
  }

  // ----- sending one frame ---------------------------------------------------

  /** Bytes taken by these sends of a frame of `len` bytes. */
  function Delivered(sends: seq<SendOutcome>, len: nat): (d: nat)
    ensures d <= len
  {
    if sends == [] then 0
    else Min(len, Delivered(sends[..|sends| - 1], len) + if Last(sends).Took? then Last(sends).count else 0)
  }

  /** Ten timeouts in a row, with no byte taken since they began. */
  ghost predicate TenTimeouts(sends: seq<SendOutcome>) {
    |sends| >= 10 && forall i :: |sends| - 10 <= i < |sends| ==> sends[i].SendTimesOut?
  }

  ghost predicate Refused(sends: seq<SendOutcome>) {
    sends != [] && (Last(sends) == Took(0) || Last(sends).SendFails?)
  }

  /** Whether a frame's sending is over after exactly these sends. */
  ghost predicate SendingOver(sends: seq<SendOutcome>, len: nat) {
    Delivered(sends, len) == len || Refused(sends) || TenTimeouts(sends)
  }

  ghost predicate OngoingBefore(sends: seq<SendOutcome>, n: nat, len: nat)
    requires n <= |sends|
  {
    forall m :: 0 <= m < n ==> !SendingOver(sends[..m], len)
  }

  /** The loop's state after `used` sends, `attempt` of them since the last byte. */
  ghost predicate SendState(frame: Bytes, sends: seq<SendOutcome>, used: nat, done: nat, attempt: nat) {
    && attempt <= SEND_ATTEMPTS && attempt <= used <= |sends|
    && done == Delivered(sends[..used], |frame|)
    && used <= SEND_ATTEMPTS * done + attempt
    && (forall i :: used - attempt <= i < used ==> sends[i].SendTimesOut?)
    && (attempt < used ==> sends[used - attempt - 1].Took?)
    && !Refused(sends[..used])
    && OngoingBefore(sends, used, |frame|)
  }

  lemma TenTimeoutsIffAttempts(frame: Bytes, sends: seq<SendOutcome>, used: nat, done: nat, attempt: nat)
    requires SendState(frame, sends, used, done, attempt)
    ensures TenTimeouts(sends[..used]) <==> attempt == SEND_ATTEMPTS
  {
  }

  lemma OngoingExtends(frame: Bytes, sends: seq<SendOutcome>, used: nat, done: nat, attempt: nat)
    requires SendState(frame, sends, used, done, attempt)
    requires done < |frame| && attempt < SEND_ATTEMPTS && used < |sends|
    ensures OngoingBefore(sends, used + 1, |frame|)
    ensures used < SEND_ATTEMPTS * |frame|
    ensures sends[..used + 1][..used] == sends[..used]
    ensures Delivered(sends[..used + 1], |frame|) ==
            Min(|frame|, done + if sends[used].Took? then sends[used].count else 0)
  {
    TenTimeoutsIffAttempts(frame, sends, used, done, attempt);
    assert sends[..used + 1][..used] == sends[..used];
  }

  /** `SendState`, or the whole frame taken. */
  ghost predicate LoopState(frame: Bytes, sends: seq<SendOutcome>, used: nat, done: nat, attempt: nat) {
    && used <= |sends| && done == Delivered(sends[..used], |frame|)
    && used <= SEND_ATTEMPTS * |frame| && OngoingBefore(sends, used, |frame|)
    && (done < |frame| ==> SendState(frame, sends, used, done, attempt))
  }

  lemma StateAfterSend(frame: Bytes, sends: seq<SendOutcome>, used: nat, done: nat, attempt: nat)
    requires SendState(frame, sends, used, done, attempt)
    requires done < |frame| && attempt < SEND_ATTEMPTS && used < |sends|
    ensures sends[used].SendTimesOut? ==> LoopState(frame, sends, used + 1, done, attempt + 1)
    ensures sends[used].Took? && sends[used].count > 0 ==>
            LoopState(frame, sends, used + 1, Min(|frame|, done + sends[used].count), 0)
    ensures Refused(sends[..used + 1]) ==> FrameOutcome(frame, sends, used + 1, done, Some(SendError))
  {
    OngoingExtends(frame, sends, used, done, attempt);
  }

  /** How the sending of a frame ends, or does not: `done` bytes taken by the first
      `used` sends, none of which but the last could end it. */
  ghost predicate FrameOutcome(frame: Bytes, sends: seq<SendOutcome>, used: nat, done: nat, ending: Option<Ending>) {
    && used <= |sends| && used <= SEND_ATTEMPTS * |frame| && OngoingBefore(sends, used, |frame|)
    && done == Delivered(sends[..used], |frame|)
    && match ending
       case None => done == |frame|
       case Some(SendError) => done < |frame| && Refused(sends[..used])
       case Some(SendTimeout) => done < |frame| && TenTimeouts(sends[..used])
       case Some(StillSending) => !SendingOver(sends[..used], |frame|) && used == |sends|
       case _ => false
  }

  lemma StateAtEnd(frame: Bytes, sends: seq<SendOutcome>, used: nat, done: nat, attempt: nat)
    requires LoopState(frame, sends, used, done, attempt)
    ensures done == |frame| ==> FrameOutcome(frame, sends, used, done, None)
    ensures done < |frame| && attempt == SEND_ATTEMPTS ==> FrameOutcome(frame, sends, used, done, Some(SendTimeout))
    ensures done < |frame| && attempt < SEND_ATTEMPTS && used == |sends| ==>
            FrameOutcome(frame, sends, used, done, Some(StillSending))
  {
    if done < |frame| {
      TenTimeoutsIffAttempts(frame, sends, used, done, attempt);
    }
  }

  /** The send loop of one frame, of which `to` has taken nothing yet. */
  method SendFrame(to: Socket, frame: Bytes, sends: seq<SendOutcome>)
      returns (ending: Option<Ending>, used: nat, ghost done: nat)
    requires frame != []
    modifies to`accepted
    ensures FrameOutcome(frame, sends, used, done, ending)
    ensures to.accepted == old(to.accepted) + frame[..done]
  {
    var bs := frame;
    var attempt := 0;
    used, done := 0, 0;
    hide SendState, OngoingBefore, SendingOver, TenTimeouts;
    while bs != [] && attempt < SEND_ATTEMPTS
      invariant done <= |frame| && bs == frame[done..] && attempt <= SEND_ATTEMPTS
      invariant to.accepted == old(to.accepted) + frame[..done]
      invariant LoopState(frame, sends, used, done, attempt)
      decreases |sends| - used
    {
      StateAtEnd(frame, sends, used, done, attempt);
      if used == |sends| {
        return Some(StillSending), used, done;
      }
      StateAfterSend(frame, sends, used, done, attempt);
      used := used + 1;
      attempt := attempt + 1;
      match sends[used - 1] {
        case Took(count) =>
          if count == 0 {
            return Some(SendError), used, done;
          }
          TakeMore(frame, done, Min(count, |bs|));
          to.accepted := to.accepted + bs[..Min(count, |bs|)];
          done := Min(|frame|, done + count);
          if count < |bs| {
            bs := bs[count..];
            attempt := 0;
          } else {
            bs := [];
          }
        case SendTimesOut =>
        case SendFails =>
          return Some(SendError), used, done;
      }
    }
    StateAtEnd(frame, sends, used, done, attempt);
    ending := if bs != [] then Some(SendTimeout) else None;
  }

  // ----- the wait registry ---------------------------------------------------

  /** Who waits since when; tokens are never reused. */
  datatype Waits = Waits(starts: map<nat, real>, next: nat)

  function AfterOp(w: Waits, op: WaitOp): Waits {
    match op
    case Begin(at) => Waits(w.starts[w.next := at], w.next + 1)
    case End(token) => w.(starts := w.starts - {token})
  }

  function AfterOps(w: Waits, ops: seq<WaitOp>): Waits {
    if ops == [] then w else AfterOp(AfterOps(w, ops[..|ops| - 1]), Last(ops))
  }

  /** Tokens in use are among those handed out. */
  ghost predicate Sound(w: Waits) {
    forall token :: token in w.starts ==> token < w.next
  }

  function Begins(ops: seq<WaitOp>): nat {
    if ops == [] then 0 else Begins(ops[..|ops| - 1]) + if Last(ops).Begin? then 1 else 0
  }

  /** The i-th operation hands out this token. */
  ghost predicate BeginsAt(w: Waits, ops: seq<WaitOp>, i: int, token: nat) {
    0 <= i < |ops| && ops[i].Begin? && token == w.next + Begins(ops[..i])
  }

  /** From the i-th operation on, none ends this wait. */
  ghost predicate NotEnded(ops: seq<WaitOp>, i: int, token: nat) {
    forall j :: 0 <= i <= j < |ops| ==> ops[j] != End(token)
  }

  /** A wait begun before these operations that none of them ended, or by one of them
      and not ended since. */
  ghost predicate CurrentSince(w: Waits, ops: seq<WaitOp>, token: nat, start: real) {
    || (token in w.starts && w.starts[token] == start && NotEnded(ops, 0, token))
    || exists i :: BeginsAt(w, ops, i, token) && ops[i].at == start && NotEnded(ops, i + 1, token)
  }

  lemma {:induction false} NextAfter(w: Waits, ops: seq<WaitOp>)
    requires Sound(w)
    ensures AfterOps(w, ops).next == w.next + Begins(ops) && Sound(AfterOps(w, ops))
  {
    if ops != [] {
      NextAfter(w, ops[..|ops| - 1]);
    }
  }

  lemma CurrentNext(w: Waits, ops: seq<WaitOp>, token: nat, start: real)
    requires ops != []
    ensures
      var init := ops[..|ops| - 1];
      CurrentSince(w, ops, token, start) <==>
        || (CurrentSince(w, init, token, start) && Last(ops) != End(token))
        || (Last(ops) == Begin(start) && token == w.next + Begins(init))
  {
    hide Begins;
    var init := ops[..|ops| - 1];
    forall i | 0 <= i < |init|
      ensures BeginsAt(w, ops, i, token) == BeginsAt(w, init, i, token)
      ensures NotEnded(ops, i + 1, token) <==> NotEnded(init, i + 1, token) && Last(ops) != End(token)
    {
      assert init[..i] == ops[..i] && forall j :: 0 <= j < |init| ==> init[j] == ops[j];
    }
    assert NotEnded(ops, 0, token) <==> NotEnded(init, 0, token) && Last(ops) != End(token);
    if Last(ops) == Begin(start) && token == w.next + Begins(init) {
      assert BeginsAt(w, ops, |init|, token) && NotEnded(ops, |ops|, token);
    }
  }

  /** The waits are those begun and not ended since, each with the time it began: an
      end removes the one wait it names. */
  lemma {:induction false} WaitsAre(w: Waits, ops: seq<WaitOp>, token: nat, start: real)
    requires Sound(w)
    ensures token in AfterOps(w, ops).starts && AfterOps(w, ops).starts[token] == start
            <==> CurrentSince(w, ops, token, start)
  {
    hide CurrentSince, Begins;
    if ops == [] {
      NoOps(w, token, start);
    } else {
      var init := ops[..|ops| - 1];
      WaitsAre(w, init, token, start);
      NextAfter(w, init);
      CurrentNext(w, ops, token, start);
    }
  }

  lemma NoOps(w: Waits, token: nat, start: real)
    ensures CurrentSince(w, [], token, start) <==> token in w.starts && w.starts[token] == start
  {
  }

  ghost predicate IsOldest(starts: map<nat, real>, since: real) {
    && (exists token :: token in starts && starts[token] == since)
    && (forall token :: token in starts ==> since <= starts[token])
  }

  class WaitRegistry {
    var starts: map<nat, real>
    var next: nat

    function View(): Waits
      reads this
    {
      Waits(starts, next)
    }

    constructor ()
      ensures View() == Waits(map[], 0)
    {
      starts, next := map[], 0;
    }

    method BeginWait(now: real) returns (token: nat)
      modifies this
      ensures View() == AfterOp(old(View()), Begin(now)) && token == old(next)
      ensures starts == old(starts)[token := now] && next == old(next) + 1
      ensures Sound(old(View())) ==> Sound(View()) && token !in old(starts)
    {
      token := next;
      starts := starts[token := now];
      next := next + 1;
    }

    method EndWait(token: nat)
      modifies this
      ensures View() == AfterOp(old(View()), End(token))
      ensures forall k :: k in starts <==> k in old(starts) && k != token
      ensures (forall k :: k in starts ==> starts[k] == old(starts)[k]) && next == old(next)
    {
      starts := starts - {token};
    }

    method WaitingSince() returns (since: Option<real>)
      ensures since.None? <==> starts == map[]
      ensures since.Some? ==> IsOldest(starts, since.value)
    {
      since := None;
      var todo := starts.Keys;
      while todo != {}
        invariant todo <= starts.Keys
        invariant since.None? <==> todo == starts.Keys
        invariant since.Some? ==> exists token :: token in starts && starts[token] == since.value
        invariant since.Some? ==> forall token :: token in starts.Keys - todo ==> since.value <= starts[token]
        decreases todo
      {
        var token :| token in todo;
        if since.None? || starts[token] < since.value {
          since := Some(starts[token]);
        }
        todo := todo - {token};
      }
      if starts.Keys == {} {
        assert starts == map[];
      }
    }

    method Apply(ops: seq<WaitOp>)
      modifies this
      ensures View() == AfterOps(old(View()), ops)
    {
      var i := 0;
      while i < |ops|
        invariant 0 <= i <= |ops|
        invariant View() == AfterOps(old(View()), ops[..i])
      {
        assert ops[..i + 1][..i] == ops[..i];
        match ops[i] {
          case Begin(at) => var _ := BeginWait(at);
          case End(token) => EndWait(token);
        }
        i := i + 1;
      }
      assert ops[..i] == ops;
    }
  }

  // ----- the forwarding loop -------------------------------------------------

  /** The direction's fixed data: which one it is, whether its source knows who
      waits, the silence limit, when the loop started and who was waiting then. */
  datatype Setup = Setup(serverToClient: bool, knowsWaits: bool, limit: real, start: real, waits: Waits)

  predicate Armed(setup: Setup) {
    setup.serverToClient && setup.limit > 0.0 && setup.knowsWaits
  }

  function AllReceived(turns: seq<Turn>): Bytes {
    if turns == [] then []
    else AllReceived(turns[..|turns| - 1]) + if Last(turns).recv.Received? then Last(turns).recv.bytes else []
  }

  function FrameCount(turns: seq<Turn>): nat {
    if turns == [] then 0
    else FrameCount(turns[..|turns| - 1]) + if Last(turns).recv.Received? && Last(turns).recv.bytes != [] then 1 else 0
  }

  function MaxReal(a: real, b: real): real {
    if a < b then b else a
  }

  function LastReturn(setup: Setup, turns: seq<Turn>): real {
    if turns == [] then setup.start else Last(turns).at
  }

  function LastRx(setup: Setup, turns: seq<Turn>): real {
    if turns == [] then setup.start
    else if Last(turns).recv.Received? then Last(turns).at
    else LastRx(setup, turns[..|turns| - 1])
  }

  function WaitsAfter(setup: Setup, turns: seq<Turn>): Waits {
    if turns == [] then setup.waits
    else AfterOps(WaitsAfter(setup, turns[..|turns| - 1]), Last(turns).waitOps)
  }

  /** The last receive timed out with some consumer's silence at the limit. */
  ghost predicate Overdue(setup: Setup, turns: seq<Turn>) {
    && Armed(setup) && turns != [] && Last(turns).recv.RecvTimesOut?
    && exists token :: token in WaitsAfter(setup, turns).starts
         && Last(turns).at - MaxReal(LastRx(setup, turns), WaitsAfter(setup, turns).starts[token]) >= setup.limit
  }

  predicate BlockedIn(ending: Ending) {
    ending.Receiving? || ending.StillSending?
  }

  predicate EndsInSend(ending: Ending) {
    ending.StillSending? || ending.SendTimeout? || ending.SendError?
  }

  /** What `to` took of the bytes received: all of them, or all but the rest of
      the last frame when its sending is unfinished. */
  ghost predicate IntactPrefix(turns: seq<Turn>, sent: Bytes, ending: Ending) {
    if EndsInSend(ending) then
      turns != [] && AllReceived(turns[..|turns| - 1]) <= sent && sent < AllReceived(turns)
    else
      sent == AllReceived(turns)
  }

  /** The frames forwarded whole. */
  function Whole(turns: seq<Turn>, ending: Ending): seq<Turn> {
    if EndsInSend(ending) && turns != [] then turns[..|turns| - 1] else turns
  }

  method CheckSilence(setup: Setup, ghost turns: seq<Turn>, now: real, lastRx: real, waits: WaitRegistry)
      returns (cut: bool)
    requires turns != [] && Last(turns).recv.RecvTimesOut? && Last(turns).at == now
    requires waits.View() == WaitsAfter(setup, turns) && lastRx == LastRx(setup, turns)
    ensures cut <==> Overdue(setup, turns)
  {
    if !Armed(setup) {
      return false;
    }
    var since := waits.WaitingSince();
    cut := since.Some? && now - MaxReal(lastRx, since.value) >= setup.limit;
  }

  /** These sends of a frame end in this way, None if with all of it, after `part`. */
  ghost predicate Forwards(frame: Bytes, sends: seq<SendOutcome>, ending: Option<Ending>, part: Bytes) {
    part <= frame && exists used: nat :: FrameOutcome(frame, sends, used, |part|, ending)
  }

  lemma ForwardsPart(frame: Bytes, sends: seq<SendOutcome>, ending: Option<Ending>, part: Bytes)
    requires Forwards(frame, sends, ending, part)
    ensures if ending.None? then part == frame else EndsInSend(ending.value) && part < frame
  {
  }

  lemma OutcomeEnds(frame: Bytes, sends: seq<SendOutcome>, used: nat, done: nat, ending: Option<Ending>)
    requires FrameOutcome(frame, sends, used, done, ending)
    ensures used == |sends| || (used < |sends| && SendingOver(sends[..used], |frame|))
    ensures used <= |sends| && OngoingBefore(sends, used, |frame|)
  {
  }

  /** How a frame ends, and after which part, is up to its sends alone: in SendTimeout
      exactly when ten timeouts in a row come first, and in an error exactly when a
      failing or zero send does. */
  lemma OneOutcome(frame: Bytes, sends: seq<SendOutcome>, ending: Option<Ending>, part: Bytes,
                   other: Option<Ending>, more: Bytes)
    requires Forwards(frame, sends, ending, part) && Forwards(frame, sends, other, more)
    ensures ending == other && part == more
  {
    hide SendingOver, Delivered;
    var m: nat :| FrameOutcome(frame, sends, m, |part|, ending);
    var n: nat :| FrameOutcome(frame, sends, n, |more|, other);
    OutcomeEnds(frame, sends, m, |part|, ending);
    OutcomeEnds(frame, sends, n, |more|, other);
    assert m == n;
    SameOutcome(frame, sends, m, |part|, ending, other);
  }

  /** Sends that take nothing for a while: fewer than ten timeouts and then a send that
      fails or takes none is an error, one that takes the rest is the end of the frame,
      and ten timeouts are one timeout of the frame, whatever would come next. */
  lemma SendsDecide(frame: Bytes, timeouts: nat, rest: seq<SendOutcome>)
    requires frame != [] && rest != []
    ensures
      var sends := seq(timeouts, _ => SendTimesOut) + rest;
      && (timeouts < 10 && (rest[0] == Took(0) || rest[0].SendFails?) ==> Forwards(frame, sends, Some(SendError), []))
      && (timeouts < 10 && rest[0].Took? && rest[0].count >= |frame| ==> Forwards(frame, sends, None, frame))
      && (timeouts >= 10 ==> Forwards(frame, sends, Some(SendTimeout), []))
  {
    var sends, none: Bytes := seq(timeouts, _ => SendTimesOut) + rest, [];
    forall m: nat | m <= timeouts
      ensures Delivered(sends[..m], |frame|) == 0 && !Refused(sends[..m])
      ensures SendingOver(sends[..m], |frame|) <==> m >= 10
    {
      NothingTaken(sends, m, |frame|);
    }
    if timeouts >= 10 {
      assert FrameOutcome(frame, sends, 10, |none|, Some(SendTimeout));
    } else {
      assert sends[..timeouts + 1][..timeouts] == sends[..timeouts];
      if rest[0] == Took(0) || rest[0].SendFails? {
        assert FrameOutcome(frame, sends, timeouts + 1, |none|, Some(SendError));
      } else if rest[0].Took? && rest[0].count >= |frame| {
        assert FrameOutcome(frame, sends, timeouts + 1, |frame|, None);
      }
    }
  }

  lemma {:induction false} NothingTaken(sends: seq<SendOutcome>, m: nat, len: nat)
    requires m <= |sends| && forall i :: 0 <= i < m ==> sends[i].SendTimesOut?
    ensures Delivered(sends[..m], len) == 0
  {
    if m > 0 {
      NothingTaken(sends, m - 1, len);
      assert sends[..m][..m - 1] == sends[..m - 1];
    }
  }

  lemma SameOutcome(frame: Bytes, sends: seq<SendOutcome>, used: nat, done: nat,
                    ending: Option<Ending>, other: Option<Ending>)
    requires FrameOutcome(frame, sends, used, done, ending) && FrameOutcome(frame, sends, used, done, other)
    ensures ending == other
  {
  }

  method ForwardFrame(to: Socket, stats: DirectionStats, frame: Bytes, sends: seq<SendOutcome>)
      returns (failure: Option<Ending>, ghost part: Bytes)
    requires frame != []
    modifies to`accepted, stats
    ensures failure.Some? ==> EndsInSend(failure.value)
    ensures Forwards(frame, sends, failure, part) && (part == frame <==> failure.None?)
    ensures to.accepted == old(to.accepted) + part
    ensures stats.bytes == old(stats.bytes) + (if failure.None? then |frame| else 0)
    ensures stats.frames == old(stats.frames) + (if failure.None? then 1 else 0)
  {
    hide SendingOver, TenTimeouts, OngoingBefore;
    var used;
    ghost var done;
    failure, used, done := SendFrame(to, frame, sends);
    part := frame[..done];
    assert FrameOutcome(frame, sends, used, |part|, failure);
    ForwardsPart(frame, sends, failure, part);
    if failure.None? {
      stats.bytes := stats.bytes + |frame|;
      stats.frames := stats.frames + 1;
    }
  }

  /** The loop went on after every shorter run. */
  ghost predicate RunsOnBefore(setup: Setup, turns: seq<Turn>, n: nat)
    requires n <= |turns|
  {
    forall m :: 0 <= m < n ==> Continues(setup, turns[..m])
  }

  /** The loop between turns: everything received has been forwarded. */
  ghost predicate Flowing(setup: Setup, turns: seq<Turn>, sent: Bytes, bytes: int, frames: int,
                          lastRx: real, waits: Waits) {
    && sent == AllReceived(turns) && bytes == |sent| && frames == FrameCount(turns)
    && waits == WaitsAfter(setup, turns) && lastRx == LastRx(setup, turns)
    && RunsOnBefore(setup, turns, |turns|) && Continues(setup, turns)
  }

  predicate GotFrame(turn: Turn) {
    turn.recv.Received? && turn.recv.bytes != []
  }

  /** What was sent is what came before the last frame, and of that frame what its
      sends take until they end in this way. */
  ghost predicate SentOfLast(turns: seq<Turn>, sent: Bytes, ending: Option<Ending>)
    requires turns != [] && GotFrame(Last(turns))
  {
    exists part ::
      && Forwards(Last(turns).recv.bytes, Last(turns).sends, ending, part)
      && sent == AllReceived(turns[..|turns| - 1]) + part
  }

  /** What a finished or blocked run did: bytes intact, whole frames counted, and
      the first turn that ends the loop ended it. */
  ghost predicate Ran(setup: Setup, turns: seq<Turn>, ending: Ending, sent: Bytes, bytes: int, frames: int) {
    && IntactPrefix(turns, sent, ending)
    && bytes == |AllReceived(Whole(turns, ending))| && frames == FrameCount(Whole(turns, ending))
    && (EndsInSend(ending) ==> turns != [] && GotFrame(Last(turns)))
    && (turns != [] && GotFrame(Last(turns)) ==>
          SentOfLast(turns, sent, if EndsInSend(ending) then Some(ending) else None))
    && (ending.EndOfFile? <==> turns != [] && Last(turns).recv == Received([]))
    && (ending.RecvError? <==> turns != [] && Last(turns).recv.RecvFails?)
    && (ending.SilenceCut? <==> Overdue(setup, turns))
    && RunsOnBefore(setup, turns, |turns|)
  }

  /** What one turn forwards: of its frame, what the sends take. */
  ghost predicate TurnForwards(turn: Turn, ending: Option<Ending>, part: Bytes) {
    if GotFrame(turn) then Forwards(turn.recv.bytes, turn.sends, ending, part)
    else part == [] && !(ending.Some? && EndsInSend(ending.value))
  }

  ghost predicate TurnEnds(setup: Setup, turns: seq<Turn>, ending: Option<Ending>)
    requires turns != []
  {
    && (ending == Some(EndOfFile) <==> Last(turns).recv == Received([]))
    && (ending == Some(RecvError) <==> Last(turns).recv.RecvFails?)
    && (ending == Some(SilenceCut) <==> Overdue(setup, turns))
    && ending != Some(Receiving)
  }

  lemma TurnFlowsOrEnds(setup: Setup, done: seq<Turn>, turn: Turn, ending: Option<Ending>, part: Bytes,
                        sent: Bytes, bytes: int, frames: int, lastRx: real, waits: Waits)
    requires Flowing(setup, done, sent, bytes, frames, lastRx, waits)
    requires TurnForwards(turn, ending, part) && TurnEnds(setup, done + [turn], ending)
    ensures
      var turns := done + [turn];
      var whole := ending.None? || !EndsInSend(ending.value);
      var bytes' := bytes + if whole then |part| else 0;
      var frames' := frames + if whole && part != [] then 1 else 0;
      if ending.None? then
        Flowing(setup, turns, sent + part, bytes', frames', if turn.recv.Received? then turn.at else lastRx,
                AfterOps(waits, turn.waitOps))
      else
        Ran(setup, turns, ending.value, sent + part, bytes', frames')
  {
    var turns := done + [turn];
    assert turns[..|turns| - 1] == done;
    assert forall m :: 0 <= m < |done| ==> turns[..m] == done[..m];
    if GotFrame(turn) {
      ForwardsPart(turn.recv.bytes, turn.sends, ending, part);
      assert SentOfLast(turns, sent + part, ending);
    }
  }

  /** One turn of the loop, after the turns `done`. */
  method ServeTurn(setup: Setup, ghost done: seq<Turn>, turn: Turn, lastRx: real,
                   to: Socket, stats: DirectionStats, waits: WaitRegistry)
      returns (ending: Option<Ending>, ghost part: Bytes)
    requires waits.View() == WaitsAfter(setup, done) && lastRx == LastRx(setup, done)
    modifies to`accepted, stats, waits
    ensures waits.View() == AfterOps(old(waits.View()), turn.waitOps)
    ensures to.accepted == old(to.accepted) + part
    ensures TurnForwards(turn, ending, part) && TurnEnds(setup, done + [turn], ending)
    ensures
      var whole := ending.None? || !EndsInSend(ending.value);
      && stats.bytes == old(stats.bytes) + (if whole then |part| else 0)
      && stats.frames == old(stats.frames) + (if whole && part != [] then 1 else 0)
  {
    waits.Apply(turn.waitOps);
    assert (done + [turn])[..|done|] == done;
    part := [];
    match turn.recv {
      case Received(bs) =>
        if bs == [] {
          return Some(EndOfFile), [];
        }
        ending, part := ForwardFrame(to, stats, bs, turn.sends);
      case RecvTimesOut =>
        var cut := CheckSilence(setup, done + [turn], turn.at, lastRx, waits);
        ending := if cut then Some(SilenceCut) else None;
      case RecvFails =>
        ending := Some(RecvError);
    }
  }

  /** A turn and what it makes of the run so far. */
  method NextTurn(setup: Setup, ghost done: seq<Turn>, turn: Turn, lastRx: real, ghost sent: Bytes,
                  ghost bytes: int, ghost frames: int, to: Socket, stats: DirectionStats, waits: WaitRegistry)
      returns (ending: Option<Ending>, rx: real, ghost part: Bytes)
    requires Flowing(setup, done, sent, stats.bytes - bytes, stats.frames - frames, lastRx, waits.View())
    modifies to`accepted, stats, waits
    ensures to.accepted == old(to.accepted) + part && ending != Some(Receiving)
    ensures ending.None? ==>
              Flowing(setup, done + [turn], sent + part, stats.bytes - bytes, stats.frames - frames, rx, waits.View())
    ensures ending.Some? ==>
              Ran(setup, done + [turn], ending.value, sent + part, stats.bytes - bytes, stats.frames - frames)
  {
    ghost var counted, whole, view := stats.bytes, stats.frames, waits.View();
    ending, part := ServeTurn(setup, done, turn, lastRx, to, stats, waits);
    TurnFlowsOrEnds(setup, done, turn, ending, part, sent, counted - bytes, whole - frames, lastRx, view);
    rx := if turn.recv.Received? then turn.at else lastRx;
  }

  /** The loop, until the script runs out or the connection ends, after `used`
      turns. Whatever the sockets do, what `to` accepted is a prefix of what was
      received, and the counters are those of the frames forwarded whole. */
  method Pump(setup: Setup, turns: seq<Turn>, to: Socket, stats: DirectionStats, waits: WaitRegistry)
      returns (ending: Ending, used: nat, ghost sent: Bytes)
    requires waits.View() == setup.waits
    modifies to`accepted, stats, waits
    ensures used <= |turns| && (ending.Receiving? ==> used == |turns|)
    ensures to.accepted == old(to.accepted) + sent
    ensures Ran(setup, turns[..used], ending, sent, stats.bytes - old(stats.bytes), stats.frames - old(stats.frames))
  {
    var lastRx := setup.start;
    ghost var bytes, frames := stats.bytes, stats.frames;
    ghost var done: seq<Turn> := [];
    used, sent := 0, [];
    assert Flowing(setup, done, sent, 0, 0, lastRx, waits.View());
    hide Flowing, Ran;
    while used < |turns|
      invariant used <= |turns| && done == turns[..used]
      invariant to.accepted == old(to.accepted) + sent
      invariant Flowing(setup, done, sent, stats.bytes - bytes, stats.frames - frames, lastRx, waits.View())
    {
      var end, rx, part := NextTurn(setup, done, turns[used], lastRx, sent, bytes, frames, to, stats, waits);
      done := done + [turns[used]];
      used, sent, lastRx := used + 1, sent + part, rx;
      if end.Some? {
        assert turns[..used] == done;
        return end.value, used, sent;
      }
    }
    assert turns[..used] == done;
    FlowingMeansReceiving(setup, done, sent, stats.bytes - bytes, stats.frames - frames, lastRx, waits.View());
    ending := Receiving;
  }

  lemma FlowingMeansReceiving(setup: Setup, turns: seq<Turn>, sent: Bytes, bytes: int, frames: int,
                              lastRx: real, waits: Waits)
    requires Flowing(setup, turns, sent, bytes, frames, lastRx, waits)
    ensures Ran(setup, turns, Receiving, sent, bytes, frames)
  {
  }

  /** `Pump`, and both sockets closed unless the thread is still blocked. */
  method ForwardBytes(setup: Setup, turns: seq<Turn>, from: Socket, to: Socket, stats: DirectionStats,
                      waits: WaitRegistry)
      returns (ending: Ending, used: nat, ghost sent: Bytes)
    requires from != to && waits.View() == setup.waits
    modifies from`closed, to, stats, waits
    ensures used <= |turns| && (ending.Receiving? ==> used == |turns|)
    ensures to.accepted == old(to.accepted) + sent
    ensures Ran(setup, turns[..used], ending, sent, stats.bytes - old(stats.bytes), stats.frames - old(stats.frames))
    ensures ending == Receiving || ending == StillSending ==>
              from.closed == old(from.closed) && to.closed == old(to.closed)
    ensures ending != Receiving && ending != StillSending ==> from.closed && to.closed
  {
    ending, used, sent := Pump(setup, turns, to, stats, waits);
    if !BlockedIn(ending) {
      ShutdownAndClose(to, from);
    }
  }

  // ----- the silence cut -----------------------------------------------------

  /** Receives last at most WS_RECV_TIMEOUT_S, sends take no time, and consumers
      start waiting when the clock says so. */
  ghost predicate Timed(setup: Setup, turns: seq<Turn>) {
    if turns == [] then forall token :: token in setup.waits.starts ==> setup.waits.starts[token] <= setup.start
    else
      var init := turns[..|turns| - 1];
      && Timed(setup, init)
      && LastReturn(setup, init) <= Last(turns).at <= LastReturn(setup, init) + WS_RECV_TIMEOUT_S
      && forall i :: 0 <= i < |Last(turns).waitOps| && Last(turns).waitOps[i].Begin? ==>
           LastReturn(setup, init) <= Last(turns).waitOps[i].at <= Last(turns).at
  }

  /** A current wait was registered before these operations or by one of them. */
  lemma {:induction false} WaitsComeFrom(w: Waits, ops: seq<WaitOp>, lo: real, hi: real)
    requires forall i :: 0 <= i < |ops| && ops[i].Begin? ==> lo <= ops[i].at <= hi
    ensures forall token :: token in AfterOps(w, ops).starts ==>
              (token in w.starts && AfterOps(w, ops).starts[token] == w.starts[token])
              || lo <= AfterOps(w, ops).starts[token] <= hi
  {
    if ops != [] {
      WaitsComeFrom(w, ops[..|ops| - 1], lo, hi);
    }
  }

  /** While the loop runs on, no consumer present at the last return had been met
      with silence for as long as the limit. */
  lemma {:induction false} RunningMeansWithin(setup: Setup, turns: seq<Turn>)
    requires Armed(setup) && Timed(setup, turns)
    requires forall n :: 0 <= n <= |turns| ==> Continues(setup, turns[..n])
    ensures LastRx(setup, turns) <= LastReturn(setup, turns)
    ensures forall token :: token in WaitsAfter(setup, turns).starts ==>
              && WaitsAfter(setup, turns).starts[token] <= LastReturn(setup, turns)
              && LastReturn(setup, turns) - MaxReal(LastRx(setup, turns), WaitsAfter(setup, turns).starts[token])
                 < setup.limit
  {
    if turns != [] {
      var init := turns[..|turns| - 1];
      assert forall n :: 0 <= n <= |init| ==> init[..n] == turns[..n];
      RunningMeansWithin(setup, init);
      WaitsComeFrom(WaitsAfter(setup, init), Last(turns).waitOps, LastReturn(setup, init), Last(turns).at);
      assert turns[..|turns|] == turns && Continues(setup, turns);
    }
  }

  /** A cut comes with at least the limit, and less than the limit plus one
      receive, of silence towards the consumer that waited longest. */
  lemma CutWithinOneReceive(setup: Setup, turns: seq<Turn>, oldest: real)
    requires Timed(setup, turns)
    requires Overdue(setup, turns) && forall n :: 0 <= n < |turns| ==> Continues(setup, turns[..n])
    requires IsOldest(WaitsAfter(setup, turns).starts, oldest)
    ensures setup.limit <= Last(turns).at - MaxReal(LastRx(setup, turns), oldest) < setup.limit + WS_RECV_TIMEOUT_S
  {
    var init := turns[..|turns| - 1];
    assert forall n :: 0 <= n <= |init| ==> init[..n] == turns[..n];
    RunningMeansWithin(setup, init);
    WaitsComeFrom(WaitsAfter(setup, init), Last(turns).waitOps, LastReturn(setup, init), Last(turns).at);
  }

  /** A run that ends in a cut is one of the direction from the server, with a limit,
      on a receive timeout. Some consumer has waited for the limit, and nothing has
      come in for as long; of silence towards the one that waited longest there is less
      than one receive more. */
  lemma SilenceCutMeans(setup: Setup, turns: seq<Turn>, ending: Ending, sent: Bytes, bytes: int, frames: int)
    requires Ran(setup, turns, ending, sent, bytes, frames)
    ensures ending.SilenceCut? ==> setup.serverToClient && setup.knowsWaits && setup.limit > 0.0
    ensures ending.SilenceCut? && Timed(setup, turns) ==> SilentForLimit(setup, turns)
    ensures ending.SilenceCut? ==> turns != [] && Last(turns).recv.RecvTimesOut?
    ensures forall oldest ::
              ending.SilenceCut? && Timed(setup, turns) && IsOldest(WaitsAfter(setup, turns).starts, oldest) ==>
              setup.limit <= Last(turns).at - MaxReal(LastRx(setup, turns), oldest) < setup.limit + 60.0
  {
    if ending.SilenceCut? && Timed(setup, turns) {
      RxIsLatest(setup, turns);
      forall oldest | IsOldest(WaitsAfter(setup, turns).starts, oldest)
        ensures setup.limit <= Last(turns).at - MaxReal(LastRx(setup, turns), oldest)
                < setup.limit + WS_RECV_TIMEOUT_S
      {
        CutWithinOneReceive(setup, turns, oldest);
      }
    }
  }

  ghost predicate SilentForLimit(setup: Setup, turns: seq<Turn>)
    requires turns != []
  {
    && Last(turns).at - setup.start >= setup.limit
    && (forall i :: 0 <= i < |turns| && turns[i].recv.Received? ==> Last(turns).at - turns[i].at >= setup.limit)
    && exists token :: token in WaitsAfter(setup, turns).starts
         && Last(turns).at - WaitsAfter(setup, turns).starts[token] >= setup.limit
  }

  /** What `to` took of a run is what came in, from the first byte on: all of it, or
      when the run ends or blocks in a send, less, but all before the last frame. */
  lemma NothingLost(setup: Setup, turns: seq<Turn>, ending: Ending, sent: Bytes, bytes: int, frames: int)
    requires Ran(setup, turns, ending, sent, bytes, frames)
    ensures sent <= AllReceived(turns)
    ensures ending in {Receiving, EndOfFile, RecvError, SilenceCut} <==> sent == AllReceived(turns)
    ensures ending in {StillSending, SendTimeout, SendError} ==>
              turns != [] && AllReceived(turns[..|turns| - 1]) <= sent
    ensures bytes <= |sent| && (sent == AllReceived(turns) ==> bytes == |sent|)
  {
  }

  /** What is received, and how many frames it makes, is counted once for each turn. */
  lemma {:induction false} ReceivedAdds(a: seq<Turn>, b: seq<Turn>)
    ensures AllReceived(a + b) == AllReceived(a) + AllReceived(b) && FrameCount(a + b) == FrameCount(a) + FrameCount(b)
    ensures |a| == 1 && a[0].recv.Received? ==>
              AllReceived(a) == a[0].recv.bytes && FrameCount(a) == if a[0].recv.bytes == [] then 0 else 1
    ensures |a| == 1 && !a[0].recv.Received? ==> AllReceived(a) == [] && FrameCount(a) == 0
  {
    if b == [] {
      assert a + b == a;
    } else {
      ReceivedAdds(a, b[..|b| - 1]);
      assert (a + b)[..|a + b| - 1] == a + b[..|b| - 1];
    }
  }

  /** The loop goes on after this turn. */
  ghost predicate Continues(setup: Setup, turns: seq<Turn>) {
    && !Overdue(setup, turns)
    && (turns != [] ==> !Last(turns).recv.RecvFails? && Last(turns).recv != Received([]))
    && (turns != [] && GotFrame(Last(turns)) ==>
          Forwards(Last(turns).recv.bytes, Last(turns).sends, None, Last(turns).recv.bytes))
  }

  /** This consumer waits after the first `from` turns; from then on nothing is received
      and nothing ends its wait. */
  ghost predicate Starved(setup: Setup, turns: seq<Turn>, from: nat, token: nat, start: real)
    requires from <= |turns|
  {
    && StillWaits(setup, turns[..from], token, start)
    && (forall n :: from <= n < |turns| ==> turns[n].recv.RecvTimesOut?)
    && (forall n :: from <= n < |turns| ==> End(token) !in turns[n].waitOps)
  }

  ghost predicate StillWaits(setup: Setup, turns: seq<Turn>, token: nat, start: real) {
    token in WaitsAfter(setup, turns).starts && WaitsAfter(setup, turns).starts[token] == start
  }

  /** A wait goes on until it is ended. */
  lemma {:induction false} StarvedWaits(setup: Setup, turns: seq<Turn>, from: nat, token: nat, start: real)
    requires Sound(setup.waits) && from <= |turns| && Starved(setup, turns, from, token, start)
    ensures StillWaits(setup, turns, token, start)
  {
    if from < |turns| {
      var init := turns[..|turns| - 1];
      assert init[..from] == turns[..from];
      StarvedWaits(setup, init, from, token, start);
      SoundAfter(setup, init);
      WaitsAre(WaitsAfter(setup, init), Last(turns).waitOps, token, start);
      assert NotEnded(Last(turns).waitOps, 0, token);
    } else {
      assert turns[..from] == turns;
    }
  }

  lemma {:induction false} SoundAfter(setup: Setup, turns: seq<Turn>)
    requires Sound(setup.waits)
    ensures Sound(WaitsAfter(setup, turns))
  {
    if turns != [] {
      SoundAfter(setup, turns[..|turns| - 1]);
      NextAfter(WaitsAfter(setup, turns[..|turns| - 1]), Last(turns).waitOps);
    }
  }

  /** The last receive with bytes was no earlier than any of them, and no earlier than
      the start; and it was one of them, or the start. */
  lemma {:induction false} RxIsLatest(setup: Setup, turns: seq<Turn>)
    requires Timed(setup, turns)
    ensures setup.start <= LastRx(setup, turns) <= LastReturn(setup, turns)
    ensures forall i :: 0 <= i < |turns| && turns[i].recv.Received? ==> turns[i].at <= LastRx(setup, turns)
    ensures LastRx(setup, turns) == setup.start
            || exists i :: 0 <= i < |turns| && turns[i].recv.Received? && turns[i].at == LastRx(setup, turns)
  {
    if turns != [] {
      var init := turns[..|turns| - 1];
      RxIsLatest(setup, init);
      assert turns[|turns| - 1] == Last(turns) && forall i :: 0 <= i < |init| ==> init[i] == turns[i];
    }
  }

  lemma {:induction false} StarvedRx(setup: Setup, turns: seq<Turn>, from: nat)
    requires from <= |turns| && forall n :: from <= n < |turns| ==> turns[n].recv.RecvTimesOut?
    ensures LastRx(setup, turns) == LastRx(setup, turns[..from])
  {
    if from < |turns| {
      StarvedRx(setup, turns[..|turns| - 1], from);
      assert turns[..|turns| - 1][..from] == turns[..from];
    } else {
      assert turns[..from] == turns;
    }
  }

  lemma {:induction false} TimedPrefix(setup: Setup, turns: seq<Turn>, n: nat)
    requires n <= |turns| && Timed(setup, turns)
    ensures Timed(setup, turns[..n])
  {
    if n < |turns| {
      TimedPrefix(setup, turns[..|turns| - 1], n);
      assert turns[..|turns| - 1][..n] == turns[..n];
    } else {
      assert turns[..n] == turns;
    }
  }

  /** A consumer whose wait nothing ends, with nothing received from turn `from` on, is
      cut off less than one receive after the limit has passed since `since`, when it
      had begun to wait and the last bytes had come in. */
  lemma StarvedIsCut(setup: Setup, turns: seq<Turn>, from: nat, token: nat, start: real, since: real) returns (n: nat)
    requires setup.serverToClient && setup.knowsWaits && setup.limit > 0.0
    requires Timed(setup, turns) && Sound(setup.waits)
    requires from <= |turns| && Starved(setup, turns, from, token, start)
    requires forall m :: 0 <= m <= from ==> Continues(setup, turns[..m])
    requires start <= since && setup.start <= since
    requires forall i :: 0 <= i < from && turns[i].recv.Received? ==> turns[i].at <= since
    requires LastReturn(setup, turns) >= since + setup.limit
    ensures from < n <= |turns| && Overdue(setup, turns[..n])
    ensures LastReturn(setup, turns[..n]) < since + setup.limit + 60.0
  {
    TimedPrefix(setup, turns, from);
    RxIsLatest(setup, turns[..from]);
    forall i | 0 <= i < from && turns[..from][i].recv.Received?
      ensures turns[..from][i].at <= since
    {
      assert turns[..from][i] == turns[i];
    }
    n := StarvedSinceIsCut(setup, turns, from, token, start);
  }

  lemma {:induction false} StarvedSinceIsCut(setup: Setup, turns: seq<Turn>, from: nat, token: nat, start: real)
      returns (n: nat)
    requires Armed(setup) && Timed(setup, turns) && Sound(setup.waits)
    requires from <= |turns| && Starved(setup, turns, from, token, start)
    requires forall m :: 0 <= m <= from ==> Continues(setup, turns[..m])
    requires LastReturn(setup, turns) >= MaxReal(LastRx(setup, turns[..from]), start) + setup.limit
    ensures from < n <= |turns| && Overdue(setup, turns[..n])
    ensures LastReturn(setup, turns[..n])
            < MaxReal(LastRx(setup, turns[..from]), start) + setup.limit + WS_RECV_TIMEOUT_S
  {
    var head := turns[..from];
    var due := MaxReal(LastRx(setup, head), start) + setup.limit;
    assert turns[..|turns|] == turns;
    assert forall m :: 0 <= m <= |head| ==> head[..m] == turns[..m];
    TimedPrefix(setup, turns, from);
    RunningMeansWithin(setup, head);
    if from == |turns| {
      assert false;
    }
    var init := turns[..|turns| - 1];
    assert forall m :: 0 <= m <= |init| ==> init[..m] == turns[..m];
    if LastReturn(setup, init) >= due {
      n := StarvedSinceIsCut(setup, init, from, token, start);
    } else {
      n := |turns|;
      StarvedRx(setup, turns, from);
      StarvedWaits(setup, turns, from, token, start);
    }
  }
}

/** Starting and stopping the proxy's sockets and threads.

    `ProxyState` holds the fields guarded by the connection lock, one method per
    locked region. The state machine interleaves those regions, written with the
    same functions, with the accept loop, one handler thread per connection and
    any number of `stop()` calls.
 */
module ProxyShutdown {
  import opened Prelude

  /** A connection is known by its number, the index of its handler. */
  type Conn = nat

  datatype Guarded = Guarded(killed: bool, clients: set<Conn>, backends: set<Conn>)

  function Admitted(g: Guarded, c: Conn): Guarded {
    if g.killed then g else g.(clients := g.clients + {c})
  }

  function BackendRegistered(g: Guarded, c: Conn): Guarded {
    if g.killed then g else g.(backends := g.backends + {c})
  }

  class ProxyState {
    var killed: bool
    var activeClients: set<Conn>
    var activeBackends: set<Conn>

    function View(): Guarded
      reads this
    {
      Guarded(killed, activeClients, activeBackends)
    }

    constructor ()
      ensures View() == Guarded(false, {}, {})
    {
      killed, activeClients, activeBackends := false, {}, {};
    }

    /** The accept loop's locked region: false means the connection is closed. */
    method Admit(c: Conn) returns (admitted: bool)
      modifies this
      ensures View() == Admitted(old(View()), c) && admitted == !old(killed)
    {
      if killed {
        return false;
      }
      activeClients := activeClients + {c};
      admitted := true;
    }

    method RegisterBackend(c: Conn) returns (registered: bool)
      modifies this
      ensures View() == BackendRegistered(old(View()), c) && registered == !old(killed)
    {
      if !killed {
        activeBackends := activeBackends + {c};
        return true;
      }
      registered := false;
    }

    method UnregisterBackend(c: Conn)
      modifies this
      ensures View() == old(View()).(backends := old(activeBackends) - {c})
    {
      activeBackends := activeBackends - {c};
    }

    method DiscardClient(c: Conn)
      modifies this
      ensures View() == old(View()).(clients := old(activeClients) - {c})
    {
      activeClients := activeClients - {c};
    }

    /** stop()'s locked region: the sockets it has to close. */
    method Kill() returns (clients: set<Conn>, backends: set<Conn>)
      modifies this
      ensures View() == Guarded(true, {}, {})
      ensures clients == old(activeClients) && backends == old(activeBackends)
    {
      killed := true;
      clients, backends := activeClients, activeBackends;
      activeClients, activeBackends := {}, {};
    }
  }

  // ----- interleavings -------------------------------------------------------

  /** Where a handler thread is, from its start to after its last statement. */
  datatype Pc =
    | Starting
    | Connecting
    | Connected        // its WebSocket is open, not yet registered
    | TurnedAway       // registering found the proxy stopped: close_abrupt comes next
    | Forwarding
    | Unregistering
    | ExitingSocket    // leaving `with connect_tcp_bridge(...)`
    | ExitingClient    // leaving `with conn`
    | Finishing        // the last shutdown-and-close of the client
    | Discarding
    | Done

  datatype Handler = Handler(pc: Pc, clientOpen: bool, backendOpen: bool)

  /** The accept thread; `Binding` has no listening socket yet, `Holding` has
      accepted a connection not yet admitted, and `Rejecting` has seen that the proxy
      is stopped and closes that connection next. */
  datatype Acceptor = Binding | Checking | Accepting | Holding | Rejecting | Leaving | Stopped

  datatype State = State(
    guarded: Guarded,
    frontendOpen: bool,
    acceptor: Acceptor,
    heldOpen: bool,               // the accepted socket no handler has yet
    handlers: seq<Handler>,
    owesFrontend: bool,           // closes that stop() calls have yet to make
    owesClients: set<Conn>,
    owesBackends: set<Conn>
  )

  const Started := State(Guarded(false, {}, {}), false, Binding, false, [], false, {}, {})

  /** What a handler thread does next. */
  datatype Move =
    | Start
    | StartFails          // before `with conn`
    | ConnectSucceeds
    | ConnectFails
    | Register
    | CloseAbrupt
    | ForwardingEnds
    | ForwardingFails     // before its two directions run: both sockets stay open
    | Unregister
    | ExitSocket
    | ExitClient
    | Finish
    | Discard

  predicate CanMove(pc: Pc, move: Move) {
    match move
    case Start => pc.Starting?
    case StartFails => pc.Starting?
    case ConnectSucceeds => pc.Connecting?
    case ConnectFails => pc.Connecting?
    case Register => pc.Connected?
    case CloseAbrupt => pc.TurnedAway?
    case ForwardingEnds => pc.Forwarding?
    case ForwardingFails => pc.Forwarding?
    case Unregister => pc.Unregistering?
    case ExitSocket => pc.ExitingSocket?
    case ExitClient => pc.ExitingClient?
    case Finish => pc.Finishing?
    case Discard => pc.Discarding?
  }

  /** The handler after a move. */
  function Moved(h: Handler, killed: bool, move: Move): Handler {
    match move
    case Start => h.(pc := Connecting)
    case StartFails => h.(pc := Finishing)
    case ConnectSucceeds => h.(pc := Connected, backendOpen := true)
    case ConnectFails => h.(pc := ExitingClient)
    case Register => h.(pc := if killed then TurnedAway else Forwarding)
    case CloseAbrupt => h.(pc := ExitingSocket, backendOpen := false)
    case ForwardingEnds => Handler(Unregistering, false, false)
    case ForwardingFails => h.(pc := Unregistering)
    case Unregister => h.(pc := ExitingSocket)
    case ExitSocket => h.(pc := ExitingClient, backendOpen := false)
    case ExitClient => h.(pc := Finishing, clientOpen := false)
    case Finish => h.(pc := Discarding, clientOpen := false)
    case Discard => h.(pc := Done)
  }

  /** The guarded fields after a move of connection `c`. */
  function Guards(g: Guarded, c: Conn, move: Move): Guarded {
    match move
    case Register => BackendRegistered(g, c)
    case Unregister => g.(backends := g.backends - {c})
    case Discard => g.(clients := g.clients - {c})
    case _ => g
  }

  datatype Step =
    | Listen
    | ListenFails
    | CheckKilled
    | AcceptConnection
    | AcceptFails
    | Dispatch
    | Reject
    | LeaveAccept
    | Handle(c: Conn, move: Move)
    | Stop
    | StopClosesFrontend
    | StopClosesClient(c: Conn)
    | StopClosesBackend(c: Conn)

  predicate Enabled(s: State, step: Step) {
    match step
    case Listen => s.acceptor.Binding?
    case ListenFails => s.acceptor.Binding?
    case CheckKilled => s.acceptor.Checking?
    case AcceptConnection => s.acceptor.Accepting? && s.frontendOpen
    case AcceptFails => s.acceptor.Accepting?
    case Dispatch => s.acceptor.Holding?
    case Reject => s.acceptor.Rejecting?
    case LeaveAccept => s.acceptor.Leaving?
    case Handle(c, move) => c < |s.handlers| && CanMove(s.handlers[c].pc, move)
    case Stop => true
    case StopClosesFrontend => s.owesFrontend
    case StopClosesClient(c) => c in s.owesClients && c < |s.handlers|
    case StopClosesBackend(c) => c in s.owesBackends && c < |s.handlers|
  }

  function Apply(s: State, step: Step): State
    requires Enabled(s, step)
  {
    match step
    case Listen => s.(acceptor := Checking, frontendOpen := true)
    case ListenFails => s.(acceptor := Stopped)
    case CheckKilled => s.(acceptor := if s.guarded.killed then Leaving else Accepting)
    case AcceptConnection => s.(acceptor := Holding, heldOpen := true)
    case AcceptFails => s.(acceptor := Leaving)
    case Dispatch =>
      if s.guarded.killed then s.(acceptor := Rejecting)
      else s.(acceptor := Checking, guarded := Admitted(s.guarded, |s.handlers|),
              heldOpen := false, handlers := s.handlers + [Handler(Starting, s.heldOpen, false)])
    case Reject => s.(acceptor := Leaving, heldOpen := false)
    case LeaveAccept => s.(acceptor := Stopped, frontendOpen := false)
    case Handle(c, move) =>
      s.(handlers := s.handlers[c := Moved(s.handlers[c], s.guarded.killed, move)],
         guarded := Guards(s.guarded, c, move))
    case Stop =>
      s.(guarded := Guarded(true, {}, {}), owesFrontend := true,
         owesClients := s.owesClients + s.guarded.clients, owesBackends := s.owesBackends + s.guarded.backends)
    case StopClosesFrontend => s.(owesFrontend := false, frontendOpen := false)
    case StopClosesClient(c) =>
      s.(handlers := s.handlers[c := s.handlers[c].(clientOpen := false)], owesClients := s.owesClients - {c})
    case StopClosesBackend(c) =>
      s.(handlers := s.handlers[c := s.handlers[c].(backendOpen := false)], owesBackends := s.owesBackends - {c})
  }

  /** Who still has to close an open socket. */
  datatype Owner = AcceptLoop | StopSnapshot | RegisterAbort | HandlerExit | Nobody

  /** The listening socket: an accept() blocked after stop waits for stop's close. */
  function FrontendOwner(s: State): Owner {
    match s.acceptor
    case Binding => Nobody
    case Stopped => Nobody
    case Accepting => if !s.guarded.killed then AcceptLoop else if s.owesFrontend then StopSnapshot else Nobody
    case _ => AcceptLoop
  }

  /** The accepted socket that no handler has yet. */
  function HeldOwner(s: State): Owner {
    if s.acceptor.Holding? || s.acceptor.Rejecting? then AcceptLoop else Nobody
  }

  function ClientOwner(s: State, c: Conn): Owner
    requires c < |s.handlers|
  {
    if s.handlers[c].pc in {Discarding, Done} then Nobody else HandlerExit
  }

  function BackendOwner(s: State, c: Conn): Owner
    requires c < |s.handlers|
  {
    OwnerAt(s.handlers[c].pc, s.guarded.killed, c in s.owesBackends)
  }

  function OwnerAt(pc: Pc, killed: bool, owed: bool): Owner {
    match pc
    case TurnedAway => RegisterAbort
    case Forwarding => if !killed then HandlerExit else if owed then StopSnapshot else Nobody
    case Connected => HandlerExit
    case Unregistering => HandlerExit
    case ExitingSocket => HandlerExit
    case _ => Nobody
  }

  /** A handler, whether its sockets are in the active sets, and whether stop owes
      its backend socket a close. */
  predicate HandlerOk(h: Handler, killed: bool, client: bool, backend: bool, owed: bool) {
    && (h.clientOpen ==> !(h.pc in {Discarding, Done}))
    && (h.backendOpen ==> OwnerAt(h.pc, killed, owed) != Nobody)
    && (backend ==> h.pc.Forwarding? || h.pc.Unregistering?)
    && (client ==> !h.pc.Done?)
    && (!killed && h.pc.Forwarding? ==> backend)
    && (!killed && !h.pc.Done? ==> client)
    && (h.pc.TurnedAway? ==> killed)
  }

  predicate HandlerInv(s: State, c: Conn)
    requires c < |s.handlers|
  {
    HandlerOk(s.handlers[c], s.guarded.killed, c in s.guarded.clients, c in s.guarded.backends, c in s.owesBackends)
  }

  ghost predicate Inv(s: State) {
    && (forall c :: c in s.owesClients ==> c < |s.handlers|)
    && (forall c :: c in s.owesBackends ==> c < |s.handlers|)
    && (forall c :: c in s.guarded.clients ==> c < |s.handlers|)
    && (forall c :: c in s.guarded.backends ==> c < |s.handlers|)
    && (forall c: Conn :: c < |s.handlers| ==> HandlerInv(s, c))
    && (s.guarded.killed ==> s.guarded.clients == {} && s.guarded.backends == {})
    && (!s.guarded.killed ==> s.owesClients == {} && s.owesBackends == {} && !s.owesFrontend)
    && AcceptorInv(s)
  }

  ghost predicate AcceptorInv(s: State) {
    && (s.frontendOpen ==> FrontendOwner(s) != Nobody)
    && (s.heldOpen <==> HeldOwner(s) != Nobody)
    && (s.acceptor.Rejecting? ==> s.guarded.killed)
  }

  ghost predicate Reaches(steps: seq<Step>, s: State) {
    if steps == [] then s == Started
    else exists r :: Reaches(steps[..|steps| - 1], r) && Enabled(r, Last(steps)) && s == Apply(r, Last(steps))
  }

  lemma MoveKeepsOk(h: Handler, killed: bool, client: bool, backend: bool, owed: bool, move: Move)
    requires HandlerOk(h, killed, client, backend, owed) && CanMove(h.pc, move)
    requires killed ==> !client && !backend
    ensures HandlerOk(Moved(h, killed, move), killed, client && !move.Discard?,
                      (backend || (move.Register? && !killed)) && !move.Unregister?, owed)
  {
  }

  lemma MoveGuards(g: Guarded, c: Conn, d: Conn, move: Move)
    ensures
      var t := Guards(g, c, move);
      && t.killed == g.killed
      && (d in t.clients <==> d in g.clients && !(d == c && move.Discard?))
      && (d in t.backends <==>
            (d in g.backends || (d == c && move.Register? && !g.killed)) && !(d == c && move.Unregister?))
      && (g.killed ==> t.clients <= g.clients && t.backends <= g.backends)
  {
  }

  lemma HandlerStepKeepsInv(s: State, c: Conn, move: Move)
    requires Inv(s) && Enabled(s, Handle(c, move))
    ensures Inv(Apply(s, Handle(c, move)))
  {
    hide HandlerOk, CanMove, Moved, Guards, AcceptorInv;
    var t := Apply(s, Handle(c, move));
    forall d: Conn
      ensures d < |t.handlers| ==> HandlerInv(t, d)
      ensures d in t.guarded.clients || d in t.guarded.backends ==> d < |t.handlers|
      ensures s.guarded.killed ==> d !in t.guarded.clients && d !in t.guarded.backends
    {
      MoveGuards(s.guarded, c, d, move);
      if d == c {
        assert HandlerInv(s, c);
        MoveKeepsOk(s.handlers[c], s.guarded.killed, c in s.guarded.clients, c in s.guarded.backends,
                    c in s.owesBackends, move);
      } else if d < |t.handlers| {
        assert HandlerInv(s, d);
      }
    }
    MoveGuards(s.guarded, c, c, move);
    AcceptorUnmoved(s, t);
  }

  /** The accept thread's sockets depend on its own state and on stop only. */
  lemma AcceptorUnmoved(s: State, t: State)
    requires AcceptorInv(s) && t.acceptor == s.acceptor && t.guarded.killed == s.guarded.killed
    requires t.frontendOpen == s.frontendOpen && t.heldOpen == s.heldOpen && t.owesFrontend == s.owesFrontend
    ensures AcceptorInv(t)
  {
  }

  lemma MainStepKeepsHandler(s: State, step: Step, c: Conn)
    requires Inv(s) && Enabled(s, step) && !step.Handle? && c < |Apply(s, step).handlers|
    ensures HandlerInv(Apply(s, step), c)
  {
    if c == |s.handlers| {
      assert c !in s.guarded.backends;
    } else {
      assert HandlerInv(s, c);
    }
  }

  lemma MainStepKeepsInv(s: State, step: Step)
    requires Inv(s) && Enabled(s, step) && !step.Handle?
    ensures Inv(Apply(s, step))
  {
    var t := Apply(s, step);
    forall c: Conn | c < |t.handlers|
      ensures HandlerInv(t, c)
    {
      MainStepKeepsHandler(s, step, c);
    }
    hide HandlerInv;
  }

  lemma StepKeepsInv(s: State, step: Step)
    requires Inv(s) && Enabled(s, step)
    ensures Inv(Apply(s, step))
  {
    hide *;
    if step.Handle? {
      HandlerStepKeepsInv(s, step.c, step.move);
    } else {
      MainStepKeepsInv(s, step);
    }
  }

  lemma {:induction false} EveryRunKeepsInv(steps: seq<Step>, s: State)
    requires Reaches(steps, s)
    ensures Inv(s)
  {
    if steps != [] {
      var r :| Reaches(steps[..|steps| - 1], r) && Enabled(r, Last(steps)) && s == Apply(r, Last(steps));
      EveryRunKeepsInv(steps[..|steps| - 1], r);
      StepKeepsInv(r, Last(steps));
    }
  }

  // ----- main results --------------------------------------------------------

  /** Once stop's locked section has run, the active sets stay empty. */
  lemma {:induction false} NothingRegistersAfterStop(steps: seq<Step>, s: State)
    requires Reaches(steps, s) && s.guarded.killed
    ensures s.guarded.clients == {} && s.guarded.backends == {}
  {
    EveryRunKeepsInv(steps, s);
  }

  ghost predicate ConnectionIsOwed(s: State, c: Conn)
    requires c < |s.handlers|
  {
    && (s.handlers[c].clientOpen ==> ClientOwner(s, c).HandlerExit?)
    && (s.handlers[c].backendOpen ==> BackendOwner(s, c) != Nobody)
    && (s.handlers[c].backendOpen && s.guarded.killed && s.handlers[c].pc.Forwarding? ==> c in s.owesBackends)
  }

  /** Every open socket is owed a close by one identifiable piece of code. The one
      just accepted: by the accept loop. The listening one: by the accept loop, or by
      stop while accept() is blocked. After stop, the backend socket of a connection
      still forwarding is in stop's snapshot. */
  lemma {:induction false} EveryOpenSocketIsOwed(steps: seq<Step>, s: State)
    requires Reaches(steps, s)
    ensures s.heldOpen ==> HeldOwner(s).AcceptLoop?
    ensures s.frontendOpen ==> FrontendOwner(s) != Nobody
    ensures s.frontendOpen && s.guarded.killed && s.acceptor.Accepting? ==> s.owesFrontend
    ensures forall c: Conn :: c < |s.handlers| ==> ConnectionIsOwed(s, c)
  {
    EveryRunKeepsInv(steps, s);
    forall c: Conn | c < |s.handlers|
      ensures ConnectionIsOwed(s, c)
    {
      assert HandlerInv(s, c);
    }
  }

  /** After stop, every client socket still open is one that stop is about to close: the
      sockets in its snapshot are closed when it has gone through it. */
  lemma {:induction false} OpenClientsAreInSnapshot(steps: seq<Step>, s: State)
    requires Reaches(steps, s)
    ensures s.guarded.killed ==>
              forall c: Conn :: c < |s.handlers| && s.handlers[c].clientOpen ==> c in s.owesClients
  {
    if steps != [] {
      var r :| Reaches(steps[..|steps| - 1], r) && Enabled(r, Last(steps)) && s == Apply(r, Last(steps));
      OpenClientsAreInSnapshot(steps[..|steps| - 1], r);
      EveryRunKeepsInv(steps[..|steps| - 1], r);
      if s.guarded.killed {
        forall c: Conn | c < |s.handlers| && s.handlers[c].clientOpen
          ensures c in s.owesClients
        {
          if c < |r.handlers| {
            assert HandlerInv(r, c);
          }
          OpensOrCloses(r, Last(steps), c);
          StopCloses(r, Last(steps), c);
        }
      }
    }
  }

  lemma StopCloses(s: State, step: Step, c: Conn)
    requires Enabled(s, step)
    ensures Apply(s, step).guarded.killed == (s.guarded.killed || step.Stop?)
    ensures c in s.owesClients && step != StopClosesClient(c) ==> c in Apply(s, step).owesClients
    ensures step.Stop? && c in s.guarded.clients ==> c in Apply(s, step).owesClients
    ensures |Apply(s, step).handlers| > |s.handlers| ==> !s.guarded.killed && step.Dispatch?
  {
  }

  /** Which steps open and close the sockets of a connection, and no others do. */
  lemma OpensOrCloses(s: State, step: Step, c: Conn)
    requires Enabled(s, step)
    ensures c < |s.handlers| ==>
      var h, t := s.handlers[c], Apply(s, step).handlers[c];
      && t.clientOpen == (h.clientOpen && step !in {StopClosesClient(c), Handle(c, ForwardingEnds),
                                                    Handle(c, ExitClient), Handle(c, Finish)})
      && t.backendOpen == (step == Handle(c, ConnectSucceeds) ||
                           (h.backendOpen && step !in {StopClosesBackend(c), Handle(c, CloseAbrupt),
                                                       Handle(c, ForwardingEnds), Handle(c, ExitSocket)}))
  {
    hide Guards;
  }

  /** The same of the listening socket and of one just accepted. */
  lemma AcceptorOpensOrCloses(s: State, step: Step)
    requires Enabled(s, step)
    ensures
      var t := Apply(s, step);
      && t.frontendOpen == (step.Listen? || (s.frontendOpen && !step.LeaveAccept? && !step.StopClosesFrontend?))
      && t.heldOpen == (step.AcceptConnection? ||
                        (s.heldOpen && !step.Reject? && !(step.Dispatch? && |t.handlers| > |s.handlers|)))
      && (|t.handlers| > |s.handlers| ==> t.handlers == s.handlers + [Handler(Starting, s.heldOpen, false)])
  {
    hide Moved, Guards, CanMove;
  }

  /** Steps the proxy takes by itself: a new connection, a failing accept, another
      stop() call and a peer ending a connection are up to others. */
  predicate Internal(s: State, step: Step) {
    match step
    case AcceptConnection => false
    case Stop => false
    case AcceptFails => !s.frontendOpen
    case ListenFails => false
    case Handle(c, ForwardingEnds) => c < |s.handlers| && !(s.handlers[c].clientOpen && s.handlers[c].backendOpen)
    case Handle(_, ForwardingFails) => false
    case _ => true
  }

  ghost predicate Quiescent(s: State) {
    forall step :: Enabled(s, step) ==> !Internal(s, step)
  }

  function NextMove(pc: Pc): Move
    requires !pc.Done?
    ensures CanMove(pc, NextMove(pc))
  {
    match pc
    case Starting => Start
    case Connecting => ConnectFails
    case Connected => Register
    case TurnedAway => CloseAbrupt
    case Forwarding => ForwardingEnds
    case Unregistering => Unregister
    case ExitingSocket => ExitSocket
    case ExitingClient => ExitClient
    case Finishing => Finish
    case Discarding => Discard
  }

  lemma LiveHandlerCanStep(s: State, c: Conn) returns (step: Step)
    requires Inv(s) && s.guarded.killed && c < |s.handlers| && !s.handlers[c].pc.Done?
    ensures Enabled(s, step) && Internal(s, step)
  {
    assert HandlerInv(s, c);
    var h := s.handlers[c];
    step := if h.pc.Forwarding? && h.backendOpen then StopClosesBackend(c) else Handle(c, NextMove(h.pc));
  }

  lemma LiveAcceptorCanStep(s: State) returns (step: Step)
    requires Inv(s) && s.guarded.killed && !s.acceptor.Stopped?
    ensures Enabled(s, step) && Internal(s, step)
  {
    step :=
      match s.acceptor
      case Binding => Listen
      case Checking => CheckKilled
      case Accepting => if s.frontendOpen then StopClosesFrontend else AcceptFails
      case Holding => Dispatch
      case Rejecting => Reject
      case Leaving => LeaveAccept
      case Stopped => Stop;
  }

  /** After stop, when no step of the proxy is left, no socket is open. */
  lemma {:induction false} StoppedMeansClosed(steps: seq<Step>, s: State)
    requires Reaches(steps, s) && s.guarded.killed && Quiescent(s)
    ensures !s.frontendOpen && !s.heldOpen && s.acceptor.Stopped?
    ensures forall c: Conn :: c < |s.handlers| ==> !s.handlers[c].clientOpen && !s.handlers[c].backendOpen
  {
    EveryRunKeepsInv(steps, s);
    forall c: Conn | c < |s.handlers|
      ensures !s.handlers[c].clientOpen && !s.handlers[c].backendOpen
    {
      assert HandlerInv(s, c);
      if !s.handlers[c].pc.Done? {
        var step := LiveHandlerCanStep(s, c);
        assert false;
      }
    }
    if !s.acceptor.Stopped? {
      var step := LiveAcceptorCanStep(s);
      assert false;
    }
  }

  function Rank(pc: Pc): nat {
    match pc
    case Starting => 9
    case Connecting => 8
    case Connected => 7
    case TurnedAway => 6
    case Forwarding => 6
    case Unregistering => 5
    case ExitingSocket => 4
    case ExitingClient => 3
    case Finishing => 2
    case Discarding => 1
    case Done => 0
  }

  function Ranks(handlers: seq<Handler>): nat {
    if handlers == [] then 0 else Ranks(handlers[..|handlers| - 1]) + Rank(Last(handlers).pc)
  }

  /** What is left to do after stop. */
  function Work(s: State): nat {
    Ranks(s.handlers) + |s.owesClients| + |s.owesBackends| + (if s.owesFrontend then 1 else 0)
    + match s.acceptor
      case Binding => 6
      case Checking => 5
      case Accepting => 4
      case Holding => 3
      case Rejecting => 2
      case Leaving => 1
      case Stopped => 0
  }

  lemma {:induction false} MoveRanks(handlers: seq<Handler>, c: Conn, h: Handler)
    requires c < |handlers|
    ensures Ranks(handlers[c := h]) == Ranks(handlers) - Rank(handlers[c].pc) + Rank(h.pc)
  {
    var moved := handlers[c := h];
    var init := handlers[..|handlers| - 1];
    if c == |handlers| - 1 {
      assert moved[..|moved| - 1] == init;
    } else {
      assert moved[..|moved| - 1] == init[c := h];
      MoveRanks(init, c, h);
    }
  }

  lemma MovesForward(h: Handler, killed: bool, move: Move)
    requires CanMove(h.pc, move)
    ensures Rank(Moved(h, killed, move).pc) < Rank(h.pc)
  {
  }

  lemma HandlerStepUsesWork(s: State, c: Conn, move: Move)
    requires Enabled(s, Handle(c, move))
    ensures Work(Apply(s, Handle(c, move))) < Work(s)
  {
    hide Moved, CanMove, Guards;
    MovesForward(s.handlers[c], s.guarded.killed, move);
    MoveRanks(s.handlers, c, Moved(s.handlers[c], s.guarded.killed, move));
  }

  lemma StopCloseUsesWork(s: State, step: Step, c: Conn)
    requires Inv(s) && Enabled(s, step) && step in {StopClosesClient(c), StopClosesBackend(c)}
    ensures Work(Apply(s, step)) < Work(s)
  {
    MoveRanks(s.handlers, c, Apply(s, step).handlers[c]);
  }

  lemma {:induction false} NoRanksMeansDone(handlers: seq<Handler>, c: Conn)
    requires Ranks(handlers) == 0 && c < |handlers|
    ensures handlers[c].pc.Done?
  {
    if c < |handlers| - 1 {
      NoRanksMeansDone(handlers[..|handlers| - 1], c);
    }
  }

  lemma NoWorkMeansClosed(s: State)
    requires Inv(s) && Work(s) == 0
    ensures !s.frontendOpen && !s.heldOpen
    ensures forall c: Conn :: c < |s.handlers| ==> !s.handlers[c].clientOpen && !s.handlers[c].backendOpen
  {
    forall c: Conn | c < |s.handlers|
      ensures !s.handlers[c].clientOpen && !s.handlers[c].backendOpen
    {
      NoRanksMeansDone(s.handlers, c);
      assert HandlerInv(s, c);
    }
  }

  /** After stop every step, short of another stop() call, uses up work: the
      threads cannot run forever, and when none is left no socket is open. */
  lemma {:induction false} StopTerminates(steps: seq<Step>, s: State, step: Step)
    requires Reaches(steps, s) && s.guarded.killed && Enabled(s, step) && !step.Stop?
    ensures Work(Apply(s, step)) < Work(s)
    ensures
      var t := Apply(s, step);
      Work(t) == 0 ==>
        && !t.frontendOpen && !t.heldOpen
        && forall c: Conn :: c < |t.handlers| ==> !t.handlers[c].clientOpen && !t.handlers[c].backendOpen
  {
    EveryRunKeepsInv(steps, s);
    StepUsesWork(s, step);
    StepKeepsInv(s, step);
    hide *;
    if Work(Apply(s, step)) == 0 {
      NoWorkMeansClosed(Apply(s, step));
    }
  }

  lemma StepUsesWork(s: State, step: Step)
    requires Inv(s) && s.guarded.killed && Enabled(s, step) && !step.Stop?
    ensures Work(Apply(s, step)) < Work(s)
  {
    match step {
      case Handle(c, move) => HandlerStepUsesWork(s, c, move);
      case StopClosesClient(c) => StopCloseUsesWork(s, step, c);
      case StopClosesBackend(c) => StopCloseUsesWork(s, step, c);
      case _ =>
    }
  }
}

/** The class-level state of the one default session, and the operations that own
    it: getOrCreate, stop and abandoning a session that never started. They hold
    the class lock from start to end; the liveness cache is also used by the
    guards of other threads. */
module SessionLifecycle {
  import opened Prelude
  import L = Liveness

  // ----- what Dataproc says --------------------------------------------------

  datatype ServerState = Unspecified | Creating | Active | Failed | Terminating | Terminated

  datatype Response = Response(state: ServerState, endpoint: bool, uuid: string)

  /** FailedPrecondition: another termination is in progress. Aborted: the session is
      still being created. */
  datatype RpcError = NotFound | FailedPrecondition | Aborted | OtherError

  datatype Poll = Says(response: Response) | Fails(error: RpcError)

  predicate Dead(s: ServerState) {
    s in {Failed, Terminating, Terminated}
  }

  predicate Connectable(r: Response) {
    r.state in {Active, Unspecified} && r.endpoint
  }

  /** What a GetSession reply means for the liveness cache. */
  function AnswerOf(p: Poll): L.Answer {
    match p
    case Says(r) =>
      if r.state == Active then L.IsActive
      else if r.state == Creating then L.IsCreating
      else L.Gone("inactive")
    case Fails(NotFound) => L.Gone("deleted")
    case Fails(_) => L.Unknown
  }

  /** Dataproc no longer has the session, or has it in a state it does not come back from. */
  predicate GoneBy(p: Poll) {
    p == Fails(NotFound) || (p.Says? && p.response.state !in {Active, Creating})
  }

  /** The session looked up by its id, when it can be used. */
  function Usable(p: Poll): Option<Response> {
    if p.Says? && p.response.state in {Active, Creating} then Some(p.response) else None
  }

  // ----- waiting for an endpoint ---------------------------------------------

  datatype Wait = Ready(response: Response) | Gone | TimedOut

  predicate SaysGone(p: Poll) {
    p == Fails(NotFound) || (p.Says? && Dead(p.response.state))
  }

  predicate SaysReady(p: Poll) {
    p.Says? && !Dead(p.response.state) && Connectable(p.response)
  }

  /** The first poll that decides is the k-th. */
  ghost predicate DecidedAt(polls: seq<Poll>, k: int) {
    && 0 <= k < |polls| && (SaysGone(polls[k]) || SaysReady(polls[k]))
    && forall j :: 0 <= j < k ==> !SaysGone(polls[j]) && !SaysReady(polls[j])
  }

  ghost predicate PollsSayGone(polls: seq<Poll>) {
    exists k :: DecidedAt(polls, k) && SaysGone(polls[k])
  }

  ghost predicate PollsSayReady(polls: seq<Poll>, r: Response) {
    exists k :: DecidedAt(polls, k) && SaysReady(polls[k]) && polls[k] == Says(r)
  }

  /** `polls` are the replies that arrive before the deadline. */
  method PollForEndpoint(polls: seq<Poll>) returns (w: Wait)
    ensures w.Gone? <==> PollsSayGone(polls)
    ensures w.Ready? <==> exists r :: PollsSayReady(polls, r)
    ensures w.Ready? ==> PollsSayReady(polls, w.response)
    // What decides, and what does not.
    ensures w.Gone? ==> exists p :: p in polls && (p == Fails(NotFound) ||
                                                   (p.Says? && p.response.state in {Failed, Terminating, Terminated}))
    ensures w.Ready? ==> Says(w.response) in polls && w.response.state in {Active, Unspecified} && w.response.endpoint
    ensures w.TimedOut? <==> forall p :: p in polls ==>
              match p
              case Fails(e) => e != NotFound
              case Says(r) => r.state == Creating || (r.state in {Active, Unspecified} && !r.endpoint)
  {
    for i := 0 to |polls|
      invariant forall j :: 0 <= j < i ==> !SaysGone(polls[j]) && !SaysReady(polls[j])
    {
      assert polls[i] in polls;
      if SaysGone(polls[i]) {
        assert DecidedAt(polls, i);
        return Gone;
      }
      if SaysReady(polls[i]) {
        assert DecidedAt(polls, i) && polls[i] == Says(polls[i].response);
        assert PollsSayReady(polls, polls[i].response);
        return Ready(polls[i].response);
      }
    }
    w := TimedOut;
  }

  method CheckCreatedSession(r: Response, polls: seq<Poll>) returns (w: Wait)
    ensures w.Gone? <==> Dead(r.state) || (!Connectable(r) && PollsSayGone(polls))
    ensures w.Ready? ==> (w.response == r && Connectable(r)) || PollsSayReady(polls, w.response)
    ensures w.TimedOut? ==> !Dead(r.state) && !Connectable(r) && forall x :: !PollsSayReady(polls, x)
    ensures r.state in {Failed, Terminating, Terminated} ==> w == Gone
    ensures r.state in {Active, Unspecified} && r.endpoint ==> w == Ready(r)
    ensures r.state == Creating || (r.state in {Active, Unspecified} && !r.endpoint) ==>
              && (w.Gone? <==> PollsSayGone(polls))
              && (w.Ready? ==> PollsSayReady(polls, w.response))
  {
    if Dead(r.state) {
      return Gone;
    }
    if Connectable(r) {
      return Ready(r);
    }
    w := PollForEndpoint(polls);
  }

  // ----- terminating ---------------------------------------------------------

  const MAX_POLLS := 180

  /** The replies to a TerminateSession and to the GetSession polls after it. */
  datatype Termination = Termination(rpc: Option<RpcError>, polls: nat -> Poll)

  ghost predicate StillRunning(polls: nat -> Poll, k: nat) {
    forall j: nat :: j < k ==> polls(j).Says? && !Dead(polls(j).response.state)
  }

  ghost predicate BreaksAt(polls: nat -> Poll, k: nat) {
    && StillRunning(polls, k)
    && (polls(k) == Fails(OtherError) || (polls(k).Says? && polls(k).response.state == Failed))
  }

  /** Only an unexpected error, or a session that ends up FAILED, is a failure:
      running out of polls is not. */
  ghost predicate TerminationFails(t: Termination) {
    || t.rpc == Some(OtherError)
    || (t.rpc.None? && exists k: nat :: k < MAX_POLLS && BreaksAt(t.polls, k))
  }

  /** The k-th poll is the first to say anything else than that the session is running,
      and says that it has ended, or is ending. */
  ghost predicate EndsAt(polls: nat -> Poll, k: nat) {
    && StillRunning(polls, k)
    && match polls(k)
       case Says(r) => r.state == Terminating || r.state == Terminated
       case Fails(e) => e == NotFound || e == FailedPrecondition
  }

  ghost predicate AbortsAt(polls: nat -> Poll, k: nat) {
    StillRunning(polls, k) && polls(k) == Fails(Aborted)
  }

  ghost predicate EndSeen(t: Termination) {
    || t.rpc == Some(NotFound) || t.rpc == Some(FailedPrecondition)
    || (t.rpc.None? && exists k: nat :: k < MAX_POLLS && EndsAt(t.polls, k))
  }

  /** Dataproc declines, as it does while the session is being created. */
  ghost predicate Declined(t: Termination) {
    || t.rpc == Some(Aborted)
    || (t.rpc.None? && exists k: nat :: k < MAX_POLLS && AbortsAt(t.polls, k))
  }

  /** Every poll there is time for finds the session still running. */
  ghost predicate RunsOut(t: Termination) {
    t.rpc.None? && StillRunning(t.polls, MAX_POLLS)
  }

  ghost predicate DecidesAt(polls: nat -> Poll, k: nat) {
    EndsAt(polls, k) || AbortsAt(polls, k) || BreaksAt(polls, k)
  }

  lemma {:induction false} RunningOrDecided(polls: nat -> Poll, n: nat)
    ensures StillRunning(polls, n) || exists k: nat :: k < n && DecidesAt(polls, k)
  {
    if n > 0 {
      RunningOrDecided(polls, n - 1);
      if StillRunning(polls, n - 1) && !StillRunning(polls, n) {
        assert DecidesAt(polls, n - 1);
      }
    }
  }

  /** A termination passes for done exactly when its end was seen, when Dataproc
      declined, or when the polls ran out on a session still running; and these are
      three different cases. */
  lemma DoneIffEndedOrLeft(t: Termination)
    ensures !TerminationFails(t) <==> EndSeen(t) || Declined(t) || RunsOut(t)
    ensures !(EndSeen(t) && Declined(t)) && !(EndSeen(t) && RunsOut(t)) && !(Declined(t) && RunsOut(t))
  {
    RunningOrDecided(t.polls, MAX_POLLS);
    if t.rpc.Some? {
      var e := t.rpc.value;
      assert e.NotFound? || e.FailedPrecondition? || e.Aborted? || e.OtherError?;
    }
    if StillRunning(t.polls, MAX_POLLS) {
      forall k: nat | k < MAX_POLLS
        ensures !EndsAt(t.polls, k) && !AbortsAt(t.polls, k) && !BreaksAt(t.polls, k)
      {
        assert t.polls(k).Says? && !Dead(t.polls(k).response.state);
      }
    } else {
      var k: nat :| k < MAX_POLLS && DecidesAt(t.polls, k);
      OneDecides(t.polls, k);
      forall j: nat | EndsAt(t.polls, j) || AbortsAt(t.polls, j) || BreaksAt(t.polls, j)
        ensures j == k
      {
        assert DecidesAt(t.polls, j);
      }
      assert EndsAt(t.polls, k) || AbortsAt(t.polls, k) || BreaksAt(t.polls, k);
    }
  }

  /** A session that stays ACTIVE through all polls, and one that is still being
      created, count as terminated; that it FAILED counts in the 180th poll, and is not
      seen in the 181st. */
  lemma LeftRunningButDone()
    ensures
      var failsAt := (n: nat) => Termination(None, k => Says(Response(if k < n then Active else Failed, true, "")));
      TerminationFails(failsAt(179)) && !TerminationFails(failsAt(180)) && RunsOut(failsAt(180))
    ensures
      var active := Termination(None, k => Says(Response(Active, true, "")));
      var creating := Termination(Some(Aborted), active.polls);
      && !TerminationFails(active) && !EndSeen(active) && RunsOut(active)
      && !TerminationFails(creating) && !EndSeen(creating) && Declined(creating)
  {
    assert BreaksAt(k => Says(Response(if k < 179 then Active else Failed, true, "")), 179);
  }

  // ----- the class -----------------------------------------------------------

  type Ref = nat

  type Thread = nat

  datatype Builder = Builder(custom: Option<string>, project: Option<string>, region: Option<string>,
                             endpoint: Option<string>)

  /** The class-level description of the server session. */
  datatype Server = Server(id: Option<string>, uuid: Option<string>, custom: bool, project: Option<string>,
                           region: Option<string>, endpoint: Option<string>)

  const NO_SERVER := Server(None, None, false, None, None, None)

  /** The session objects of this process: the default one, each thread's active
      one, those with an open client, and the server session each talks to. */
  datatype Local = Local(default: Option<Ref>, active: map<Thread, Ref>, open: set<Ref>, next: Ref,
                         attached: map<Ref, string>)

  ghost predicate WellFormed(l: Local) {
    && (forall s: Ref :: s in l.open ==> s < l.next)
    && (forall s: Ref :: s in l.attached <==> s < l.next)
    && (l.default.Some? ==> l.default.value < l.next)
    && (forall t: Thread :: t in l.active ==> l.active[t] < l.next)
  }

  /** The default session is open and talks to the server session of this name, and
      no thread has another active session. */
  ghost predicate Aligned(name: Option<string>, l: Local) {
    && (l.default.Some? ==> l.default.value in l.open)
    && (l.default.Some? ==> l.default.value in l.attached && name == Some(l.attached[l.default.value]))
    && (forall t: Thread :: t in l.active ==> l.default == Some(l.active[t]))
  }

  /** Another thread has `s` as its active session. */
  ghost predicate ActiveElsewhere(l: Local, s: Ref, t: Thread) {
    exists u: Thread :: u in l.active && u != t && l.active[u] == s
  }

  ghost predicate Alone(l: Local, t: Thread) {
    forall u: Thread :: u in l.active ==> u == t
  }

  /** The session a thread would go on with. */
  function Existing(l: Local, t: Thread): Option<Ref> {
    if t in l.active then Some(l.active[t]) else l.default
  }

  /** Thread `t` has closed `s`. */
  function Without(l: Local, s: Ref, t: Thread): Local {
    l.(default := if l.default == Some(s) then None else l.default,
       active := if t in l.active && l.active[t] == s then l.active - {t} else l.active,
       open := l.open - {s})
  }

  /** Thread `t` has opened a session to the server session of this name, which is the
      default from then on. */
  function With(l: Local, t: Thread, name: string): Local {
    l.(default := Some(l.next),
       active := if t in l.active then l.active else l.active[t := l.next],
       open := l.open + {l.next},
       next := l.next + 1,
       attached := l.attached[l.next := name])
  }

  /** Stopping keeps the sessions aligned exactly when it does not stop the default
      session while that is active in another thread, which goes on using it. */
  lemma StopKeepsAligned(name: Option<string>, l: Local, s: Ref, t: Thread)
    requires WellFormed(l) && Aligned(name, l) && s < l.next
    ensures
      Aligned(if l.default == Some(s) then None else name, Without(l, s, t))
      <==> !(l.default == Some(s) && ActiveElsewhere(l, s, t))
    ensures Alone(l, t) ==> !ActiveElsewhere(l, s, t) && Alone(Without(l, s, t), t)
    ensures forall u: Thread, v: Thread, other :: u in l.active && u != t && l.active[u] == s ==>
              var m := With(Without(l, s, t), v, other);
              Existing(m, u) == Some(s) && s !in m.open
  {
    var m := Without(l, s, t);
    if l.default == Some(s) && ActiveElsewhere(l, s, t) {
      var u: Thread :| u in l.active && u != t && l.active[u] == s;
      assert u in m.active;
    }
  }

  lemma KeepsWellFormed(l: Local, s: Ref, t: Thread, name: string)
    requires WellFormed(l)
    ensures WellFormed(Without(l, s, t)) && WellFormed(With(l, t, name))
  {
  }

  lemma KnownExisting(name: Option<string>, l: Local, t: Thread)
    requires WellFormed(l)
    ensures Existing(l, t).Some? ==> Existing(l, t).value < l.next
    ensures l.default.Some? ==> l.default.value < l.next
    ensures Aligned(name, l) ==> Existing(l, t) == l.default
    ensures Aligned(name, l) && l.default.None? ==> forall x :: Aligned(x, l)
    ensures Aligned(name, l) && Alone(l, t) && l.default.Some? ==>
      var m := Without(l, l.default.value, t);
      && (forall x :: Aligned(x, m))
      && Alone(m, t) && !ActiveElsewhere(l, l.default.value, t)
  {
  }

  lemma MakeDefault(name: Option<string>, l: Local, s: Ref)
    requires WellFormed(l) && s < l.next
    ensures WellFormed(l.(default := Some(s)))
    ensures l.default == Some(s) && Aligned(name, l) ==> s in l.open && s in l.attached && name == Some(l.attached[s])
  {
  }

  /** With no default session the class may describe any server session, and
      opening a session to that one leaves the sessions aligned. */
  lemma ConnectAligns(before: Option<string>, l: Local, t: Thread, name: string)
    requires WellFormed(l) && Aligned(before, l) && l.default.None?
    ensures (forall x :: Aligned(x, l)) && Alone(l, t)
    ensures Aligned(Some(name), With(l, t, name)) && Alone(With(l, t, name), t)
  {
    assert l.active == map[];
  }

  function SessionName(project: Option<string>, region: Option<string>, id: string): (name: string)
    ensures name != ""
  {
    "projects/" + (if project.Some? then project.value else "None")
    + "/locations/" + (if region.Some? then region.value else "None") + "/sessions/" + id
  }

  /** The parts of a name between its slashes. */
  function Parts(s: string): (parts: seq<string>)
    ensures parts != []
  {
    if s == [] then [[]]
    else
      var rest := Parts(s[1..]);
      if s[0] == '/' then [[]] + rest else [[s[0]] + rest[0]] + rest[1..]
  }

  lemma {:induction false} PartsOfSlashed(head: string, rest: string)
    requires '/' !in head
    ensures Parts(head + "/" + rest) == [head] + Parts(rest)
  {
    if head == [] {
      assert (head + "/" + rest)[1..] == rest;
    } else {
      assert (head + "/" + rest)[1..] == head[1..] + "/" + rest;
      PartsOfSlashed(head[1..], rest);
      assert [head[0]] + head[1..] == head;
    }
  }

  lemma {:induction false} PartsOfPlain(s: string)
    requires '/' !in s
    ensures Parts(s) == [s]
  {
    if s != [] {
      PartsOfPlain(s[1..]);
      assert [s[0]] + s[1..] == s;
    }
  }

  /** Round trip: the project, the region and the id can be read off the name again. */
  lemma NameParts(project: string, region: string, id: string)
    requires '/' !in project && '/' !in region && '/' !in id
    ensures Parts(SessionName(Some(project), Some(region), id))
            == ["projects", project, "locations", region, "sessions", id]
  {
    hide Parts;
    var sessions := "sessions" + "/" + id;
    var locations := "locations" + "/" + (region + "/" + sessions);
    PartsOfPlain(id);
    PartsOfSlashed("sessions", id);
    PartsOfSlashed(region, sessions);
    PartsOfSlashed("locations", region + "/" + sessions);
    PartsOfSlashed(project, locations);
    PartsOfSlashed("projects", project + "/" + locations);
    assert SessionName(Some(project), Some(region), id) == "projects" + "/" + (project + "/" + locations);
  }

  function NameOf(v: Server): string
    requires v.id.Some?
  {
    SessionName(v.project, v.region, v.id.value)
  }

  /** The name of the server session the class describes: the one stop() would
      terminate. */
  function Described(v: Server): Option<string> {
    if v.id.Some? then Some(NameOf(v)) else None
  }

  function NameIn(b: Builder, id: string): string {
    SessionName(b.project, b.region, id)
  }

  function KeyIn(b: Builder, id: string): L.Key {
    L.Key(NameIn(b, id), b.endpoint)
  }

  /** One try at starting a session: the replies it gets, and what other threads
      do to the cache before its own look at it and during its GetSession. */
  datatype Attempt = Attempt(valid: bool, generated: string, created: Option<Response>, polls: seq<Poll>,
                             cleanup: Termination, connects: bool, firstRpc: bool, before: seq<L.Event>,
                             during: seq<L.Event>, check: Poll, at: real)

  /** The builder is complete and names no session. */
  predicate Unnamed(b: Builder) {
    b.project.Some? && b.region.Some? && b.custom.None?
  }

  function IdOf(b: Builder, a: Attempt): string {
    if b.custom.Some? then b.custom.value else a.generated
  }

  function NameFor(b: Builder, a: Attempt): string {
    NameIn(b, IdOf(b, a))
  }

  /** Dataproc reported the session of this try gone, in its own replies or in
      the cache at `moment`. */
  ghost predicate ReportedGone(b: Builder, a: Attempt, moment: seq<L.Event>) {
    || (a.created.Some? && Dead(a.created.value.state))
    || (a.created.Some? && !Connectable(a.created.value) && PollsSayGone(a.polls))
    || (!a.firstRpc && L.ReportedGone(moment, KeyIn(b, IdOf(b, a))))
  }

  /** Everything goes well at the first try. */
  predicate Starts(a: Attempt) {
    a.valid && a.created.Some? && Connectable(a.created.value) && a.connects && a.firstRpc
  }

  /** Dataproc's replies to the creation say that the session is gone. */
  ghost predicate RepliesGone(a: Attempt) {
    && a.valid && a.created.Some?
    && (Dead(a.created.value.state) || (!Connectable(a.created.value) && PollsSayGone(a.polls)))
  }

  /** The session this try created is one to give up: it has a generated id, and the
      wait for its endpoint ran out with no reply that it is gone. */
  ghost predicate NeverReady(b: Builder, a: Attempt) {
    && b.custom.None? && a.valid && a.created.Some?
    && !Dead(a.created.value.state) && !Connectable(a.created.value)
    && !PollsSayGone(a.polls) && forall x :: !PollsSayReady(a.polls, x)
  }

  /** The TerminateSession calls of one try. */
  ghost function GivenUp(b: Builder, a: Attempt): seq<string> {
    if NeverReady(b, a) then [NameIn(b, a.generated)] else []
  }

  datatype Made = Made(session: Ref) | StartFailed | Error

  /** The session to go on with, none, or what is raised instead. */
  datatype Found = Reuse(session: Ref) | NeedsNew | Raises(how: Made)

  /** The name of a session whose id this process generated. */
  ghost predicate OfGenerated(name: string, generated: set<string>) {
    exists id, project, region :: id in generated && name == SessionName(project, region, id)
  }

  /** What getOrCreate sees: the reply about the session the builder names, the one
      about the session to reuse, and the tries at creating one. */
  datatype World = World(existing: Poll, reply: Poll, polls: seq<Poll>, connects: bool,
                         ending: Termination, retries: nat, attempts: nat -> Attempt, at: real)

  class ManagedSession {
    const cache: L.LivenessCache
    var server: Server
    var sessions: Local
    /** The ids generated, and the CreateSession and TerminateSession calls made,
        so far. */
    ghost var generated: set<string>
    ghost var creates: seq<string>
    ghost var terminations: seq<string>

    ghost predicate Valid()
      reads this, cache
    {
      && cache.Valid() && (server.custom ==> server.id.Some?) && WellFormed(sessions)
      && (server.id.Some? && !server.custom ==> server.id.value in generated)
    }

    ghost predicate InStep()
      reads this
    {
      Aligned(Described(server), sessions)
    }

    constructor (cache: L.LivenessCache)
      requires cache.Valid()
      ensures this.cache == cache && Valid() && InStep()
      ensures server == NO_SERVER && sessions.default.None? && creates == [] && terminations == []
    {
      this.cache := cache;
      server := NO_SERVER;
      sessions := Local(None, map[], {}, 0, map[]);
      creates, terminations, generated := [], [], {};
    }

    /** TerminateSession, then GetSession until the session has ended. */
    method TerminateServer(key: L.Key, t: Termination, at: real) returns (ok: bool, polls: nat)
      requires cache.Valid()
      modifies this`terminations, cache
      ensures cache.Valid() && cache.trace == old(cache.trace) + [L.Terminated(key, "terminated", at)]
      ensures terminations == old(terminations) + [key.name]
      ensures ok <==> !TerminationFails(t)
      ensures t.rpc.Some? ==> ok == (t.rpc.value != OtherError)
      ensures ok <==> EndSeen(t) || Declined(t) || RunsOut(t)
      ensures polls <= MAX_POLLS && (t.rpc.Some? ==> polls == 0)
    {
      hide L.Replay, L.Apply, EndsAt, AbortsAt, EndSeen, Declined, RunsOut;
      DoneIffEndedOrLeft(t);
      cache.Do(L.Terminated(key, "terminated", at));
      terminations := terminations + [key.name];
      polls := 0;
      if t.rpc.Some? {
        return t.rpc.value != OtherError, 0;
      }
      var state := Active;
      while !Dead(state) && polls < MAX_POLLS
        invariant polls <= MAX_POLLS
        invariant !Dead(state) ==> StillRunning(t.polls, polls)
        invariant Dead(state) ==> polls > 0 && StillRunning(t.polls, polls - 1)
        invariant Dead(state) ==> t.polls(polls - 1).Says? && t.polls(polls - 1).response.state == state
        decreases MAX_POLLS - polls
      {
        var reply := t.polls(polls);
        polls := polls + 1;
        if reply.Fails? {
          OneDecides(t.polls, polls - 1);
          ok := reply.error != OtherError;
          assert BreaksAt(t.polls, polls - 1) <==> !ok;
          return;
        }
        state := reply.response.state;
      }
      ok := state != Failed;
      if Dead(state) {
        OneDecides(t.polls, polls - 1);
        assert BreaksAt(t.polls, polls - 1) <==> !ok;
      } else {
        assert forall k: nat :: k < MAX_POLLS ==> t.polls(k).Says? && !Dead(t.polls(k).response.state);
      }
    }

    /** The part of stop() that can fail, and can then be tried again. */
    method TerminateServerSession(terminate: Option<bool>, t: Termination, at: real) returns (ok: bool)
      requires Valid()
      modifies this`terminations, cache
      ensures Valid() && old(cache.trace) <= cache.trace
      ensures
        var asked := server.id.Some? && (if terminate.Some? then terminate.value else !server.custom);
        && (ok <==> !(asked && TerminationFails(t)))
        && (ok <==> !asked || EndSeen(t) || Declined(t) || RunsOut(t))
        && terminations == old(terminations)
                           + if asked then [NameOf(server)] else []
      ensures !ok ==> cache.entries == map[]
    {
      hide L.Replay, TerminationFails, EndSeen, Declined, RunsOut, WellFormed, SessionName;
      if server.id.None? {
        return true;
      }
      var should := if terminate.Some? then terminate.value else !server.custom;
      if !should {
        return true;
      }
      var polls;
      var name := NameOf(server);
      ok, polls := TerminateServer(L.Key(name, server.endpoint), t, at);
      if !ok {
        L.ReplayOneMore(cache.trace, L.ForgotAll);
        cache.Do(L.ForgotAll);
      }
    }

    method Forget()
      requires Valid()
      modifies this`server, cache
      ensures Valid() && server == NO_SERVER
      ensures cache.trace == old(cache.trace) + [L.ForgotAll] && cache.entries == map[]
    {
      hide L.Replay;
      L.ReplayOneMore(cache.trace, L.ForgotAll);
      server := server.(uuid := None, id := None, custom := false);
      server := server.(project := None, region := None, endpoint := None);
      cache.Do(L.ForgotAll);
    }

    /** Stops `s` on thread `t`. */
    method Stop(s: Ref, t: Thread, terminate: Option<bool>, run: Termination, at: real) returns (ok: bool)
      requires Valid() && s < sessions.next
      modifies this, cache
      ensures Valid() && old(cache.trace) <= cache.trace && creates == old(creates) && generated == old(generated)
      // Another session than the default one: only its client is closed.
      ensures old(sessions).default != Some(s) ==> ok && server == old(server) && terminations == old(terminations)
      // The default session: terminated iff asked to, by default iff its id was generated.
      ensures
        var asked := old(sessions).default == Some(s) && old(server).id.Some?
                     && (if terminate.Some? then terminate.value else !old(server).custom);
        && (ok <==> !(asked && TerminationFails(run)))
        && (ok <==> !asked || EndSeen(run) || Declined(run) || RunsOut(run))
        && terminations == old(terminations)
                           + if asked then [NameOf(old(server))] else []
      // A failed termination leaves everything for another stop().
      ensures !ok ==> server == old(server) && sessions == old(sessions)
      ensures ok ==> sessions == Without(old(sessions), s, t)
      // The session is closed, and neither the default one nor active in this thread.
      ensures ok ==>
        && sessions.open == old(sessions).open - {s} && sessions.default != Some(s)
        && (old(sessions).default != Some(s) ==> sessions.default == old(sessions).default)
        && (t in sessions.active ==> sessions.active[t] != s)
        && forall u :: u in old(sessions).active && (u != t || old(sessions).active[u] != s) ==>
             u in sessions.active && sessions.active[u] == old(sessions).active[u]
      ensures ok && old(sessions).default == Some(s) ==> server == NO_SERVER
      // Either way no verdict about it stays in the cache.
      ensures old(sessions).default == Some(s) ==> cache.entries == map[]
      ensures ok && old(InStep()) ==>
                (InStep() <==> !(old(sessions).default == Some(s) && ActiveElsewhere(old(sessions), s, t)))
      ensures old(InStep()) && Alone(old(sessions), t) ==> InStep() && Alone(sessions, t)
    {
      hide L.Replay, L.Apply, WellFormed, Aligned, Alone, ActiveElsewhere, SessionName;
      hide TerminationFails, EndSeen, Declined, RunsOut;
      ghost var l := sessions;
      KeepsWellFormed(l, s, t, "");
      if InStep() {
        StopKeepsAligned(Described(server), l, s, t);
      }
      var isDefault := sessions.default == Some(s);
      if isDefault {
        ok := TerminateServerSession(terminate, run, at);
        if !ok {
          return;
        }
      }
      ok := true;
      if isDefault {
        Forget();
      }
      sessions := sessions.(open := sessions.open - {s});
      if isDefault {
        sessions := sessions.(default := None);
      }
      if t in sessions.active && sessions.active[t] == s {
        sessions := sessions.(active := sessions.active - {t});
      }
    }

    /** Connects a new session object to the server session `id`. */
    method Connect(b: Builder, t: Thread, id: string, uuid: string, connects: bool, at: real) returns (s: Option<Ref>)
      requires Valid()
      modifies this`server, this`sessions, cache
      ensures Valid() && old(cache.trace) <= cache.trace
      ensures server == old(server).(uuid := Some(uuid), project := b.project, region := b.region,
                                     endpoint := b.endpoint)
      ensures s == if connects then Some(old(sessions).next) else None
      ensures sessions == if connects then With(old(sessions), t, NameIn(b, id)) else old(sessions)
      ensures
        var marked := L.Marked(L.Key(SessionName(b.project, b.region, id), b.endpoint), at);
        cache.trace == old(cache.trace) + [marked, marked]
      // The new session is the default one, and active where no other was.
      ensures connects ==>
        && sessions.default == s && sessions.open == old(sessions).open + {s.value}
        && (forall u :: u in old(sessions).active ==>
              u in sessions.active && sessions.active[u] == old(sessions).active[u])
        && (t !in old(sessions).active ==> t in sessions.active && sessions.active[t] == s.value)
        && (forall u :: u in sessions.active ==> u in old(sessions).active || u == t)
    {
      hide L.Replay, L.Apply, WellFormed, SessionName;
      KeepsWellFormed(sessions, 0, t, NameIn(b, id));
      server := server.(uuid := Some(uuid), project := b.project, region := b.region, endpoint := b.endpoint);
      cache.Do(L.Marked(KeyIn(b, id), at));
      cache.Do(L.Marked(KeyIn(b, id), at));
      if !connects {
        return None;
      }
      s := Some(sessions.next);
      sessions := sessions.(next := s.value + 1, open := sessions.open + {s.value},
                            attached := sessions.attached[s.value := NameIn(b, id)], default := s);
      if t !in sessions.active {
        sessions := sessions.(active := sessions.active[t := s.value]);
      }
    }

    method ForgetId()
      modifies this`server
      ensures server == old(server).(id := None, custom := false)
    {
      server := server.(id := None, custom := false);
    }

    /** Whether a new session whose first RPC failed is reported gone. */
    method CheckNewSession(key: L.Key, a: Attempt) returns (dead: bool)
      requires cache.Valid()
      modifies cache
      ensures cache.Valid() && old(cache.trace) <= cache.trace
      ensures dead ==> !a.firstRpc && L.ReportedGone(cache.trace, key)
      ensures dead <==> && !a.firstRpc
                        && ( || L.ReportedGone(old(cache.trace) + a.before, key)
                             || a.check == Fails(NotFound)
                             || (a.check.Says? && a.check.response.state !in {Active, Creating}))
    {
      if a.firstRpc {
        return false;
      }
      cache.Interfere(a.before);
      var detail, asked := cache.DeadSessionDetail(key, a.during, AnswerOf(a.check), a.at);
      dead := detail.Some?;
    }

    /** Connects to a session just created, and gives it up if it is dead. */
    method UseNewSession(b: Builder, t: Thread, id: string, uuid: string, a: Attempt)
      returns (r: Made, ghost moment: seq<L.Event>)
      requires Valid() && server.id == Some(id)
      modifies this, cache
      ensures Valid() && old(cache.trace) <= moment <= cache.trace
      ensures terminations == old(terminations) && creates == old(creates) && generated == old(generated)
      ensures old(sessions).next <= sessions.next
      ensures a.connects && a.firstRpc ==> r.Made?
      ensures r.Error? <==> !a.connects
      ensures
        var gone := a.check == Fails(NotFound) || (a.check.Says? && a.check.response.state !in {Active, Creating});
        a.connects && !a.firstRpc && gone ==> r.StartFailed?
      ensures r.StartFailed? ==> server == NO_SERVER && !a.firstRpc && L.ReportedGone(moment, KeyIn(b, id))
      ensures r.Made? ==>
        && server == old(server).(uuid := Some(uuid), project := b.project, region := b.region, endpoint := b.endpoint)
        && r.session == old(sessions).next && sessions == With(old(sessions), t, NameIn(b, id))
        && sessions.default == Some(r.session) && r.session in sessions.open
        && r.session in sessions.attached && sessions.attached[r.session] == NameIn(b, id)
      ensures old(sessions).default.None? && old(InStep()) ==>
                InStep() && Alone(sessions, t) && (!r.Made? ==> sessions.default.None?)
    {
      hide L.Replay, L.Apply, L.ReportedGone, TerminationFails, SessionName;
      hide WellFormed, Aligned, Alone, ActiveElsewhere;
      if sessions.default.None? && InStep() {
        ConnectAligns(Described(server), sessions, t, NameIn(b, id));
        KeepsWellFormed(sessions, 0, t, NameIn(b, id));
        KnownExisting(Some(NameIn(b, id)), With(sessions, t, NameIn(b, id)), t);
      }
      var s := Connect(b, t, id, uuid, a.connects, a.at);
      moment := cache.trace;
      if s.None? {
        return Error, moment;
      }
      var dead := CheckNewSession(KeyIn(b, id), a);
      moment := cache.trace;
      if dead {
        var ok := Stop(s.value, t, Some(false), a.cleanup, a.at);
        return StartFailed, moment;
      }
      r := Made(s.value);
    }

    /** Tries to terminate a session that never got an endpoint, unless the caller
        named it. */
    method GiveUp(b: Builder, id: string, a: Attempt)
      requires cache.Valid()
      modifies this`terminations, cache
      ensures cache.Valid() && old(cache.trace) <= cache.trace
      ensures terminations == old(terminations) + if b.custom.None? then [NameIn(b, id)] else []
    {
      if b.custom.None? {
        var ok, polls := TerminateServer(KeyIn(b, id), a.cleanup, a.at);
      }
    }

    /** The server session of one try, once it can be connected to, or how the try
        failed. */
    method CreateServer(b: Builder, a: Attempt) returns (response: Option<Response>, failed: Made)
      requires Valid()
      modifies this`server, this`generated, this`creates, this`terminations, cache
      ensures Valid() && old(cache.trace) <= cache.trace
      ensures creates == old(creates) + if a.valid then [IdOf(b, a)] else []
      ensures generated == old(generated) + if a.valid && b.custom.None? then {a.generated} else {}
      ensures terminations == old(terminations) + GivenUp(b, a)
      ensures NeverReady(b, a) ==> response.None? && failed.Error? && a.generated in generated
      ensures response.Some? ==> a.valid && server == old(server).(id := Some(IdOf(b, a)), custom := b.custom.Some?)
      ensures response.None? ==> !failed.Made? && (if a.valid then server.id.None? else server == old(server))
      ensures response.None? && failed.StartFailed? <==> RepliesGone(a)
      ensures a.valid && a.created.Some? && Connectable(a.created.value) ==> response.Some?
    {
      hide L.Replay, L.Apply, PollsSayGone, PollsSayReady, TerminationFails, SessionName, NameIn, KeyIn, WellFormed;
      response, failed := None, Error;
      if !a.valid {
        return;
      }
      var id := IdOf(b, a);
      server := server.(id := Some(id), custom := b.custom.Some?);
      generated := generated + if b.custom.None? then {id} else {};
      creates := creates + [id];
      if a.created.None? {
        ForgetId();
        return;
      }
      var w := CheckCreatedSession(a.created.value, a.polls);
      match w {
        case Ready(r) => response := Some(r);
        case Gone =>
          ForgetId();
          failed := StartFailed;
        case TimedOut =>
          ForgetId();
          GiveUp(b, id, a);
      }
    }

    /** One try at starting a session. */
    method Create(b: Builder, t: Thread, a: Attempt) returns (r: Made, ghost moment: seq<L.Event>)
      requires Valid()
      modifies this, cache
      ensures Valid() && old(cache.trace) <= moment <= cache.trace
      ensures creates == old(creates) + if a.valid then [IdOf(b, a)] else []
      ensures generated == old(generated) + if a.valid && b.custom.None? then {a.generated} else {}
      ensures old(sessions).next <= sessions.next
      ensures (Starts(a) ==> r.Made?) && (RepliesGone(a) ==> r.StartFailed?)
      ensures r.Made? ==> sessions == With(old(sessions), t, NameFor(b, a)) && r.session == old(sessions).next
      ensures terminations == old(terminations) + GivenUp(b, a)
      ensures NeverReady(b, a) ==> r.Error? && a.generated in generated
      // Terminated: a session with a generated id that is neither dead nor connectable,
      // and of which no reply says that it is gone or ready.
      ensures
        terminations == old(terminations) +
          if && b.custom.None? && a.valid && a.created.Some?
             && !(a.created.value.state in {Failed, Terminating, Terminated})
             && !(a.created.value.state in {Active, Unspecified} && a.created.value.endpoint)
             && !PollsSayGone(a.polls) && forall x :: !PollsSayReady(a.polls, x)
          then [SessionName(b.project, b.region, a.generated)] else []
      ensures r.StartFailed? ==> ReportedGone(b, a, moment) && server.id.None? && terminations == old(terminations)
      ensures r.Made? ==>
        && server.id == Some(IdOf(b, a)) && server.custom == b.custom.Some? && sessions.default == Some(r.session)
        && r.session in sessions.open && sessions.attached[r.session] == NameFor(b, a)
        && old(sessions).next <= r.session
        && terminations == old(terminations)
        && server.project == b.project && server.region == b.region
      ensures old(sessions).default.None? && old(InStep()) ==>
                InStep() && Alone(sessions, t) && (!r.Made? ==> sessions.default.None?)
    {
      hide L.Replay, L.Apply, L.ReportedGone, PollsSayGone, TerminationFails, SessionName, KeyIn;
      hide WellFormed, Aligned, Alone, With;
      moment := cache.trace;
      if sessions.default.None? && InStep() {
        ConnectAligns(Described(server), sessions, t, NameFor(b, a));
      }
      var response;
      response, r := CreateServer(b, a);
      if response.Some? {
        r, moment := UseNewSession(b, t, IdOf(b, a), response.value.uuid, a);
      }
    }

    /** Tries again while the session of the last try never started: `n` tries,
        with `ids` the class-level id at the start of each and `moments` the
        history of the cache when its outcome was known. */
    method CreateWithRetries(b: Builder, t: Thread, retries: nat, attempts: nat -> Attempt)
      returns (r: Made, ghost n: nat, ghost ids: seq<Option<string>>, ghost moments: seq<seq<L.Event>>)
      requires Valid()
      modifies this, cache
      ensures Valid() && old(cache.trace) <= cache.trace
      ensures 1 <= n == |ids| == |moments|
      ensures n <= (if b.custom.Some? then 0 else retries) + 1
      ensures |creates| <= |old(creates)| + n && old(creates) <= creates
      ensures old(sessions).next <= sessions.next && (r.Made? ==> old(sessions).next <= r.session)
      ensures forall i :: 0 <= i < n ==> old(cache.trace) <= moments[i] <= cache.trace
      ensures forall i :: 0 <= i < n - 1 ==> ReportedGone(b, attempts(i), moments[i])
      ensures forall i :: 0 < i < n ==> ids[i].None?
      ensures Starts(attempts(0)) ==>
        && r.Made? && r.session == old(sessions).next
        && sessions == With(old(sessions), t, NameFor(b, attempts(0)))
      ensures r.StartFailed? ==>
        && ReportedGone(b, attempts(n - 1), moments[n - 1])
        && n == (if b.custom.Some? then 0 else retries) + 1
      ensures old(generated) <= generated
      ensures terminations == old(terminations) + GivenUp(b, attempts(n - 1))
      ensures NeverReady(b, attempts(n - 1)) ==> r.Error? && b.custom.None? && attempts(n - 1).generated in generated
      ensures r.Made? ==>
        && terminations == old(terminations)
        && server.id == Some(IdOf(b, attempts(n - 1))) && server.custom == b.custom.Some?
        && sessions.default == Some(r.session) && r.session in sessions.open
        && sessions.attached[r.session] == NameFor(b, attempts(n - 1))
      ensures old(sessions).default.None? && old(InStep()) ==>
                InStep() && Alone(sessions, t) && (!r.Made? ==> sessions.default.None?)
    {
      hide ReportedGone, WellFormed, Aligned;
      var budget := if b.custom.Some? then 0 else retries;
      var attempt := 1;
      n, ids, moments := 0, [], [];
      while true
        invariant Valid() && old(cache.trace) <= cache.trace
        invariant n == attempt - 1 == |ids| == |moments| && attempt <= budget + 1
        invariant |creates| <= |old(creates)| + n && old(creates) <= creates && old(sessions).next <= sessions.next
        invariant forall i :: 0 <= i < n ==> old(cache.trace) <= moments[i] <= cache.trace
        invariant forall i :: 0 <= i < n ==> ReportedGone(b, attempts(i), moments[i])
        invariant forall i :: 0 < i < n ==> ids[i].None?
        invariant n > 0 ==> server.id.None? && !Starts(attempts(0))
        invariant n == 0 ==> sessions == old(sessions)
        invariant terminations == old(terminations) && old(generated) <= generated
        invariant old(sessions).default.None? && old(InStep()) ==> InStep() && sessions.default.None?
        decreases budget - attempt
      {
        ghost var moment;
        ids := ids + [server.id];
        r, moment := Create(b, t, attempts(attempt - 1));
        moments, n := moments + [moment], n + 1;
        if !r.StartFailed? || attempt > budget {
          return;
        }
        attempt := attempt + 1;
      }
    }

    /** Makes the server session the builder names the one the class describes, if
        it is usable; any other one is left running. */
    method HandleCustomSessionId(b: Builder, t: Thread, w: World) returns (response: Option<Response>)
      requires Valid() && b.custom.Some?
      modifies this, cache
      ensures Valid() && old(cache.trace) <= cache.trace
      ensures terminations == old(terminations) && creates == old(creates) && generated == old(generated)
      ensures server.id == (if Usable(w.existing).Some? then b.custom else None) && server.custom == server.id.Some?
      ensures response == if w.existing.Says? && w.existing.response.state == Active
                          then Some(w.existing.response) else None
      ensures response.Some? ==>
                cache.trace != [] && Last(cache.trace) == L.Marked(KeyIn(b, b.custom.value), w.at)
      ensures old(InStep()) && Alone(old(sessions), t) ==> InStep() && Alone(sessions, t)
      ensures old(InStep()) && Alone(old(sessions), t) && server.id.None? ==> sessions.default.None?
      // A session object is kept only while it is to this very server session.
      ensures
        var found := Existing(old(sessions), t);
        var same := && w.existing.Says? && w.existing.response.state in {Active, Creating}
                    && old(server).id == b.custom && old(server).uuid == Some(w.existing.response.uuid);
        if found.None? || same then sessions == old(sessions) && server.uuid == old(server).uuid
        else (sessions == Without(old(sessions), found.value, t)
              && found.value !in sessions.open && Existing(sessions, t) != found)
    {
      hide L.Replay, L.Apply, WellFormed, Aligned, Alone, ActiveElsewhere, SessionName, TerminationFails;
      var existing := Existing(sessions, t);
      KnownExisting(Described(server), sessions, t);
      var found := Usable(w.existing);
      response := None;
      if found.Some? {
        if existing.Some? && (server.id != b.custom || server.uuid != Some(found.value.uuid)) {
          var ok := Stop(existing.value, t, Some(false), w.ending, w.at);
        }
        if found.value.state == Active {
          response := found;
          cache.Do(L.Marked(KeyIn(b, b.custom.value), w.at));
        }
        server := server.(id := b.custom);
        server := server.(custom := true);
      } else {
        if existing.Some? {
          var ok := Stop(existing.value, t, Some(false), w.ending, w.at);
        }
        ForgetId();
      }
    }

    /** The session to reuse for the server session the class describes. */
    method GetExisting(b: Builder, t: Thread, w: World, custom: Option<Response>) returns (f: Found)
      requires Valid() && (custom.Some? ==> server.id.Some? && custom.value.state == Active)
      modifies this, cache
      ensures Valid() && old(cache.trace) <= cache.trace && creates == old(creates) && generated == old(generated)
      // The default session is terminated when it is gone and its id was generated.
      ensures
        var found := Existing(old(sessions), t);
        terminations == old(terminations) +
          if && custom.None? && GoneBy(w.reply) && old(server).id.Some? && !old(server).custom
             && found.Some? && found == old(sessions).default
          then [NameOf(old(server))] else []
      ensures custom.None? && old(server).id.Some? && !GoneBy(w.reply) && Existing(old(sessions), t).Some? ==>
                f == Reuse(Existing(old(sessions), t).value) && server == old(server) && sessions == old(sessions)
      ensures custom.None? && (old(server).id.None? || GoneBy(w.reply)) ==> !f.Reuse?
      ensures old(server).id.None? && old(sessions).default.None? ==> f.NeedsNew? && sessions == old(sessions)
      ensures f.Reuse? ==> f.session < sessions.next && old(server).id.Some?
      ensures old(sessions).next <= sessions.next
      ensures f.Reuse? ==> server.id == old(server).id && server.custom == old(server).custom
      ensures f.Raises? ==> !f.how.Made?
      // What can neither be checked nor reused is not replaced.
      ensures custom.None? && old(server).id.Some? && w.reply.Fails? && w.reply.error != NotFound
              && Existing(old(sessions), t).None? ==>
                f == Raises(Error) && server == old(server) && sessions == old(sessions)
      ensures old(InStep()) && Alone(old(sessions), t) ==>
                && InStep() && Alone(sessions, t)
                && (f.Reuse? ==> sessions.default == Some(f.session))
                && (f.NeedsNew? ==> sessions.default.None?)
    {
      hide L.Replay, L.Apply, WellFormed, Aligned, Alone, ActiveElsewhere, SessionName, TerminationFails;
      KnownExisting(Described(server), sessions, t);
      if server.id.None? {
        if sessions.default.Some? {
          var ok := Stop(sessions.default.value, t, None, w.ending, w.at);
        }
        return NeedsNew;
      }
      var id := server.id.value;
      var existing := Existing(sessions, t);
      var response := custom;
      if custom.None? {
        var usable := cache.Ask(KeyIn(b, id), AnswerOf(w.reply), w.at);
        if usable.None? {
          return if existing.Some? then Reuse(existing.value) else Raises(Error);
        }
        response := if usable.value then Some(w.reply.response) else None;
      }
      if response.Some? {
        if existing.None? {
          f := Reattach(b, t, w, id, response.value);
          return;
        }
        return Reuse(existing.value);
      }
      if existing.Some? {
        var ok := Stop(existing.value, t, None, w.ending, w.at);
        if !ok {
          return Raises(Error);
        }
      }
      f := NeedsNew;
    }

    method Reattach(b: Builder, t: Thread, w: World, id: string, response: Response) returns (f: Found)
      requires Valid() && server.id == Some(id) && sessions.default.None?
      modifies this, cache
      ensures Valid() && old(cache.trace) <= cache.trace
      ensures creates == old(creates) && terminations == old(terminations) && generated == old(generated)
      ensures server.id == old(server).id && server.custom == old(server).custom
      ensures f.Reuse? || (f.Raises? && !f.how.Made?)
      ensures f.Reuse? <==> w.connects && (Connectable(response) || exists x :: PollsSayReady(w.polls, x))
      ensures f == Raises(StartFailed) <==> !Connectable(response) && PollsSayGone(w.polls)
      ensures old(sessions).next <= sessions.next
      ensures f.Reuse? ==> f.session < sessions.next && sessions.default == Some(f.session)
      ensures old(InStep()) ==> InStep() && Alone(sessions, t)
    {
      hide L.Replay, L.Apply, WellFormed, Aligned, Alone, SessionName;
      if InStep() {
        ConnectAligns(Described(server), sessions, t, NameIn(b, id));
      }
      var ready := response;
      if !Connectable(response) {
        var wait := PollForEndpoint(w.polls);
        if !wait.Ready? {
          return Raises(if wait.Gone? then StartFailed else Error);
        }
        ready := wait.response;
      }
      var s := Connect(b, t, id, ready.uuid, w.connects, w.at);
      if s.None? {
        return Raises(Error);
      }
      KeepsWellFormed(old(sessions), 0, t, NameIn(b, id));
      f := Reuse(s.value);
    }

    /** Only a session whose id was generated is ever terminated here: the one
        described before, once it is gone, or a new one that never became usable. */
    ghost predicate MayTerminate(name: string, before: Server, b: Builder, w: World) {
      && b.custom.None?
      && ( || (&& before.id.Some? && !before.custom && GoneBy(w.reply)
               && name == NameOf(before))
           || exists i :: 0 <= i <= w.retries && name == NameIn(b, w.attempts(i).generated))
    }

    /** The session to go on with, or a new one; either is the default from then on. */
    method FindOrCreate(b: Builder, t: Thread, w: World, custom: Option<Response>) returns (r: Made)
      requires Valid() && (custom.Some? ==> b.custom.Some? && server.id.Some? && custom.value.state == Active)
      requires b.custom.Some? ==> server.custom == server.id.Some? && (server.id.Some? ==> server.id == b.custom)
      modifies this, cache
      ensures Valid() && old(cache.trace) <= cache.trace
      ensures old(terminations) <= terminations && old(generated) <= generated
      ensures forall i :: |old(terminations)| <= i < |terminations| ==>
                MayTerminate(terminations[i], old(server), b, w) && OfGenerated(terminations[i], generated)
      ensures |creates| - |old(creates)| <= (if b.custom.Some? then 0 else w.retries) + 1
      ensures r.Made? ==> sessions.default == Some(r.session)
      ensures
        var found := Existing(old(sessions), t);
        custom.None? && old(server).id.Some? && !GoneBy(w.reply) && found.Some? ==>
          && r == Made(found.value) && server == old(server) && sessions == old(sessions).(default := found)
          && creates == old(creates) && terminations == old(terminations)
      ensures custom.None? && old(server).id.Some? && w.reply.Fails? && w.reply.error != NotFound
              && Existing(old(sessions), t).None? ==>
                && r == Error && server == old(server) && sessions == old(sessions)
                && creates == old(creates) && terminations == old(terminations)
      ensures
        var found := Existing(old(sessions), t);
        custom.None? && GoneBy(w.reply) && old(server).id.Some? && !old(server).custom
        && found.Some? && found == old(sessions).default ==>
          |terminations| > |old(terminations)| && terminations[|old(terminations)|] == NameOf(old(server))
      ensures custom.None? && r.Made? && (old(server).id.None? || GoneBy(w.reply)) ==>
                old(sessions).next <= r.session
      ensures old(server).id.None? && old(sessions).default.None? && Starts(w.attempts(0)) ==>
                && r == Made(old(sessions).next)
                && sessions == With(old(sessions), t, NameFor(b, w.attempts(0)))
      ensures r.Made? && (b.custom.Some? || old(server).id.None?) ==> server.custom == b.custom.Some? && server.id.Some?
      ensures r.Made? && b.custom.Some? ==> server.id == b.custom
      ensures old(InStep()) && Alone(old(sessions), t) ==> InStep() && Alone(sessions, t)
      ensures old(InStep()) && Alone(old(sessions), t) && r.Made? ==>
                && r.session in sessions.open && r.session in sessions.attached
                && Described(server) == Some(sessions.attached[r.session])
    {
      hide L.Replay, L.Apply, WellFormed, Aligned, Alone, SessionName, TerminationFails, EndSeen, Declined, RunsOut;
      hide ReportedGone, Starts, With, NeverReady;
      var f := GetExisting(b, t, w, custom);
      match f {
        case Raises(how) =>
          return how;
        case Reuse(s) =>
          r := Made(s);
        case NeedsNew =>
          ghost var n, ids, moments;
          r, n, ids, moments := CreateWithRetries(b, t, w.retries, w.attempts);
          if !r.Made? {
            return;
          }
      }
      KnownExisting(Described(server), sessions, t);
      MakeDefault(Described(server), sessions, r.session);
      sessions := sessions.(default := Some(r.session));
    }

    method GetOrCreate(b: Builder, t: Thread, w: World) returns (r: Made)
      requires Valid()
      modifies this, cache
      ensures Valid() && old(cache.trace) <= cache.trace
      ensures old(terminations) <= terminations && old(generated) <= generated
      ensures forall i :: |old(terminations)| <= i < |terminations| ==>
                MayTerminate(terminations[i], old(server), b, w) && OfGenerated(terminations[i], generated)
      ensures |creates| - |old(creates)| <= (if b.custom.Some? then 0 else w.retries) + 1
      ensures r.Made? ==> sessions.default == Some(r.session) && b.project.Some? && b.region.Some?
      // Without a name: the session there is, unless it is reported gone; then a new one.
      ensures
        var found := Existing(old(sessions), t);
        Unnamed(b) && old(server).id.Some? && !GoneBy(w.reply) && found.Some? ==>
          && r == Made(found.value) && server == old(server) && sessions == old(sessions).(default := found)
          && creates == old(creates) && terminations == old(terminations)
      ensures r.Made? && b.custom.None? && (old(server).id.None? || GoneBy(w.reply)) ==>
                old(sessions).next <= r.session
      // By the reply: one that says it is gone replaces, one that says it is there or
      // fails otherwise reuses.
      ensures r.Made? && b.custom.None?
              && (w.reply == Fails(NotFound) || (w.reply.Says? && w.reply.response.state !in {Active, Creating})) ==>
                old(sessions).next <= r.session
      ensures
        var found := Existing(old(sessions), t);
        Unnamed(b) && old(server).id.Some? && found.Some?
        && ((w.reply.Says? && w.reply.response.state in {Active, Creating})
            || (w.reply.Fails? && w.reply.error != NotFound)) ==>
          && r == Made(found.value) && server == old(server) && sessions == old(sessions).(default := found)
          && creates == old(creates) && terminations == old(terminations)
      ensures
        var found := Existing(old(sessions), t);
        Unnamed(b) && (w.reply == Fails(NotFound) || (w.reply.Says? && w.reply.response.state !in {Active, Creating}))
        && old(server).id.Some? && !old(server).custom && found.Some? && found == old(sessions).default ==>
          |terminations| > |old(terminations)| && terminations[|old(terminations)|] == NameOf(old(server))
      ensures Unnamed(b) && old(server).id.Some? && w.reply.Fails? && w.reply.error != NotFound
              && Existing(old(sessions), t).None? ==>
                && r == Error && server == old(server) && sessions == old(sessions)
                && creates == old(creates) && terminations == old(terminations)
      ensures Unnamed(b) && old(server).id.None? && old(sessions).default.None? && Starts(w.attempts(0)) ==>
                && r == Made(old(sessions).next) && server.id.Some? && !server.custom
                && sessions == With(old(sessions), t, NameIn(b, w.attempts(0).generated))
      ensures r.Made? && b.custom.Some? ==> server.id == b.custom && server.custom
      ensures old(InStep()) && Alone(old(sessions), t) ==> InStep() && Alone(sessions, t)
      ensures old(InStep()) && Alone(old(sessions), t) && r.Made? ==>
                && r.session in sessions.open && r.session in sessions.attached
                && Described(server) == Some(sessions.attached[r.session])
    {
      hide L.Replay, L.Apply, WellFormed, Aligned, Alone, SessionName, TerminationFails, Starts, With;
      if b.project.None? || b.region.None? {
        return Error;
      }
      var custom := None;
      if b.custom.Some? {
        custom := HandleCustomSessionId(b, t, w);
      }
      r := FindOrCreate(b, t, w, custom);
    }

    /** Any run of operations of any threads. `upto` is how many sessions had been
        terminated before each operation, and at the end. An operation terminates
        only sessions with a generated id, but for the one that a
        stop(terminate=True) terminates. If all are of thread `t`, the sessions stay
        aligned. */
    method Run(ops: seq<Operation>, ghost t: Thread) returns (ghost upto: seq<nat>)
      requires Valid()
      modifies this, cache
      ensures Valid() && old(terminations) <= terminations
      ensures |upto| == |ops| + 1 && upto[0] == |old(terminations)| && upto[|ops|] == |terminations|
      ensures forall k :: 0 <= k < |ops| ==> TerminatesOwn(ops[k], terminations, upto[k], upto[k + 1], generated)
      ensures old(InStep()) && Alone(old(sessions), t) && (forall op :: op in ops ==> op.thread == t) ==>
                InStep() && Alone(sessions, t)
    {
      hide L.Replay, L.Apply, WellFormed, Aligned, Alone, ActiveElsewhere, SessionName;
      hide TerminationFails, MayTerminate, EndSeen, Declined, RunsOut, TerminatesOwn;
      upto := [|terminations|];
      for k := 0 to |ops|
        invariant Valid() && old(terminations) <= terminations
        invariant |upto| == k + 1 && upto[0] == |old(terminations)| && upto[k] == |terminations|
        invariant forall i :: 0 <= i < k ==> TerminatesOwn(ops[i], terminations, upto[i], upto[i + 1], generated)
        invariant old(InStep()) && Alone(old(sessions), t) && (forall op :: op in ops ==> op.thread == t) ==>
                    InStep() && Alone(sessions, t)
      {
        assert ops[k] in ops;
        ghost var before, known := terminations, generated;
        Do(ops[k]);
        forall i | 0 <= i < k
          ensures TerminatesOwn(ops[i], terminations, upto[i], upto[i + 1], generated)
        {
          OwnStays(ops[i], before, terminations, upto[i], upto[i + 1], known, generated);
        }
        upto := upto + [|terminations|];
      }
    }

    method Do(op: Operation)
      requires Valid()
      modifies this, cache
      ensures Valid() && old(terminations) <= terminations && old(generated) <= generated
      ensures TerminatesOwn(op, terminations, |old(terminations)|, |terminations|, generated)
      ensures old(InStep()) && Alone(old(sessions), op.thread) ==> InStep() && Alone(sessions, op.thread)
    {
      hide L.Replay, L.Apply, WellFormed, Aligned, Alone, ActiveElsewhere, SessionName, OfGenerated;
      hide TerminationFails, MayTerminate, EndSeen, Declined, RunsOut;
      match op {
        case Get(u, b, w) =>
          var r := GetOrCreate(b, u, w);
        case End(u, s, terminate, run, at) =>
          if s < sessions.next {
            GeneratedName(server.project, server.region, server.id, generated);
            var ok := Stop(s, u, terminate, run, at);
          }
      }
    }

    /** Alignment needs the one thread: thread 1 opens a session, thread 2 stops it
        and opens another, and thread 1 is given the first one back, closed. */
    method StoppedElsewhere(b: Builder, first: World, second: World, third: World) returns (r: Made)
      requires Valid() && server == NO_SERVER && sessions == Local(None, map[], {}, 0, map[])
      requires Unnamed(b) && Starts(first.attempts(0)) && Starts(second.attempts(0)) && !GoneBy(third.reply)
      modifies this, cache
      ensures r == Made(0) && 0 !in sessions.open && sessions.default == Some(0)
    {
      hide L.Replay, L.Apply, WellFormed, Aligned, Alone, SessionName, TerminationFails, MayTerminate, Starts, GoneBy;
      r := GetOrCreate(b, 1, first);
      var ok := Stop(0, 2, Some(false), third.ending, third.at);
      r := GetOrCreate(b, 2, second);
      r := GetOrCreate(b, 1, third);
    }
  }

  datatype Operation =
    | Get(thread: Thread, builder: Builder, world: World)
    | End(thread: Thread, session: Ref, terminate: Option<bool>, run: Termination, at: real)

  predicate AsksToTerminate(op: Operation) {
    op.End? && op.terminate == Some(true)
  }

  /** What this operation terminated, between these numbers of terminations: sessions
      with a generated id, or one session as it was asked to. */
  ghost predicate TerminatesOwn(op: Operation, names: seq<string>, from: nat, to: nat, generated: set<string>) {
    && from <= to <= |names|
    && (op.End? ==> to <= from + 1)
    && forall i :: from <= i < to ==> OfGenerated(names[i], generated) || AsksToTerminate(op)
  }

  lemma OwnStays(op: Operation, names: seq<string>, more: seq<string>, from: nat, to: nat,
                 known: set<string>, generated: set<string>)
    requires TerminatesOwn(op, names, from, to, known) && names <= more && known <= generated
    ensures TerminatesOwn(op, more, from, to, generated)
  {
    forall i | from <= i < to && OfGenerated(names[i], known)
      ensures OfGenerated(more[i], generated)
    {
    }
  }

  lemma GeneratedName(project: Option<string>, region: Option<string>, id: Option<string>, generated: set<string>)
    ensures id.Some? && id.value in generated ==> OfGenerated(SessionName(project, region, id.value), generated)
  {
  }

  /** Once a poll has decided, no other poll can. */
  lemma OneDecides(polls: nat -> Poll, k: nat)
    requires StillRunning(polls, k) && (polls(k).Fails? || Dead(polls(k).response.state))
    ensures forall j: nat :: j != k ==> !DecidesAt(polls, j)
  {
    forall j: nat | j != k
      ensures !DecidesAt(polls, j)
    {
      assert k < j ==> !StillRunning(polls, j);
    }
  }
}

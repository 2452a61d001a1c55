/** The liveness cache, and the guard that runs before an RPC and after a failed
    one. Other threads use the same cache: every method takes the events that
    come in between its own steps on the cache. */
module Liveness {
  import opened Prelude

  datatype Key = Key(name: string, endpoint: Option<string>)

  datatype Verdict = Active | Dead(detail: string)

  datatype Entry = Entry(verdict: Verdict, at: real)

  /** What GetSession says: `Gone` is NotFound or a state other than ACTIVE and
      CREATING, `Unknown` any other error. */
  datatype Answer = IsActive | IsCreating | Gone(detail: string) | Unknown

  /** What threads do to the cache, each under its lock. */
  datatype Event =
    | Marked(key: Key, at: real)
    | Answered(key: Key, answer: Answer, at: real)
    | Terminated(key: Key, detail: string, at: real)
    | Forgot(name: string)
    | ForgotAll

  type Entries = map<Key, Entry>

  function Apply(m: Entries, e: Event): Entries {
    match e
    case Marked(key, at) => if key.name == "" then m else m[key := Entry(Active, at)]
    case Answered(key, IsActive, at) => m[key := Entry(Active, at)]
    case Answered(key, Gone(detail), at) => m[key := Entry(Dead(detail), at)]
    case Answered(_, _, _) => m
    case Terminated(key, detail, at) => m[key := Entry(Dead(detail), at)]
    case Forgot(name) => map key | key in m && key.name != name :: m[key]
    case ForgotAll => map[]
  }

  /** The cache after everything in `trace`. */
  function Replay(trace: seq<Event>): Entries {
    if trace == [] then map[] else Apply(Replay(trace[..|trace| - 1]), Last(trace))
  }

  lemma ReplayOneMore(trace: seq<Event>, e: Event)
    ensures Replay(trace + [e]) == Apply(Replay(trace), e)
  {
    assert (trace + [e])[..|trace|] == trace;
  }

  // ----- what a verdict in the cache means -----------------------------------

  predicate SaysActive(e: Event, key: Key, at: real) {
    || (e == Marked(key, at) && key.name != "")
    || e == Answered(key, IsActive, at)
  }

  predicate SaysGone(e: Event, key: Key) {
    || (e.Answered? && e.key == key && e.answer.Gone?)
    || (e.Terminated? && e.key == key)
  }

  predicate Clears(e: Event, key: Key) {
    e.ForgotAll? || (e.Forgot? && e.name == key.name)
  }

  predicate SaysActiveAtSomeTime(e: Event, key: Key) {
    (e.Marked? || e.Answered?) && SaysActive(e, key, e.at)
  }

  /** Reported gone at some point of the run, and since then neither marked or
      answered active nor invalidated. */
  ghost predicate ReportedGone(trace: seq<Event>, key: Key) {
    exists i :: GoneSince(trace, i, key)
  }

  ghost predicate GoneSince(trace: seq<Event>, i: int, key: Key) {
    && 0 <= i < |trace| && SaysGone(trace[i], key)
    && forall j :: i < j < |trace| ==> !Clears(trace[j], key) && !SaysActiveAtSomeTime(trace[j], key)
  }

  /** Marked or answered active at time `at`, and since then neither marked,
      answered nor terminated again, nor invalidated. */
  ghost predicate ReportedActive(trace: seq<Event>, key: Key, at: real) {
    exists i :: ActiveSince(trace, i, key, at)
  }

  ghost predicate ActiveSince(trace: seq<Event>, i: int, key: Key, at: real) {
    && 0 <= i < |trace| && SaysActive(trace[i], key, at)
    && forall j :: i < j < |trace| ==>
         !Clears(trace[j], key) && !SaysActiveAtSomeTime(trace[j], key) && !SaysGone(trace[j], key)
  }

  predicate CachedDead(m: Entries, key: Key) {
    key in m && m[key].verdict.Dead?
  }

  predicate CachedActive(m: Entries, key: Key, at: real) {
    key in m && m[key] == Entry(Active, at)
  }

  lemma ApplyOnKey(m: Entries, e: Event, key: Key, at: real)
    ensures CachedDead(Apply(m, e), key) <==>
              SaysGone(e, key) || (CachedDead(m, key) && !Clears(e, key) && !SaysActiveAtSomeTime(e, key))
    ensures CachedActive(Apply(m, e), key, at) <==>
              || SaysActive(e, key, at)
              || (CachedActive(m, key, at) && !Clears(e, key) && !SaysActiveAtSomeTime(e, key) && !SaysGone(e, key))
  {
  }

  /** A dead verdict is in the cache exactly while the session is reported gone:
      it stands until a mark, an ACTIVE answer or an invalidation, and a CREATING
      answer or an error neither makes nor removes it. */
  lemma {:induction false} DeadIffReportedGone(trace: seq<Event>, key: Key)
    ensures CachedDead(Replay(trace), key) <==> ReportedGone(trace, key)
  {
    hide Apply, SaysGone, Clears, SaysActiveAtSomeTime, CachedDead;
    if trace == [] {
      assert !CachedDead(map[], key) by { EmptyCache(key, 0.0); }
    } else {
      var before := trace[..|trace| - 1];
      DeadIffReportedGone(before, key);
      ApplyOnKey(Replay(before), Last(trace), key, 0.0);
      if SaysGone(Last(trace), key) {
        assert GoneSince(trace, |trace| - 1, key);
      } else {
        forall i | GoneSince(trace, i, key)
          ensures GoneSince(before, i, key)
        {
        }
        if ReportedGone(before, key) && !Clears(Last(trace), key) && !SaysActiveAtSomeTime(Last(trace), key) {
          var i :| GoneSince(before, i, key);
          assert GoneSince(trace, i, key);
        }
      }
    }
  }

  /** An active verdict of time `at` is in the cache exactly when the last thing
      that said anything about the session said it was active, at that time. */
  lemma {:induction false} ActiveIffReportedActive(trace: seq<Event>, key: Key, at: real)
    ensures CachedActive(Replay(trace), key, at) <==> ReportedActive(trace, key, at)
  {
    hide Apply, SaysGone, SaysActive, Clears, SaysActiveAtSomeTime, CachedActive;
    if trace == [] {
      assert !CachedActive(map[], key, at) by { EmptyCache(key, at); }
    } else {
      var before := trace[..|trace| - 1];
      ActiveIffReportedActive(before, key, at);
      ApplyOnKey(Replay(before), Last(trace), key, at);
      if SaysActive(Last(trace), key, at) {
        assert ActiveSince(trace, |trace| - 1, key, at);
      } else {
        forall i | ActiveSince(trace, i, key, at)
          ensures ActiveSince(before, i, key, at)
        {
        }
        if CachedActive(Replay(trace), key, at) {
          var i :| ActiveSince(before, i, key, at);
          assert ActiveSince(trace, i, key, at);
        }
      }
    }
  }

  lemma EmptyCache(key: Key, at: real)
    ensures !CachedDead(map[], key) && !CachedActive(map[], key, at)
  {
  }

  // ----- the cache -----------------------------------------------------------

  datatype Mode = Unset | PreRpc | OnError

  /** The clock and the configured time to live when the cache is read. */
  datatype Reading = Reading(now: real, ttl: Option<real>)

  predicate Trusted(r: Reading, at: real) {
    || r.ttl.None? || r.ttl.value < 0.0
    || (r.ttl.value > 0.0 && r.now - at < r.ttl.value)
  }

  /** Reported active, recently enough to go by. */
  ghost predicate TrustedActive(trace: seq<Event>, key: Key, r: Reading) {
    exists at :: ReportedActive(trace, key, at) && Trusted(r, at)
  }

  class LivenessCache {
    var entries: Entries
    /** Everything done to the cache so far. */
    ghost var trace: seq<Event>

    ghost predicate Valid()
      reads this
    {
      entries == Replay(trace)
    }

    constructor ()
      ensures Valid() && trace == []
    {
      entries := map[];
      trace := [];
    }

    method Do(e: Event)
      requires Valid()
      modifies this
      ensures Valid() && trace == old(trace) + [e]
      ensures e.Marked? ==>
                entries == if e.key.name == "" then old(entries) else old(entries)[e.key := Entry(Active, e.at)]
      ensures e.Answered? ==> entries == match e.answer
                                         case IsActive => old(entries)[e.key := Entry(Active, e.at)]
                                         case Gone(detail) => old(entries)[e.key := Entry(Dead(detail), e.at)]
                                         case _ => old(entries)
      ensures e.Terminated? ==> entries == old(entries)[e.key := Entry(Dead(e.detail), e.at)]
      ensures e.Forgot? ==> forall k :: k in entries <==> k in old(entries) && k.name != e.name
      ensures e.Forgot? ==> forall k :: k in entries ==> entries[k] == old(entries)[k]
      ensures e.ForgotAll? ==> entries == map[]
    {
      hide Replay;
      ReplayOneMore(trace, e);
      match e {
        case Marked(key, at) =>
          if key.name != "" {
            entries := entries[key := Entry(Active, at)];
          }
        case Answered(key, answer, at) =>
          if answer.IsActive? {
            entries := entries[key := Entry(Active, at)];
          } else if answer.Gone? {
            entries := entries[key := Entry(Dead(answer.detail), at)];
          }
        case Terminated(key, detail, at) =>
          entries := entries[key := Entry(Dead(detail), at)];
        case Forgot(name) =>
          entries := map key | key in entries && key.name != name :: entries[key];
        case ForgotAll =>
          entries := map[];
      }
      trace := trace + [e];
    }

    /** What other threads do meanwhile. */
    method Interfere(events: seq<Event>)
      requires Valid()
      modifies this
      ensures Valid() && trace == old(trace) + events
    {
      for i := 0 to |events|
        invariant Valid() && trace == old(trace) + events[..i]
      {
        Do(events[i]);
        assert events[..i + 1] == events[..i] + [events[i]];
      }
    }

    /** The cached verdict, or None when Dataproc must be asked. */
    method CheckCached(key: Key, mode: Mode, r: Reading) returns (verdict: Option<bool>)
      requires Valid()
      ensures verdict.Some? <==> mode != OnError && (ReportedGone(trace, key) || TrustedActive(trace, key, r))
      ensures verdict == Some(false) <==> mode != OnError && ReportedGone(trace, key)
      ensures verdict == Some(true) <==> mode != OnError && TrustedActive(trace, key, r)
      // Trusted without a time to live or with a negative one, never with none of it.
      ensures r.ttl.None? || r.ttl.value < 0.0 ==>
                (verdict == Some(true) <==> mode != OnError && exists at :: ReportedActive(trace, key, at))
      ensures r.ttl.Some? && r.ttl.value >= 0.0 ==>
                (verdict == Some(true) <==>
                 && mode != OnError && r.ttl.value != 0.0
                 && exists at :: ReportedActive(trace, key, at) && r.now < at + r.ttl.value)
    {
      hide Replay, ReportedGone, ReportedActive;
      DeadIffReportedGone(trace, key);
      forall at
        ensures CachedActive(entries, key, at) <==> ReportedActive(trace, key, at)
      {
        ActiveIffReportedActive(trace, key, at);
      }
      if mode == OnError || key !in entries {
        return None;
      }
      if entries[key].verdict.Dead? {
        return Some(false);
      }
      assert CachedActive(entries, key, entries[key].at);
      verdict := if Trusted(r, entries[key].at) then Some(true) else None;
    }

    /** Records a GetSession answer: Some(whether the session is usable), or None
        when Dataproc could not be asked. */
    method Ask(key: Key, answer: Answer, at: real) returns (active: Option<bool>)
      requires Valid()
      modifies this
      ensures Valid()
      ensures active == if answer.Unknown? then None else Some(!answer.Gone?)
      ensures answer.Unknown? || answer.IsCreating? ==> entries == old(entries) && trace == old(trace)
      ensures answer.IsActive? || answer.Gone? ==> trace == old(trace) + [Answered(key, answer, at)]
    {
      match answer {
        case Unknown => active := None;
        case IsCreating => active := Some(true);
        case _ =>
          Do(Answered(key, answer, at));
          active := Some(answer.IsActive?);
      }
    }

    /** Why Dataproc reports the session gone, asking it unless the cache knows. */
    method DeadSessionDetail(key: Key, meanwhile: seq<Event>, answer: Answer, at: real)
      returns (detail: Option<string>, asked: bool)
      requires Valid()
      modifies this
      ensures Valid() && old(trace) <= trace
      ensures asked <==> !ReportedGone(old(trace), key)
      ensures detail.Some? <==> ReportedGone(old(trace), key) || answer.Gone?
      ensures detail.Some? ==> ReportedGone(trace, key)
      ensures !asked ==> trace == old(trace)
      ensures asked && (answer.Unknown? || answer.IsCreating?) ==> trace == old(trace) + meanwhile
    {
      hide Replay, ReportedGone;
      DeadIffReportedGone(trace, key);
      if key in entries && entries[key].verdict.Dead? {
        return Some(entries[key].verdict.detail), false;
      }
      asked := true;
      Interfere(meanwhile);
      ghost var before := trace;
      var active := Ask(key, answer, at);
      detail := if answer.Gone? then Some(answer.detail) else None;
      if answer.Gone? {
        LastSaysGone(before, Answered(key, answer, at), key);
      }
    }
  }

  lemma LastSaysGone(trace: seq<Event>, e: Event, key: Key)
    requires SaysGone(e, key)
    ensures ReportedGone(trace + [e], key)
  {
    assert GoneSince(trace + [e], |trace|, key);
  }

  // ----- the guard -----------------------------------------------------------

  /** One use of the guard: what others do before each of its steps on the cache,
      what it reads there and what Dataproc answers. */
  datatype Turn = Turn(before: seq<Event>, first: Reading, between: seq<Event>, second: Reading,
                       meanwhile: seq<Event>, answer: Answer, at: real)

  /** Some moment of a run that went from `from` to `trace`. */
  predicate Moment(from: seq<Event>, at: seq<Event>, trace: seq<Event>) {
    from <= at <= trace
  }

  datatype Failure = NotRpc | Rpc(code: Option<Code>, hasStatusDetails: bool)

  datatype Code =
    | Cancelled | InvalidArgument | AlreadyExists | OutOfRange | Unimplemented
    | Unavailable | NotFound | Other

  /** Whether a failed RPC is a reason to ask Dataproc about the session. */
  predicate CouldMeanGone(f: Failure) {
    && f.Rpc?
    && if f.code.Some? && f.code.value in {Cancelled, InvalidArgument, AlreadyExists, OutOfRange, Unimplemented}
       then false
       else (f.code.Some? && f.code.value in {Unavailable, NotFound}) || !f.hasStatusDetails
  }

  datatype Outcome = Returned | Raised(failure: Failure) | SessionNotActive

  class Guard {
    const cache: LivenessCache
    const key: Key
    var mode: Mode
    /** GetSession calls made so far. */
    var asks: nat

    /** A new callback marks its session active. */
    constructor (cache: LivenessCache, key: Key, at: real)
      requires cache.Valid()
      modifies cache
      ensures this.cache == cache && this.key == key && mode == Unset && asks == 0
      ensures cache.Valid() && cache.trace == old(cache.trace) + [Marked(key, at)]
    {
      this.cache := cache;
      this.key := key;
      mode := Unset;
      asks := 0;
      new;
      cache.Do(Marked(key, at));
    }

    /** The callback: Some(verdict), or None when it raised. */
    method IsActive(turn: Turn) returns (active: Option<bool>)
      requires cache.Valid()
      modifies this`asks, cache
      ensures cache.Valid() && old(cache.trace) <= cache.trace
      ensures old(asks) <= asks <= old(asks) + 1 && (mode == OnError ==> asks == old(asks) + 1)
      ensures asks > old(asks) ==> active == if turn.answer.Unknown? then None else Some(!turn.answer.Gone?)
      ensures asks == old(asks) ==> active.Some?
      ensures active == Some(false) ==>
                exists at :: Moment(old(cache.trace), at, cache.trace) && ReportedGone(at, key)
      ensures active == Some(true) && asks == old(asks) ==>
                exists at, r :: Moment(old(cache.trace), at, cache.trace) && r in [turn.first, turn.second]
                             && TrustedActive(at, key, r)
      ensures mode != OnError && ReportedGone(old(cache.trace) + turn.before, key) ==>
                active == Some(false) && asks == old(asks)
      ensures mode != OnError && TrustedActive(old(cache.trace) + turn.before, key, turn.first) ==>
                active == Some(true) && asks == old(asks)
      // Asked exactly when neither look at the cache says anything, and the first to
      // say something decides.
      ensures
        var once, twice := old(cache.trace) + turn.before, old(cache.trace) + turn.before + turn.between;
        && (asks > old(asks) <==>
              || mode == OnError
              || !(|| ReportedGone(once, key) || TrustedActive(once, key, turn.first)
                   || ReportedGone(twice, key) || TrustedActive(twice, key, turn.second)))
        && (asks == old(asks) ==>
              active == Some(!ReportedGone(once, key) &&
                             (TrustedActive(once, key, turn.first) || !ReportedGone(twice, key))))
      ensures turn.answer.Unknown? || turn.answer.IsCreating? ==>
                exists others :: others in {turn.before, turn.before + turn.between,
                                            turn.before + turn.between + turn.meanwhile}
                              && cache.trace == old(cache.trace) + others
    {
      hide *;
      ghost var from := cache.trace;
      cache.Interfere(turn.before);
      active := cache.CheckCached(key, mode, turn.first);
      if active.Some? {
        MomentNow(from, cache.trace);
        return;
      }
      cache.Interfere(turn.between);
      Associates(from, turn.before, turn.between);
      active := cache.CheckCached(key, mode, turn.second);
      if active.Some? {
        MomentNow(from, cache.trace);
        return;
      }
      cache.Interfere(turn.meanwhile);
      Associates(from, turn.before + turn.between, turn.meanwhile);
      asks := asks + 1;
      ghost var now := cache.trace;
      active := cache.Ask(key, turn.answer, turn.at);
      MomentNow(from, cache.trace);
      if turn.answer.Gone? {
        AnsweredGone(now, key, turn.answer, turn.at);
      }
    }

    /** Raises only on a verdict of "gone"; a failed check lets the RPC through. */
    method CheckActive(turn: Turn) returns (raised: bool)
      requires cache.Valid()
      modifies this`asks, cache
      ensures cache.Valid() && old(cache.trace) <= cache.trace
      ensures old(asks) <= asks <= old(asks) + 1 && (mode == OnError ==> asks == old(asks) + 1)
      ensures asks > old(asks) ==> (raised <==> turn.answer.Gone?)
      ensures raised ==> exists at :: Moment(old(cache.trace), at, cache.trace) && ReportedGone(at, key)
      ensures mode != OnError && ReportedGone(old(cache.trace) + turn.before, key) ==> raised && asks == old(asks)
      ensures mode != OnError && TrustedActive(old(cache.trace) + turn.before, key, turn.first) ==>
                !raised && asks == old(asks)
    {
      var active := IsActive(turn);
      raised := active == Some(false);
    }

    method RunGuard(m: Mode, turn: Turn) returns (raised: bool)
      requires cache.Valid()
      modifies this, cache
      ensures cache.Valid() && old(cache.trace) <= cache.trace && mode == old(mode)
      ensures old(asks) <= asks <= old(asks) + 1 && (m == OnError ==> asks == old(asks) + 1)
      ensures asks > old(asks) ==> (raised <==> turn.answer.Gone?)
      ensures raised ==> exists at :: Moment(old(cache.trace), at, cache.trace) && ReportedGone(at, key)
      ensures m != OnError && ReportedGone(old(cache.trace) + turn.before, key) ==> raised && asks == old(asks)
      ensures m != OnError && TrustedActive(old(cache.trace) + turn.before, key, turn.first) ==>
                !raised && asks == old(asks)
    {
      var token := mode;
      mode := m;
      raised := CheckActive(turn);
      mode := token;
    }

    /** A guarded RPC that fails with `failure`, or returns. */
    method Invoke(pre: Turn, failure: Option<Failure>, post: Turn)
      returns (outcome: Outcome, invoked: bool, ghost before: nat)
      requires cache.Valid()
      modifies this, cache
      ensures cache.Valid() && old(cache.trace) <= cache.trace && mode == old(mode)
      ensures !invoked ==> outcome == SessionNotActive
      ensures invoked ==> (outcome == Returned <==> failure.None?)
      // `before` GetSession calls had been made when the RPC was sent.
      ensures old(asks) <= before <= old(asks) + 1 && (!invoked || failure.None? ==> asks == before)
      // No such session, or no answer from it: Dataproc decides.
      ensures invoked && failure.Some? && failure.value.Rpc?
              && failure.value.code in {Some(Unavailable), Some(NotFound)} ==>
                && outcome == (if post.answer.Gone? then SessionNotActive else Raised(failure.value))
                && asks == before + 1
      // The caller's own fault, or no RPC at all: nobody asks.
      ensures invoked && failure.Some?
              && (failure.value.NotRpc? || failure.value.code in {Some(Cancelled), Some(InvalidArgument),
                                                                   Some(AlreadyExists), Some(OutOfRange),
                                                                   Some(Unimplemented)}) ==>
                outcome == Raised(failure.value) && asks == before
      // Anything else: a failure with details comes from Spark, so the session is there.
      ensures invoked && failure.Some? && failure.value.Rpc? && failure.value.code in {None, Some(Other)} ==>
                && outcome == (if post.answer.Gone? && !failure.value.hasStatusDetails then SessionNotActive
                               else Raised(failure.value))
                && asks == before + if failure.value.hasStatusDetails then 0 else 1
      ensures outcome == SessionNotActive ==>
                exists at :: Moment(old(cache.trace), at, cache.trace) && ReportedGone(at, key)
      ensures ReportedGone(old(cache.trace) + pre.before, key) ==> !invoked
      ensures TrustedActive(old(cache.trace) + pre.before, key, pre.first) ==> invoked
    {
      hide Replay, ReportedGone, TrustedActive, Moment;
      ghost var from := cache.trace;
      var raised := RunGuard(PreRpc, pre);
      before := asks;
      if raised {
        return SessionNotActive, false, before;
      }
      ghost var now := cache.trace;
      invoked := true;
      if failure.None? {
        return Returned, true, before;
      }
      outcome := Raised(failure.value);
      if CouldMeanGone(failure.value) {
        raised := RunGuard(OnError, post);
        LaterMoment(from, now, cache.trace);
        if raised {
          outcome := SessionNotActive;
        }
      }
    }
  }

  lemma MomentNow(from: seq<Event>, now: seq<Event>)
    requires from <= now
    ensures Moment(from, now, now)
  {
  }

  lemma LaterMoment(from: seq<Event>, now: seq<Event>, trace: seq<Event>)
    requires from <= now
    ensures forall at :: Moment(now, at, trace) ==> Moment(from, at, trace)
  {
  }

  lemma AnsweredGone(trace: seq<Event>, key: Key, answer: Answer, at: real)
    requires answer.Gone?
    ensures ReportedGone(trace + [Answered(key, answer, at)], key)
  {
    LastSaysGone(trace, Answered(key, answer, at), key);
  }

  // ----- futures -------------------------------------------------------------

  /** A future of a guarded RPC: each retrieval of its error runs `CheckError`. */
  class GuardedFuture {
    const guard: Guard
    var checked: bool
    var stored: bool

    ghost predicate Valid()
      reads this
    {
      stored ==> checked
    }

    constructor (guard: Guard)
      ensures Valid() && this.guard == guard && !checked
    {
      this.guard := guard;
      checked, stored := false, false;
    }

    /** The guard runs for the first error only; later retrievals repeat what it
        said, whatever the cache holds by then. */
    method CheckError(f: Failure, turn: Turn) returns (raised: bool)
      requires Valid() && guard.cache.Valid()
      modifies this, guard, guard.cache
      ensures Valid() && guard.cache.Valid() && checked && stored == raised
      ensures guard.mode == old(guard.mode)
      ensures old(checked) ==> raised == old(stored)
      ensures old(checked) ==> guard.asks == old(guard.asks) && guard.cache.trace == old(guard.cache.trace)
      // Asked about and decided by Dataproc: failures that could mean that it is gone.
      ensures !old(checked) && f.Rpc? && f.code in {Some(Unavailable), Some(NotFound)} ==>
                raised == turn.answer.Gone? && guard.asks == old(guard.asks) + 1
      ensures !old(checked) && (f.NotRpc? || f.code in {Some(Cancelled), Some(InvalidArgument), Some(AlreadyExists),
                                                        Some(OutOfRange), Some(Unimplemented)}) ==>
                !raised && guard.asks == old(guard.asks)
      ensures !old(checked) && f.Rpc? && f.code in {None, Some(Other)} ==>
                && raised == (turn.answer.Gone? && !f.hasStatusDetails)
                && guard.asks == old(guard.asks) + if f.hasStatusDetails then 0 else 1
    {
      raised := stored;
      if !checked {
        checked := true;
        if CouldMeanGone(f) {
          raised := guard.RunGuard(OnError, turn);
          stored := raised;
        }
      }
    }
  }
}

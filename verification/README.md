# Managed Spark Connect, modelled and proved

A Dafny model of the stateful parts of the Spark Connect client for managed
sessions and of the text handling of `%%sparksql`, with proofs of what they
promise. One module per component:

- `ReleaseCoalescing`: releasing the responses of a result stream with one RPC
  in flight, the latest id winning, without losing the last one.
- `QueryReplay` (with `PlanScan` and `ProgressBars`): running a query a second
  time after its reattach position was lost, and the registry of progress bars.
- `Forwarding` and `ProxyShutdown`: the local TCP to WebSocket proxy. Byte
  forwarding under partial sends and timeouts, the cut of a silent connection,
  and stopping while connections come and go.
- `Liveness`: the cache of session verdicts and the guard around every RPC.
- `SessionLifecycle`: who owns the one default session, over getOrCreate, start
  retries, stop and failed terminations.
- `BraceEscaping`, `Statements`, `ErrorPositions` (with `FormatString` and
  `SqlTokens`): DataFrame references against Python's format strings, splitting
  a cell, and carets under errors.
- `StreamSpans`, `ClientHooks`, `ShellExtras`: work that must be done once or
  undone exactly.

Objects that the program updates under a lock are classes with one method per
locked region, whose contracts equate the new state with a function of the old
one. Where threads interleave, a state machine takes its steps with the same
functions, and an invariant is proved over all runs. Sockets, the Dataproc
service and clocks are inputs, universally quantified. A loop over a container
in the program is a loop here, proved against a function or a first-order
description of its result.

## Where the code and its promises differ

The model follows the code. In these cases a stated promise does not hold of
every input; each has the exact condition under which it does.

- A brace typed as a placeholder by an extended lexer is skipped by the parameter
  scan but still formatted, so its name can be missing
  (`FormatSucceedsOnReportedFields`; a statement: `MistypedBraceFails`).
- A progress bar opened under an empty operation id is not closed by the fallback
  close (`CloseProgressBar`; a bar: `EmptyIdStaysOpen`). Requests that the client
  builds never have one (`QueryClient.Query`): only code that builds its own request,
  or calls the registered progress handler itself, can bring one in.
- A parse error position past the end of its line is mapped to a later line
  (`ParsePositionIsExact`; a text: `PastItsLine`).
- Messages delivered after a stream was finished (an exception in `next()` that
  did not end the RPC) are not in the span's count (`CountIsDelivered`; a run:
  `LateMessageIsNotCounted`).
- The status event is not recorded exactly once: there is one exactly when a thread
  saw the RPC over before the layer was finished and added the event before the span
  ended (`StatusIffRecordedInTime`). So a stream dropped while its RPC runs has none
  (`DropRecordsNoStatus`), nor has one whose callback is overtaken by the consumer
  (`StatusWhenOver`; a run: `CallbackOvertaken`).
- A default session stopped by another thread remains active, though closed, in the
  thread that opened it, and getOrCreate there goes on with it once there is a new
  server session (`StopKeepsAligned`; a run: `StoppedElsewhere`).
- A termination that has not finished after 180 polls, or that Dataproc declined
  because the session is still being created, counts as done, and stop() forgets a
  session that may still be running (`DoneIffEndedOrLeft`; one of each:
  `LeftRunningButDone`).
- Outside code that binds a function from our own module, or the very object we
  injected, loses it on unload (`MagicsUndone`, `ExploreUndone`; a run:
  `OurOwnFunctionIsTaken`).
- A magic that was there before loading is lost when the extension replaces it and
  then raises: it is put back only after a load that succeeds
  (`PresentMagicsSurvive`; a run: `ReplacedForGood`).
- A cell is taken for a script when its first word upper-cases to BEGIN, which
  includes the spelling with a dotless i (`BeginOrDotless`, `SplitStatements`; a cell:
  `DotlessIsAScript`).

## Model

| member | source | states |
|---|---|---|
| `ReleaseCoalescing.ReleaseState.Post` | google/cloud/managed_spark_connect/client/reattach_patch.py:244-248 | the id passed becomes the pending one and a drain is on; the caller schedules one only if none was |
| `ReleaseCoalescing.ReleaseState.Take` | google/cloud/managed_spark_connect/client/reattach_patch.py:279-283 | a drain takes the pending id and leaves none, or, with none pending or the stream complete, it ends and clears `busy` |
| `ReleaseCoalescing.ReleaseState.ReleaseUntil` | google/cloud/managed_spark_connect/client/reattach_patch.py:235-272 | nothing happens once the stream is complete; otherwise the id is pending, and `busy` ends up set exactly when a drain was running or the new one was accepted, so a refused submit lets a later call proceed |
| `ReleaseCoalescing.ReleaseState.DrainReleases` | google/cloud/managed_spark_connect/client/reattach_patch.py:275-290 | the loop ends with nothing pending and `busy` off, having sent the pending id and then only the last id of what arrived during each RPC |
| `ReleaseCoalescing.EveryRunKeepsInv` | google/cloud/managed_spark_connect/client/reattach_patch.py:235-290 | every interleaving of the two threads keeps the lock protocol, the order of ids and the bounds on the release point |
| `ReleaseCoalescing.OneDrain` | google/cloud/managed_spark_connect/client/reattach_patch.py:244-290 | at most one drain is queued or running, `busy` says exactly whether one is or the consumer is about to schedule one, and the ids sent are an in-order subsequence of the ids passed, each the latest when taken |
| `ReleaseCoalescing.NoReleaseLost` | google/cloud/managed_spark_connect/client/reattach_patch.py:244-290 | with both threads idle and the stream not complete, the last id passed is the last id sent and nothing is pending; after a refused submit it is still pending and `busy` is off |
| `ReleaseCoalescing.NothingSentAfterComplete` | google/cloud/managed_spark_connect/client/reattach_patch.py:235-290 | once the result is complete no release RPC is started any more, whatever steps come, and responses are passed over |
| `ReleaseCoalescing.CoalescedEqualsOnePerResponse` | google/cloud/managed_spark_connect/client/reattach_patch.py:275-290 | against a server that drops everything up to the id, the release point never passes that of one RPC per response, and equals it when both threads are idle and the RPCs succeeded |
| `ReleaseCoalescing.DrainsFinish` | google/cloud/managed_spark_connect/client/reattach_patch.py:235-290 | no deadlock and no endless drain: until both threads are idle some step is possible, and each brings them nearer |
| `PlanScan.RunsInlineUserCode` | google/cloud/managed_spark_connect/client/reattach_patch.py:79-105 | the stack search ends and finds inline user code exactly when the recursive predicate says it occurs somewhere in the plan tree |
| `PlanScan.UserCodeIffPath` | google/cloud/managed_spark_connect/client/reattach_patch.py:67-105 | there is user code in a plan exactly when some path of fields and items down its tree ends at a message of one of the two user code types |
| `QueryReplay.ReplayRequest` | google/cloud/managed_spark_connect/client/reattach_patch.py:108-125 | a new request equal to the given one but for the fresh operation id and the dropped reattach options; the given one is not changed |
| `QueryReplay.AppendedReattachIsDropped` | google/cloud/managed_spark_connect/client/reattach_patch.py:118-124 | whatever reattach options an attempt appended, what is kept is what would have been kept before, namely exactly the other options |
| `QueryReplay.OthersStayInOrder` | google/cloud/managed_spark_connect/client/reattach_patch.py:118-124 | the options kept are in their order, each as often as it was there |
| `QueryReplay.QueryClient.ReplayHook` | google/cloud/managed_spark_connect/client/reattach_patch.py:144-195 | a second call happens exactly for a lost position of a root plan without inline user code, with replay enabled; its request is the caller's own; the abandoned operation's bar is closed before it and the new one's after it; outcome and events follow |
| `QueryReplay.QueryClient.ExecuteAndFetch` | google/cloud/managed_spark_connect/session.py:2090-2100 | the hook stack calls at most twice, twice exactly for a lost position of a root plan without inline user code with replay enabled; outcome, calls and bars are those of the replay hook and the outer close; no bar is left open for the original or the new (non-empty) operation id |
| `QueryReplay.QueryClient.PlanRequest` | google/cloud/managed_spark_connect/session.py:2062-2072 | a request built by the client has an operation id, its own if it had one |
| `QueryReplay.QueryClient.Query` | google/cloud/managed_spark_connect/session.py:2062-2100 | so for such a request no bar is left open for the operation or its replay, whatever id the caller gave |
| `QueryReplay.UntouchedStaysClosed` | google/cloud/managed_spark_connect/session.py:2156-2278 | an operation without an open bar that nothing reports on has none later either |
| `ProgressBars.ProgressBars.Handle` | google/cloud/managed_spark_connect/session.py:2159-2251 | one handler call opens, updates or closes at most the bar of its own operation, from the sums over its stages, and logs that one event |
| `ProgressBars.ProgressBars.CloseProgressBar` | google/cloud/managed_spark_connect/session.py:2256-2278 | the operation's bar is closed and logged once; afterwards it has an open bar only under the empty id, which this call ignores |
| `ProgressBars.EveryBarOpenOrClosedOnce` | google/cloud/managed_spark_connect/session.py:2159-2278 | over any run each operation's events form (open update* close)*, the registry holds exactly the bars opened and not closed, and no bar is closed twice or lost |
| `ProgressBars.BarShowsLastReport` | google/cloud/managed_spark_connect/session.py:2159-2278 | over any run an operation has a bar exactly when the last thing said about it is a report that it goes on, and the bar shows the numbers of that report |
| `ProgressBars.EventsFit` | google/cloud/managed_spark_connect/session.py:2159-2278 | each report that counts and each close of a bar makes one event, with what the bar shows after it, or showed last; a "done" reports all tasks completed, at least; nothing else makes an event |
| `ProgressBars.SumsAdd` | google/cloud/managed_spark_connect/session.py:2174-2179 | the totals are sums over the stages, each counted once |
| `ProgressBars.EmptyIdStaysOpen` | google/cloud/managed_spark_connect/session.py:2165-2267 | the handler accepts an empty operation id and the fallback close does not, so such a bar stays open |
| `Forwarding.SendFrame` | google/cloud/managed_spark_connect/client/proxy.py:376-406 | what the socket accepted is a prefix of the frame; all of it on success, SendTimeout exactly after ten timeouts in a row, an error exactly on a zero or failing send, and never more than ten sends per byte |
| `Forwarding.ForwardFrame` | google/cloud/managed_spark_connect/client/proxy.py:375-409 | a frame ends as its sends make it end, after the part they took; bytes and frames are counted for frames forwarded whole, and only those |
| `Forwarding.OneOutcome` | google/cloud/managed_spark_connect/client/proxy.py:376-406 | how a frame ends and how much of it was taken is up to its sends alone, so a run ends in SendTimeout exactly when ten timeouts in a row come first, and in a send error exactly when a failing or zero send does |
| `Forwarding.SendsDecide` | google/cloud/managed_spark_connect/client/proxy.py:376-406 | fewer than ten timeouts and then a failing or zero send end a frame in an error, and then a send of all of it end it well; ten timeouts end it in a timeout whatever would come next |
| `Forwarding.WaitRegistry.BeginWait` | google/cloud/managed_spark_connect/client/proxy.py:648-653 | a new wait under a token never used before, from now |
| `Forwarding.WaitRegistry.EndWait` | google/cloud/managed_spark_connect/client/proxy.py:655-658 | that wait and no other is gone, and the others keep their start; an unknown token changes nothing |
| `Forwarding.WaitRegistry.WaitingSince` | google/cloud/managed_spark_connect/client/proxy.py:660-663 | the earliest start of the current waits, and nothing exactly when nobody waits |
| `Forwarding.WaitsAre` | google/cloud/managed_spark_connect/client/proxy.py:648-663 | after any operations the current waits are those begun and not ended since, each with the time it began |
| `Forwarding.CheckSilence` | google/cloud/managed_spark_connect/client/proxy.py:411-431 | a receive timeout cuts exactly when the silence towards some waiting consumer has reached the limit in an armed direction |
| `Forwarding.ServeTurn` | google/cloud/managed_spark_connect/client/proxy.py:368-457 | one receive: all of its bytes are passed on, or a proper part of them when the sending did not finish, and it ends the loop exactly at end of file, on an error or on an overdue silence |
| `Forwarding.Pump` | google/cloud/managed_spark_connect/client/proxy.py:365-457 | for any behaviour of the two sockets, at every moment the bytes accepted are a prefix of those received, equal to them at end of file; the run ends as the first frame, receive or silence that ends it says, and the counters are those of the whole frames |
| `Forwarding.ForwardBytes` | google/cloud/managed_spark_connect/client/proxy.py:314-457 | the same, and both sockets are closed exactly when the thread is not still blocked |
| `Forwarding.NothingLost` | google/cloud/managed_spark_connect/client/proxy.py:365-457 | what was taken is what came in from the first byte on, all of it unless the run ends or blocks in a send, and then all but the rest of the last frame |
| `Forwarding.ReceivedAdds` | google/cloud/managed_spark_connect/client/proxy.py:365-409 | bytes and frames received are counted once for each receive |
| `Forwarding.RunningMeansWithin` | google/cloud/managed_spark_connect/client/proxy.py:411-431 | while the loop runs on, nobody waiting has been met with silence for as long as the limit |
| `Forwarding.CutWithinOneReceive` | google/cloud/managed_spark_connect/client/proxy.py:411-431 | a cut comes with at least the limit and less than the limit plus one receive of silence, however waits come and go |
| `Forwarding.SilenceCutMeans` | google/cloud/managed_spark_connect/client/proxy.py:360-431 | a run that ends in a cut is one of the direction from the server, with a limit above 0 and knowing who waits, on a receive timeout; some consumer has waited for the limit, nothing has come in for as long, and towards the longest waiting one the silence is less than the limit plus one receive |
| `Forwarding.StarvedIsCut` | google/cloud/managed_spark_connect/client/proxy.py:411-431 | a consumer whose wait nothing ends, with nothing received any more, is cut off less than one receive after the limit has passed since it began to wait and the last bytes came in |
| `ProxyShutdown.ProxyState.Admit` | google/cloud/managed_spark_connect/client/proxy.py:756-761 | an accepted connection joins the active clients unless the proxy has been stopped |
| `ProxyShutdown.ProxyState.RegisterBackend` | google/cloud/managed_spark_connect/client/proxy.py:682-690 | a backend socket joins the active set unless the proxy has been stopped; the caller learns which |
| `ProxyShutdown.ProxyState.UnregisterBackend` | google/cloud/managed_spark_connect/client/proxy.py:692-694 | that backend socket and no other leaves the active set |
| `ProxyShutdown.ProxyState.DiscardClient` | google/cloud/managed_spark_connect/client/proxy.py:727-731 | that client and no other leaves the active set |
| `ProxyShutdown.ProxyState.Kill` | google/cloud/managed_spark_connect/client/proxy.py:771-777 | stop's locked section takes every active socket and leaves none |
| `ProxyShutdown.EveryRunKeepsInv` | google/cloud/managed_spark_connect/client/proxy.py:682-789 | every interleaving of accepts, handlers and stop calls keeps each socket in the care of someone |
| `ProxyShutdown.NothingRegistersAfterStop` | google/cloud/managed_spark_connect/client/proxy.py:682-777 | once stop's locked section has run, no socket enters the active sets |
| `ProxyShutdown.EveryOpenSocketIsOwed` | google/cloud/managed_spark_connect/client/proxy.py:682-789 | every open socket is owed a close by identifiable code: the one just accepted by the accept loop, the listening one by the accept loop or, while accept() is blocked, by stop, a client by its handler, a backend by register's abort, its handler or, while it still forwards after stop, stop's snapshot |
| `ProxyShutdown.OpenClientsAreInSnapshot` | google/cloud/managed_spark_connect/client/proxy.py:771-789 | after stop every client socket still open is in the snapshot stop has yet to go through |
| `ProxyShutdown.OpensOrCloses` | google/cloud/managed_spark_connect/client/proxy.py:700-789 | which steps open and close the two sockets of a connection; no other step does |
| `ProxyShutdown.AcceptorOpensOrCloses` | google/cloud/managed_spark_connect/client/proxy.py:733-789 | the same of the listening socket and of one just accepted |
| `ProxyShutdown.StoppedMeansClosed` | google/cloud/managed_spark_connect/client/proxy.py:764-789 | after stop, when no step of the proxy is left, no socket is open, the one just accepted included, and the accept thread has ended |
| `ProxyShutdown.StopTerminates` | google/cloud/managed_spark_connect/client/proxy.py:733-789 | after stop every step other than another stop call uses up work, so the threads come to an end, and with none left no socket is open |
| `Liveness.DeadIffReportedGone` | google/cloud/managed_spark_connect/session.py:2756-2850 | over any history a dead verdict is cached exactly while a gone answer or a terminate call is more recent than every mark, ACTIVE answer and invalidation; CREATING and errors neither make nor remove it |
| `Liveness.ActiveIffReportedActive` | google/cloud/managed_spark_connect/session.py:2756-2850 | over any history an active verdict of a given time is cached exactly when the last thing said about the session was that it was active, then |
| `Liveness.LivenessCache.Do` | google/cloud/managed_spark_connect/session.py:2756-2850 | each locked write leaves the cache that its whole history describes: a mark, an answer and a terminate call write their own entry, forgetting a name removes its entries, and no other entry changes |
| `Liveness.LivenessCache.CheckCached` | google/cloud/managed_spark_connect/session.py:2808-2832 | after a failed RPC nothing is answered from the cache; otherwise "gone" exactly while reported gone, "active" exactly when reported active and, with a time to live of 0 or more, less than that long ago; never at 0, always without one or with a negative one |
| `Liveness.LivenessCache.Ask` | google/cloud/managed_spark_connect/session.py:2853-2885 | only ACTIVE and gone answers are recorded; CREATING counts as usable and an error as no verdict |
| `Liveness.LivenessCache.DeadSessionDetail` | google/cloud/managed_spark_connect/session.py:2888-2927 | a reason is given exactly when the cache or Dataproc reports the session gone, and then the cache says so; Dataproc is asked only if the cache does not know |
| `Liveness.Guard.IsActive` | google/cloud/managed_spark_connect/session.py:2961-3010 | whatever other threads do between the two cache reads, the RPC and the record: Dataproc is asked exactly when neither look at the cache says anything, always after a failed RPC, and once at most; the first look that says something decides |
| `Liveness.Guard.CheckActive` | google/cloud/managed_spark_connect/client/core.py:450-472 | raises only on a verdict of gone; a failing check lets the RPC through |
| `Liveness.Guard.RunGuard` | google/cloud/managed_spark_connect/client/core.py:318-334 | the guard mode holds during the check and is what it was afterwards |
| `Liveness.Guard.Invoke` | google/cloud/managed_spark_connect/client/core.py:336-371 | a session reported gone is never sent the RPC; after UNAVAILABLE or NOT_FOUND the caller sees SessionNotActiveError exactly when Dataproc says gone; after the five codes of a caller's fault, or no RPC error, its own error and nobody asks; after any other code Dataproc is asked exactly when the failure has no status details |
| `Liveness.GuardedFuture.CheckError` | google/cloud/managed_spark_connect/client/core.py:233-254 | the guard runs for the first error only, decided code by code as for a call, and every later retrieval repeats its verdict |
| `SessionLifecycle.PollForEndpoint` | google/cloud/managed_spark_connect/session.py:1235-1273 | the first reply that decides, decides: NotFound or a dead state is gone, ACTIVE or unspecified with an endpoint is ready; the wait runs out exactly when no reply is either |
| `SessionLifecycle.CheckCreatedSession` | google/cloud/managed_spark_connect/session.py:1199-1223 | a dead session is refused, a connectable one taken as it is, any other waited for |
| `SessionLifecycle.DoneIffEndedOrLeft` | google/cloud/managed_spark_connect/session.py:2662-2724 | a termination passes for done exactly when Dataproc said that the session was ending or gone, when it declined (Aborted, as while the session is being created), or when all 180 polls found it running; never two of these |
| `SessionLifecycle.LeftRunningButDone` | google/cloud/managed_spark_connect/session.py:2691-2721 | a session that stays ACTIVE through all polls, and one whose termination is declined, count as terminated; FAILED is seen in the 180th poll and not in the 181st |
| `SessionLifecycle.ManagedSession.TerminateServer` | google/cloud/managed_spark_connect/session.py:2662-2724 | fails exactly on an unexpected error or a session that ends up FAILED, and succeeds exactly when the end of the session was seen, Dataproc declined, or the 180 polls ran out on a running one |
| `SessionLifecycle.ManagedSession.TerminateServerSession` | google/cloud/managed_spark_connect/session.py:2596-2633 | TerminateSession is issued exactly when asked for, or by default when the id was generated, for the session the class describes |
| `SessionLifecycle.ManagedSession.Forget` | google/cloud/managed_spark_connect/session.py:2635-2659 | id, uuid, custom flag, project, region and options are cleared together, and so is the liveness cache |
| `SessionLifecycle.ManagedSession.Stop` | google/cloud/managed_spark_connect/session.py:2574-2594 | stopping a session that is not the default one terminates nothing and leaves the class-level state; stopping the default one terminates iff asked, or by default iff its id was generated; a failed termination keeps all of that and the open client, so stop can be retried, and otherwise (its end was seen, Dataproc declined, or the polls ran out) everything is cleared together; either way no verdict about it stays cached |
| `SessionLifecycle.StopKeepsAligned` | google/cloud/managed_spark_connect/session.py:2574-2594 | stopping keeps every thread on the default session exactly when it does not stop a default session that is active in another thread, which then goes on with a closed one |
| `SessionLifecycle.NameParts` | google/cloud/managed_spark_connect/session.py:2673 | with no slash in them, the project, the region and the id can be read off a session's name again |
| `SessionLifecycle.ConnectAligns` | google/cloud/managed_spark_connect/session.py:850-896 | a session opened when there is no default one leaves it the one the class describes, by project, region and id |
| `SessionLifecycle.ManagedSession.Connect` | google/cloud/managed_spark_connect/session.py:850-896 | the class describes the server session connected to; the new session object is open, the default, and active where none was |
| `SessionLifecycle.ManagedSession.CheckNewSession` | google/cloud/managed_spark_connect/session.py:1164-1197 | a new session is given up exactly when its first RPC failed and the cache reports it gone, or Dataproc answers NotFound or a state other than ACTIVE and CREATING |
| `SessionLifecycle.ManagedSession.UseNewSession` | google/cloud/managed_spark_connect/session.py:1129-1141 | a new session that turns out dead is abandoned without a TerminateSession, leaving no class-level state; one that cannot be connected to is an error |
| `SessionLifecycle.ManagedSession.CreateServer` | google/cloud/managed_spark_connect/session.py:942-1124 | the new server session once it can be connected to; SessionNotActiveError exactly when the replies to its creation say that it is gone; terminated exactly when its id was generated and the wait for its endpoint ran out with no reply saying gone or ready |
| `SessionLifecycle.ManagedSession.Create` | google/cloud/managed_spark_connect/session.py:942-1162 | one CreateSession at most; only a session reported gone raises SessionNotActiveError, with the class-level id cleared; a session is terminated exactly when its id was generated and the wait for its endpoint ran out; when all goes well the new session is the default one |
| `SessionLifecycle.ManagedSession.CreateWithRetries` | google/cloud/managed_spark_connect/session.py:898-940 | at most retries + 1 tries, one for a session the caller named; every try but the last was reported gone during this call, in its own replies or through the cache; each retry begins with the class-level id cleared |
| `SessionLifecycle.ManagedSession.HandleCustomSessionId` | google/cloud/managed_spark_connect/session.py:1540-1581 | the named session becomes the one described if it is usable; a session object to this very server session, by id and uuid, is kept, and any other is stopped and its server session left running |
| `SessionLifecycle.ManagedSession.GetExisting` | google/cloud/managed_spark_connect/session.py:1342-1458 | a session not reported gone is reused; one reported gone is stopped, and its server session terminated exactly when it is the default one with a generated id; one that can neither be checked nor reused is an error, not replaced |
| `SessionLifecycle.ManagedSession.Reattach` | google/cloud/managed_spark_connect/session.py:1400-1442 | with no session object in this process, one is opened to the server session the class describes exactly when that has an endpoint, or a poll says so, and connecting works; a poll that says it is gone raises that |
| `SessionLifecycle.ManagedSession.GetOrCreate` | google/cloud/managed_spark_connect/session.py:1460-1523 | a reply of ACTIVE or CREATING, or an error other than NotFound, reuses the session and nothing else happens; NotFound or any other state replaces it; only sessions with a generated id are terminated; used from one thread, the session returned is open and talks to the server session the class describes, which is the one stop() would terminate |
| `SessionLifecycle.ManagedSession.FindOrCreate` | google/cloud/managed_spark_connect/session.py:1502-1515 | the session to go on with, or a new one when there is none or it is reported gone, is the default from then on |
| `SessionLifecycle.ManagedSession.Run` | google/cloud/managed_spark_connect/session.py:1460-1523 | over any run of getOrCreate and stop of any threads, each operation terminates only sessions with a generated id, but for the one session that a stop(terminate=True) terminates; if all are of one thread the default session stays open and is the one the class describes, by its full name |
| `SessionLifecycle.ManagedSession.StoppedElsewhere` | google/cloud/managed_spark_connect/session.py:2574-2594 | with two threads it need not: the first is given back its session, closed by the second |
| `FormatString.FormatEscaped` | google/cloud/managed_spark_magics/sparksql.py:446-467 | formatting escaped text gives back the text, before whatever follows |
| `FormatString.StrayBraceFails` | google/cloud/managed_spark_magics/sparksql.py:446-467 | a brace after literal text that is neither doubled nor part of a named field makes formatting fail, which is what the escaping is for |
| `FormatString.FormatField` | google/cloud/managed_spark_magics/sparksql.py:458-460 | formatting `{name}` gives what the name is bound to, and fails on that name if it is not bound |
| `FormatString.IdentIs` | google/cloud/managed_spark_magics/sparksql.py:64-65 | names are letters, underscores and, from the second character on, digits |
| `BraceEscaping.BraceIdent` | google/cloud/managed_spark_magics/sparksql.py:395-415 | answers the closing brace and name exactly when the tokens make up one reference |
| `BraceEscaping.FindBraceIdent` | google/cloud/managed_spark_magics/sparksql.py:395-415 | the token loop finds that reference |
| `BraceEscaping.EscapeBraces` | google/cloud/managed_spark_magics/sparksql.py:446-467 | the loop yields the template: references as they are, everything else with doubled braces |
| `BraceEscaping.FindParameters` | google/cloud/managed_spark_magics/sparksql.py:418-443 | the loop yields every marker and field name once, in the order in which the statement first has them |
| `BraceEscaping.MarkersAre` | google/cloud/managed_spark_magics/sparksql.py:430-434 | the markers reported are exactly the placeholder tokens that read `:name`, none of them inside a reference |
| `BraceEscaping.FieldsAre` | google/cloud/managed_spark_magics/sparksql.py:435-441 | the fields reported are exactly the names of references whose opening brace is not typed as a placeholder |
| `BraceEscaping.FormatUndoesEscaping` | google/cloud/managed_spark_magics/sparksql.py:446-467 | for every token sequence and binding, formatting the template succeeds exactly when every reference is bound, and then yields the tokens verbatim with the references replaced |
| `BraceEscaping.SelfSubstitution` | google/cloud/managed_spark_magics/sparksql.py:446-467 | binding each name to `{name}` gives back the statement |
| `BraceEscaping.ReferencesAreFieldsOrMistyped` | google/cloud/managed_spark_magics/sparksql.py:418-467 | the names looked up are the fields found, plus those whose opening brace is typed as a placeholder |
| `BraceEscaping.FormatSucceedsOnReportedFields` | google/cloud/managed_spark_magics/sparksql.py:418-467 | with the reported fields bound, formatting succeeds exactly when every name of a placeholder-typed brace is also a reported field |
| `BraceEscaping.MistypedBraceFails` | google/cloud/managed_spark_magics/sparksql.py:418-467 | a statement where it does not |
| `BraceEscaping.NoTypedBraceNoMistyped` | google/cloud/managed_spark_magics/sparksql.py:418-443 | with no `{` token typed as a placeholder there is no such name |
| `BraceEscaping.BindParameters` | google/cloud/managed_spark_magics/sparksql.py:495-525 | undefined names, all of them, then the first marker and then the first field of the wrong kind are refused; otherwise exactly the names found are bound, and Spark executes the statement with only its references replaced |
| `Statements.MakeStatementKeepsCode` | google/cloud/managed_spark_magics/sparksql.py:357-367 | a statement exists exactly when there is code; it holds all the code in order, is the slice at its offset, ends with code, and only whitespace is cut off in front of it |
| `Statements.CodeIs` | google/cloud/managed_spark_magics/sparksql.py:344-354 | a token is code exactly when it is no comment or whitespace and is not made of whitespace and at most one `;` |
| `Statements.SplitStatements` | google/cloud/managed_spark_magics/sparksql.py:370-392 | statements are slices of the cell at their offsets, ordered and disjoint; every code token is in exactly one of them, in order; one statement per lexer piece with code, and a BEGIN script stays whole |
| `Statements.SplitPieces` | google/cloud/managed_spark_magics/sparksql.py:370-392 | the same for a cell that is not a script |
| `Statements.BeginOrDotless` | google/cloud/managed_spark_magics/sparksql.py:386-390 | the first word counts as BEGIN exactly when it is that in ASCII letters of either case, or would be with a dotless i for the I |
| `Statements.DotlessIsAScript` | google/cloud/managed_spark_magics/sparksql.py:386-392 | two statements returned as one because of that |
| `ErrorPositions.LineOffsetCounts` | google/cloud/managed_spark_magics/sparksql.py:685-690 | the offset found for a line has that many newlines before it, the last just before it; none is found exactly for want of newlines |
| `ErrorPositions.ParsePosition` | google/cloud/managed_spark_magics/sparksql.py:680-695 | the search loop finds the token at the position, or nothing past the end |
| `ErrorPositions.ParsePositionIsExact` | google/cloud/managed_spark_magics/sparksql.py:680-695 | the token found starts at that line and column exactly when the position lies inside the line; one is found exactly when the text reaches that far |
| `ErrorPositions.PastItsLine` | google/cloud/managed_spark_magics/sparksql.py:680-695 | a position past its line that is found on the next one |
| `ErrorPositions.SqlContext` | google/cloud/managed_spark_magics/sparksql.py:645-673 | the first context whose fragment is the text at its offsets decides |
| `ErrorPositions.BlamesIs` | google/cloud/managed_spark_magics/sparksql.py:659-672 | a context counts exactly when it is SQL, its offsets are in order and not negative, and what it quotes is the text between them |
| `ErrorPositions.ErrorExcerpt` | google/cloud/managed_spark_magics/sparksql.py:751-774 | query contexts go before the position in the text, and neither counts when the offsets are not the cell's |
| `ErrorPositions.CaretIsUnderTheCharacter` | google/cloud/managed_spark_magics/sparksql.py:751-768 | the carets are under the characters of the span, from its first one on, up to the end of the span, the statement or the line, whichever comes first; a newline has one, after the line |
| `ErrorPositions.PrintsTheLine` | google/cloud/managed_spark_magics/sparksql.py:751-768 | what is printed is the whole line of the cell that the span starts in |
| `ErrorPositions.LineAcrossStatement` | google/cloud/managed_spark_magics/sparksql.py:751-768 | line and column in the cell are those in the statement, shifted by where the statement starts |
| `ErrorPositions.ParseErrorRoundTrip` | google/cloud/managed_spark_magics/sparksql.py:680-768 | an error at line L, position P is printed on the L-th line of its statement, at column P, or P plus the statement's own column on the first line |
| `StreamSpans.StreamingCall.MarkStatus` | google/cloud/managed_spark_connect/instrumentation/_grpc.py:246-255 | one caller at most takes on recording the status, and none before the RPC is over or after the stream is finished |
| `StreamSpans.StreamingCall.RecordStatus` | google/cloud/managed_spark_connect/instrumentation/_grpc.py:242-259 | undisturbed, the code and one status event are recorded by the first call after the RPC ended |
| `StreamSpans.StreamingCall.Finish` | google/cloud/managed_spark_connect/instrumentation/_grpc.py:261-277 | undisturbed, the span ends once, with the count, after the inner layer's; finishing again changes nothing |
| `StreamSpans.StepsAreFinish` | google/cloud/managed_spark_connect/instrumentation/_grpc.py:261-277 | the interleaved steps of a layer, run without interruption, are what `Finish` does |
| `StreamSpans.EveryRunKeepsInv` | google/cloud/managed_spark_connect/instrumentation/_grpc.py:187-312 | every interleaving of the consumer with the two status callbacks keeps both layers consistent |
| `StreamSpans.EmittedOnceInOrder` | google/cloud/managed_spark_connect/instrumentation/_grpc.py:227-277 | each span is emitted at most once, the inner first, with at most one status event; a consumer done with the stream has had both emitted and taken out of flight |
| `StreamSpans.StatusIffRecordedInTime` | google/cloud/managed_spark_connect/instrumentation/_grpc.py:242-277 | over any run a span has its status event exactly when some thread marked the status, the RPC being over and the layer not finished, and added the event before the span ended |
| `StreamSpans.StatusWhenOver` | google/cloud/managed_spark_connect/instrumentation/_grpc.py:242-277 | when the RPC was over before the consumer began to finish a layer, its span ends with the status event, unless at that moment the callback is between marking the status and adding it |
| `StreamSpans.CallbackOvertaken` | google/cloud/managed_spark_connect/instrumentation/_grpc.py:253-277 | a run in which it is: the span is emitted without the event, and the callback then adds none |
| `StreamSpans.NoStatusWhileActive` | google/cloud/managed_spark_connect/instrumentation/_grpc.py:250-253 | while the RPC is running no span has a status event |
| `StreamSpans.DropRecordsNoStatus` | google/cloud/managed_spark_connect/instrumentation/_grpc.py:261-284 | a consumer that drops a running stream: both spans are emitted without one |
| `StreamSpans.LateMessageIsNotCounted` | google/cloud/managed_spark_connect/instrumentation/_grpc.py:227-240 | a message delivered after an exception that did not end the RPC: it is not in the count |
| `StreamSpans.CountIsDelivered` | google/cloud/managed_spark_connect/instrumentation/_grpc.py:227-277 | the response count of an ended span is the number of messages delivered exactly when none was delivered after the stream had been finished |
| `StreamSpans.RecordSaysHowItEnded` | google/cloud/managed_spark_connect/instrumentation/_grpc.py:242-308 | the record of an ended span says failed exactly when the consumer was first done with the stream by an exception, and cancelled exactly when by cancel(); a status event never comes without the code |
| `StreamSpans.OrderOfFinishing` | google/cloud/managed_spark_connect/instrumentation/_grpc.py:261-308 | a dropped stream is finished from the outer layer in; the end of the iteration, an exception and cancel() finish the inner layer first |
| `StreamSpans.ActiveUntilOver` | google/cloud/managed_spark_connect/instrumentation/_grpc.py:227-308 | the RPC is active until it terminates, is cancelled, or is over in what next() raises |
| `StreamSpans.RecordNeverChanges` | google/cloud/managed_spark_connect/instrumentation/_core.py:168-230 | nothing changes the record of a span that has ended, or brings it back in flight, and nobody records the status of a finished layer |
| `StreamSpans.FinishingEnds` | google/cloud/managed_spark_connect/instrumentation/_grpc.py:261-277 | the consumer always finishes what it began, and rests only with both layers finished |
| `StreamSpans.Recorder.Untrack` | google/cloud/managed_spark_connect/instrumentation/_core.py:348-351 | a span leaves once, and only then are waiters woken |
| `StreamSpans.Recorder.WaitIdle` | google/cloud/managed_spark_connect/instrumentation/_core.py:326-342 | true only at a moment with nothing of that name in flight, false only past the deadline with something in flight; it looks again otherwise |
| `ClientHooks.Client.Install` | google/cloud/managed_spark_connect/instrumentation/_client.py:67-83 | hooks are installed up to the first that raises, and all of them exactly when every name exists and every factory works |
| `ClientHooks.Client.Uninstall` | google/cloud/managed_spark_connect/instrumentation/_client.py:86-93 | every recorded name is restored, or removed if it was absent; without hooks nothing changes |
| `ClientHooks.UndoAt` | google/cloud/managed_spark_connect/instrumentation/_client.py:86-93 | undoing gives each recorded name what was recorded and no other name anything |
| `ClientHooks.InstallKeepsUndo` | google/cloud/managed_spark_connect/instrumentation/_client.py:67-83 | one more install call changes nothing about what uninstalling restores, even when it raises |
| `ClientHooks.OneUninstallRestores` | google/cloud/managed_spark_connect/instrumentation/_client.py:67-93 | after any install calls with any overlapping names, one uninstall gives back the instance dictionary exactly |
| `ClientHooks.NewestFirst` | google/cloud/managed_spark_connect/instrumentation/_client.py:67-83 | after one install call, a call runs the wrappers of its name newest first, down to what the name meant before |
| `ClientHooks.NewestFirstOverCalls` | google/cloud/managed_spark_connect/instrumentation/_client.py:67-83 | after any install calls with any overlapping names, a call runs the wrappers of all of them newest first, down to the original |
| `ShellExtras.ShellExtras.LoadExtras` | google/cloud/managed_spark_connect/_ipython.py:293-385 | loading injects `explore_dataframe` only where nothing was bound; an extension that is loaded, being imported or missing, or whose magics are all there, is left alone; otherwise, when it loads, only magics that were not there are added and the others are put back, and when it raises what it had registered stays |
| `ShellExtras.ShellExtras.UnloadExtension` | google/cloud/managed_spark_magics/__init__.py:27-45 | the extension removes only entries bound to its own classes, and `%%sparksql` not when that was loaded by itself |
| `ShellExtras.ShellExtras.UnloadExtras` | google/cloud/managed_spark_connect/_ipython.py:388-448 | unloading removes exactly the added entries that pass for ours, and our injected function if still bound |
| `ShellExtras.PresentMagicsSurvive` | google/cloud/managed_spark_connect/_ipython.py:364-372 | a magic present before loading is there after loading and after unloading, exactly when the extension did not raise after replacing it |
| `ShellExtras.ReplacedForGood` | google/cloud/managed_spark_connect/_ipython.py:364-381 | one that does not survive |
| `ShellExtras.MagicsUndone` | google/cloud/managed_spark_connect/_ipython.py:293-448 | load, anything others do, then unload leaves the magics those actions alone would have left, exactly when nothing they left under an added name passes for ours |
| `ShellExtras.ExploreUndone` | google/cloud/managed_spark_connect/_ipython.py:301-405 | the same for `explore_dataframe`, exactly when others did not bind the injected object again |
| `ShellExtras.OurOwnFunctionIsTaken` | google/cloud/managed_spark_connect/_ipython.py:388-448 | a concrete run where both fail |

## Left out

- The sockets, the WebSocket handshake, TLS, credentials, gRPC and the Dataproc
  API: only the outcomes of their calls are modelled, as inputs.
- pyspark's own `_release_until`, release-all, reattach iterator and retry policy:
  pyspark is not part of this model; an attempt at an RPC may be repeated and may
  fail.
- The lexer: token values are assumed to concatenate to the cell, and types to be
  arbitrary.
- Format fields other than plain names (conversions, specs, attributes, indexes):
  escaping never produces them, and formatting one is an error in the model.
- Names and digits outside ASCII in `{name}` and `:name`; the word test of an error
  token is a parameter.
- The printed excerpt drops trailing blanks of the line (`rstrip`); the model keeps
  the line whole.
- Thread joins of `stop()` with their shared deadline, connection-failure and outage
  logging: they change no socket and no verdict.
- Registering a thread and starting it is one step of the accept loop, so a thread that
  cannot be started is not modelled.
- Forwarding.CutWithinOneReceive: sends take no time, because the bound is about the
  receive timeout alone.
- Liveness.Guard.IsActive: events to the recorder are not modelled, because they do
  not affect the verdict.
- SessionLifecycle.ManagedSession.GetOrCreate: Dataproc batch workloads, builders'
  configuration, links, messages, the active-session file and the deletion of an
  unusable named session are not modelled; KeyboardInterrupt, exit hooks and
  garbage collection are outside the modelled steps.
- SessionLifecycle.ManagedSession.Stop: closing the client is one step that always
  completes; sessions of other classes are not modelled.
- StreamSpans.EmittedOnceInOrder: one consumer thread per stream; the attributes of
  a span other than its count, code, failure and cancellation, and its times, are not
  modelled.
- ClientHooks.Client.Install: the instance dictionary is not changed by others
  between install and uninstall.
- ShellExtras.ShellExtras.UnloadExtras: failing unloads and shells without a
  dictionary of magics are not modelled, because there is nothing to restore then.
- Environment probing, option parsing, result display, JSON sinks, logging set-up and
  packaging: lookups and formatting without state.

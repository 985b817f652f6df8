# Srslog server core, verified

A Dafny model of three linked parts of the srslog server: the green threads that serve its
connections, the accountant that turns byte counters into rates, and the connection manager that
ties the two together. Every statement below holds for all inputs, all schedules and all runs.

| file | what it models |
|---|---|
| `Base.dfy` | C++ integer division and narrowing, `std::find` and `erase` |
| `Clock.dfy` | the cached system clock |
| `Socket.dfy` | the byte counters of a socket |
| `Accounts.dfy` | the byte account of one traffic direction, over every sequence of operations |
| `Samples.dfy` | the sliding rate windows against the whole history of observations |
| `Kbps.dfy` | `SrsKbpsSlice` and `SrsKbps`, updated in place |
| `Context.dfy` | the supply of thread ids |
| `Thread.dfy` | `SrsThread`: its fields, its loop, and the callbacks of one run |
| `Lifecycle.dfy` | a joinable thread and its owner, over every interleaving |
| `World.dfy`, `WorldLaws.dfy` | listeners and connections, over every interleaving, with object lifetimes |
| `WorldBytes.dfy`, `WorldResample.dfy` | conservation of bytes in that world |
| `WorldIds.dfy` | that world with its ids drawn from the thread context |
| `Teardown.dfy` | the destructor of a listener beside that world |
| `Server.dfy` | `SrsServer`'s tables, updated in place |
| `Ticks.dfy` | the tick loop that refreshes the clock |

## How the coroutines are modelled

A coroutine loses the processor only in `st_usleep`, in `st_thread_join` and inside callbacks, and
`st_thread_create` only makes the child runnable. What a coroutine does between two such points is
one step, and a run is any sequence of enabled steps. `Thread.Next` says where a child goes from
each control point; `SrsThread.ThreadCycle` is the loop of the source and is proved to follow it.
In `World.dfy` every access to a connection or to its thread object passes through a check that
records a fault if the object has been deleted. The lemmas `OutsideStopIsSafeIff` and
`EarlyReleaseIsUnsafe` show that such faults can be reached once a safeguard is missing.

`gettimeofday` is an arbitrary function from the number of the call to a reading or a failure. Socket
calls are replaced by their outcomes: what they returned, the errno, and the bytes they moved. The
handler's return codes, the moment at which `loop` is cleared, the clients that arrive, their traffic
and the outcome of `st_thread_create` are all arbitrary.

## Where the code and its comments differ

The model follows the code.

- `start()` is said to wait until the cid is set. It does so only for the first start of an object,
  because `_cid` and `can_run` are never reset (`StartWaitsIff`, `RestartSkipsHandshake`).
- `get_send_kbps` and `get_recv_kbps` each use the start time of the other slice. They always return
  their own slice's average exactly if the clock was set before the object's first call
  (`GettersAreOwnAverageIff`). On any other clock one failing `gettimeofday` can set the two start times
  apart (`StartTimesStayEqualIff`), and a getter then says 0 where its own average is 1
  (`LateStartIsWrong`). `initialize` calls `srs_update_system_time_ms` before `set_io`, but ignores its
  return code.
- A clock that goes backwards is meant to be treated as a jump, but the difference is cut off at 0
  first, so only forward steps above 300 s move the startup time (`UptimeIgnoresJumps`).
- `set_io` forgets bytes that were added while there was no io (`SetIoKeepsTotalIff`,
  `ServerModeTotal`).
- Bytes are never counted if the call that moved them did not succeed: a fixed-size read cut short by
  the peer, or any read or write that moved some bytes and then failed (`CountersMeetTraffic`,
  `TimedOutWriteIsLost`).
- The comment in `accept_client` says that the cycle thread will remove the client. That is so exactly
  for the connections whose `st_thread_create` succeeded (`CanLeaveIff`); any other keeps its place in
  the table for ever (`FailedCreateHoldsItsPlace`).
- `SrsListener`'s destructor closes its descriptor number a second time after it has waited for its
  coroutine. If there is another listener, the number may belong to a client by then, whose descriptor
  is closed under it; `DestructorIsSafeIff` says exactly when that cannot happen. As the program stands
  it cannot: `get_listen` returns one port (src/conf/config_info.cpp:156-164), so there is one listener.
  Nor does any path destroy a running listener: `on_reload_listen` has no caller, `destroy` runs only
  from `~SrsServer` or under `SRS_AUTO_GPERF_MC`, and the global server is never deleted.

## Model

| member | source | states |
|---|---|---|
| Clock.SystemClock.Update | src/base/app_utility.cpp:127-165 | the whole new clock: a failed reading changes nothing, a cold cache starts over, a forward step above 300 s also moves the startup time |
| Clock.SystemClock.GetMs | src/base/app_utility.cpp:118-125 | a set clock is left alone and answers a thousandth of its microseconds; a cold one is refreshed once |
| Clock.MsIsThousandth | src/base/app_utility.cpp:118-125 | reported milliseconds are whole thousandths of the cached microseconds |
| Clock.UptimeIgnoresJumps | src/base/app_utility.cpp:140-165 | for any positive readings, cached time minus startup time is the sum of all raw steps not above 300 s, backward ones included |
| Clock.StartupNeverDecreases | src/base/app_utility.cpp:152-160 | the startup time never decreases along any readings |
| Socket.StSocket.Read | src/base/app_st_socket.cpp:50-78 | error code and errno for every result of st_read; only successful bytes are counted |
| Socket.StSocket.ReadFully | src/base/app_st_socket.cpp:80-108 | error code and errno for every result; only a read of exactly the requested size is counted |
| Socket.StSocket.Write | src/base/app_st_socket.cpp:110-133 | error code for every result of st_write; only successful bytes are counted |
| Socket.StSocket.Writev | src/base/app_st_socket.cpp:135-158 | error code for every result of st_writev; only successful bytes are counted |
| Socket.CodesTellApart | src/base/app_st_socket.cpp:50-158 | exactly which outcomes are a success, a timeout or an error, and which look like a reset |
| Socket.CountersMeetTraffic | src/base/app_st_socket.cpp:50-158 | in either direction the counters never exceed the bytes moved, and equal them exactly when no call moved bytes without succeeding |
| Socket.TimedOutWriteIsLost | src/base/app_st_socket.cpp:110-133 | a write that moved bytes and then timed out: they are not counted |
| Socket.CountersNeverDecrease | src/base/app_st_socket.cpp:75-78 | counters are monotone, as the accounts assume |
| Accounts.TotalIsSumOfSessions | src/base/app_kbps.h:32-46 | in connection mode the total is the sum over sessions of last sampled counter minus counter at set_io |
| Accounts.SetIoKeepsTotalIff | src/base/app_kbps.cpp:99-110 | set_io keeps the total exactly when there was an io or the session is empty; otherwise it loses exactly that session |
| Accounts.TotalNeverDecreases | src/base/app_kbps.cpp:31-34 | with monotone counters and total-keeping set_io the total never falls and no reported delta is negative |
| Accounts.ConnectionModeKeeps | src/base/app_kbps.h:94-99 | connection mode always meets the condition of SetIoKeepsTotalIff |
| Accounts.ServerModeTotal | src/base/app_kbps.h:100-106 | without any io, whatever set_io(NULL, NULL), sample, add_delta and reads happen, the total is what was added since the last set_io; a further set_io takes exactly that away |
| Accounts.DeltasTelescope | src/base/app_kbps.cpp:181-193 | all deltas returned up to a read add up to the total at that read, in any run |
| Samples.BaselinesAreUnique | src/base/app_kbps.cpp:41-81 | a history of observations has one list of baselines, each the first observation that ends the window before it |
| Samples.IncrementalRefinesHistory | src/base/app_kbps.cpp:36-82 | for every window width, the window kept in place is the last baseline of the history with the rate of the last closed window, or 0 |
| Samples.ClosedWindowExceedsWidth | src/base/app_kbps.cpp:62-81 | a closed window lasted longer than its width, so the division is defined |
| Samples.RateIsExactIff | src/base/app_kbps.h:22-30 | the rate survives the narrowing to int exactly when the window carried less than 2^31 bits per ms |
| Samples.RateBrackets | src/base/app_kbps.cpp:62-66 | a stored rate is the floor of 8 times bytes over duration |
| Samples.RatesIntegrateToTraffic | src/base/app_kbps.cpp:62-81 | over any closed windows of a steady history, the rates times durations add up to the bits moved, within one unit per window |
| Samples.BaselineGoesBackIff | src/base/app_kbps.cpp:41-66 | a baseline time goes back only if it was not positive; afterwards no window is older than its width |
| Samples.BaselineTimesNeverDecrease | src/base/app_kbps.cpp:36-82 | over any history with a positive clock, also one that goes backwards, baseline times never decrease |
| Kbps.KbpsSlice.Sample | src/base/app_kbps.cpp:36-82 | all four windows of the slice after one observation, nothing else changed |
| Kbps.SrsKbps.SetIo | src/base/app_kbps.cpp:92-129 | the whole new object and clock: old sessions folded in, new ones opened at the received and the sent bytes of their streams, both slices sampled; a start time that was 0 becomes the cached milliseconds |
| Kbps.SrsKbps.Sample | src/base/app_kbps.cpp:206-220 | where there is an io, the input slice reads its received and the output slice its sent bytes; both slices sampled |
| Kbps.SrsKbps.AddDelta | src/base/app_kbps.cpp:195-204 | what the source of the delta had not reported moves over and is marked there; also for a source that always answers 0, and for the object itself |
| Kbps.SrsKbps.GetSendBytesDelta | src/base/app_kbps.cpp:181-186 | returns the unreported send bytes and marks them |
| Kbps.SrsKbps.GetRecvBytesDelta | src/base/app_kbps.cpp:188-193 | returns the unreported received bytes and marks them |
| Kbps.SrsKbps.GetSendKbps | src/base/app_kbps.cpp:131-139 | average since the input slice's start time, 0 for no duration |
| Kbps.SrsKbps.GetRecvKbps | src/base/app_kbps.cpp:141-149 | average since the output slice's start time, 0 for no duration |
| Kbps.AccountsFollow | src/base/app_kbps.cpp:92-220 | in any run of calls both slices' bytes follow the accounts of Accounts.dfy |
| Kbps.DeltasAreReports | src/base/app_kbps.cpp:181-193 | in any run the values that a delta getter returns are the reports of its slice's account |
| Kbps.ObjectDeltasTelescope | src/base/app_kbps.cpp:181-193 | from a new object on, the deltas returned in one direction up to a read add up to the total at that read |
| Kbps.ObjectDeltasNotNegative | src/base/app_kbps.cpp:181-193 | none of them is negative, if totals are kept and counters grow |
| Kbps.WindowsFollowHistory | src/base/app_kbps.cpp:92-220 | in any run of calls all four windows of both slices are those of the slice's history of observations |
| Kbps.StartTimesStayEqual | src/base/app_kbps.cpp:94-117 | on a set clock the two start times are equal in every reachable state, and once set they stay |
| Kbps.StartTimesStayEqualIff | src/base/app_kbps.cpp:94-117 | equal start times stay equal under all calls and all positive clock answers exactly when they are set or the clock is |
| Kbps.FailedReadingSeparates | src/base/app_kbps.cpp:94-117 | on any clock that is not set, one failing gettimeofday in the first set_io makes them differ |
| Kbps.FirstSetIoStarts | src/base/app_kbps.cpp:94-120 | the first set_io starts both slices at the cached time, or on a cold clock at the time that is then read |
| Kbps.StartedAtFirstSetIo | src/base/app_kbps.cpp:94-120 | after any calls the start times are the clock at the object's first set_io, the clock being the refreshes so far |
| Kbps.GettersSinceFirstSetIo | src/base/app_kbps.cpp:131-149 | after any calls both getters return the floor of 8 times their slice's bytes over the time from the first set_io until now, by the clock alone |
| Kbps.GettersAreOwnAverage | src/base/app_kbps.cpp:131-149 | after any calls on a new object, on a set clock, both getters return the floor of their own slice's average since its own start |
| Kbps.GettersAreOwnAverageIff | src/base/app_kbps.cpp:131-149 | that holds for all calls and all positive clock answers exactly when the clock was set before the object's first call |
| Kbps.LateStartIsWrong | src/base/app_kbps.cpp:131-139 | after a first set_io with a failing clock and 125 sent bytes, get_send_kbps gives 0 and not its slice's own 1 |
| Kbps.HistoryIsSteady | src/base/app_kbps.cpp:36-39 | what a slice sees in any run has positive times and totals that never fall, if totals are kept and counters grow |
| Kbps.SeenNow | src/base/app_kbps.cpp:36-39 | on a set clock set_io and sample see the cached milliseconds and the slice's total; other calls see nothing |
| Kbps.StoredRatesIntegrate | src/base/app_kbps.cpp:36-82 | after any such run each window's stored rate is that of its last closed window, and all its rates times durations add up to the slice's bits, within one unit per window |
| Context.ThreadContext.GenerateId | src/base/app_thread_context.cpp:28-32 | the calling thread gets the next id, others keep theirs |
| Context.ThreadContext.GetId | src/base/app_thread_context.cpp:34-37 | the thread's id, or 0, which is then stored |
| Context.IdCountsGenerates | src/base/app_thread_context.cpp:28-37 | a thread's id is 100 plus the number of ids generated before its own last one |
| Context.IdsAreDistinct | src/base/app_thread_context.cpp:28-37 | ids are at least 100 and no two threads hold the same one |
| Thread.SrsThread.Start | src/base/app_thread.cpp:59-86 | start() up to its first sleep or return |
| Thread.SrsThread.ResumeStart | src/base/app_thread.cpp:77-85 | start() after each sleep: sleep on, or set can_run and return |
| Thread.SrsThread.Stop | src/base/app_thread.cpp:88-98 | stop() up to the join; without a thread nothing changes |
| Thread.SrsThread.FinishStop | src/base/app_thread.cpp:104-105 | after the join there is no thread |
| Thread.SrsThread.StopLoop | src/base/app_thread.cpp:113-116 | only the loop flag is cleared |
| Thread.SrsThread.ThreadCycle | src/base/app_thread.cpp:118-164 | for any return codes and any moments of stopping and releasing, the loop ends and sets the cid; its steps see exactly those codes and flags, and it stops only once loop was seen false |
| Thread.StopsOnlyWhenCleared | src/base/app_thread.cpp:135-162 | on_thread_stop is reached only from a control point at which loop was false |
| Thread.RoundsGoOn | src/base/app_thread.cpp:135-160 | after an iteration, failed or not, the child sleeps once and begins the next unless loop was cleared; a successful callback leads to the next one |
| Thread.WaitsForRelease | src/base/app_thread.cpp:127-136 | after on_thread_start the child waits exactly while it is neither released nor stopped |
| Thread.StartOutcome | src/base/app_thread.cpp:59-86 | fields and return code of start() in each case, up to its first sleep |
| Thread.WakeOutcome | src/base/app_thread.cpp:77-85 | start() sleeps on exactly while there is no cid and the loop runs |
| Thread.TraceShape | src/base/app_thread.h:4-14 | the callbacks of any run are start, iterations whose shape the return codes fix, and one stop if it is finished |
| Thread.StopCount | src/base/app_thread.cpp:162-163 | on_thread_stop is called at most once, and exactly once in a finished run |
| Thread.NoRoundOnceStopped | src/base/app_thread.cpp:135-160 | once the child has seen loop false, no further iteration begins |
| Thread.NoRoundBeforeRelease | src/base/app_thread.cpp:130-136 | no iteration callback is called before the child has seen can_run |
| Lifecycle.AtMostOneChildAlive | src/base/app_thread.cpp:59-106 | however start() and stop() alternate, at most one child is alive |
| Lifecycle.FirstStartHandshake | src/base/app_thread.cpp:68-85 | on the first start no iteration begins while start() has not returned; on return the cid is at least 100 or the loop was stopped |
| Lifecycle.StartWaitsIff | src/base/app_thread.cpp:77-83 | in every reachable state, start() waits for the child it creates exactly when it is the first child ever |
| Lifecycle.RestartSkipsHandshake | src/base/app_thread.cpp:39-46 | a run in which a second start() returns before its child has run at all |
| Lifecycle.EveryChildKeepsTheShape | src/base/app_thread.cpp:118-164 | in every interleaving every child's callbacks have the shape of TraceShape |
| Lifecycle.AfterStop | src/base/app_thread.cpp:88-106 | after stop() every child ever started has exited with exactly one on_thread_stop, and another stop() changes nothing |
| Lifecycle.ClearedLoopForcesExit | src/base/app_thread.cpp:130-163 | once loop is cleared the child exits after a bounded number of its own turns, whatever others do |
| World.InvStep | src/base/app_server.cpp:226-447 | every step of every coroutine keeps the invariant on lifetimes, table, descriptors and starts |
| WorldLaws.MemorySafety | src/base/app_conn.cpp:56-71 | in every interleaving no deleted connection or thread is accessed, each is deleted once, and both live while start() is still running |
| WorldLaws.GoneStaysFrozen | src/base/app_thread.cpp:162-176 | after on_thread_stop neither object is touched again |
| WorldLaws.StartReturnsIff | src/base/app_thread.cpp:77-85 | a listener leaves start() exactly when the child has been scheduled, with a cid of at least 100 |
| WorldLaws.OutsideStopIsSafeIff | src/base/app_thread.cpp:113-135 | clearing a connection's loop from outside is harmless exactly when nobody is inside its start() |
| WorldLaws.EarlyReleaseIsUnsafe | src/base/app_thread.cpp:42-46 | without the can_run handshake some run accesses a deleted thread |
| WorldLaws.AdmissionBound | src/base/app_server.cpp:399-413 | the table has no duplicates and at most max(0, max_connections) members |
| WorldLaws.DescriptorsMatchMembers | src/base/app_st.cpp:47-58 | the open client descriptors are exactly those of the members, all different |
| WorldLaws.AdmittedIff | src/base/app_server.cpp:403-436 | a client is admitted exactly if it comes from a base listener while fewer than max_connections client descriptors are open; any other is closed and changes nothing |
| WorldLaws.FailedCreateHoldsItsPlace | src/base/app_server.cpp:435-442 | a connection whose thread could not be created stays in the table, with its descriptor, in every later state |
| WorldLaws.CanLeaveIff | src/base/app_server.cpp:434-442 | a member can leave the table, in some run, exactly if it has a coroutine; it then needs nothing but being served |
| WorldIds.CidsAreDistinct | src/base/app_thread.cpp:122-125 | with ids drawn from the thread context, in every run no two connections whose coroutines have run share a cid |
| Teardown.DestructorIsSafeIff | src/base/app_listener.cpp:22-32 | over all continuations, destroying a listener costs no client its descriptor exactly when it has no thread, or thread-less connections fill the table, or there is no other listener |
| Teardown.RoomIsHarmful | src/base/app_listener.cpp:26-31 | with room in the table and another listener, the run in which a client is admitted on the freed number and then loses it |
| WorldBytes.BytesAreConserved | src/base/app_server.cpp:226-246 | server total plus unreported bytes of live connections equals the totals of all connections ever; removed ones are fully included |
| WorldBytes.ServerCountsTheTraffic | src/base/app_server.cpp:372-397 | the server never counts more than the sockets of its connections did, and exactly that once all connections are removed |
| WorldBytes.CountersAddUp | src/base/app_st_socket.cpp:75-155 | in every run the counters of all connections ever accepted add up to the traffic |
| WorldBytes.SampleCatchesUp | src/base/app_kbps.cpp:206-220 | in every run, sampling a metered connection brings its total up to its counter |
| WorldResample.ResampleListSettles | src/base/app_server.cpp:374-386 | resampling a list adds exactly the sum of its connections' unreported bytes and settles exactly those |
| WorldResample.OrderDoesNotMatter | src/base/app_server.cpp:374-386 | any order of the same connections gives the same result |
| WorldResample.ResampleAllIsIdempotent | src/base/app_server.cpp:374-386 | a second resampling without traffic changes nothing |
| WorldResample.ResampledServerCountsEverything | src/base/app_server.cpp:372-386 | after resampling all, the server's total is all that the sockets of its connections ever counted |
| WorldResample.ResampleAllAsInServer | src/base/app_server.cpp:374-386 | in the interleaved model resampling all does what SrsServer.ResampleAll promises: the list of what was unreported is summed, each member settled |
| Server.SrsServer.ResampleConn | src/base/app_server.cpp:388-396 | the connection's accounts and windows are sampled, exactly its unreported bytes move to the server, and the server is sampled; on any clock |
| Server.SrsServer.ResampleAll | src/base/app_server.cpp:374-386 | every connection is settled once, the sum of what they had is added, then the server is sampled; on any clock |
| Server.SrsServer.Remove | src/base/app_server.cpp:226-246 | an unknown connection changes nothing; a member is erased, settled, its descriptor closed and its thread freed |
| Server.SrsConnection.Stop | src/base/app_conn.cpp:67-71 | closes the descriptor and frees the thread, once |
| Server.SrsServer.AcceptClient | src/base/app_server.cpp:399-447 | who is admitted, what happens to the descriptor, the new connection's empty rates, and its thread's state when start() first sleeps or fails |
| Server.SrsServer.AcceptThenRemove | src/base/app_server.cpp:226-246 | a client that comes and goes without traffic leaves the server's totals, table and other descriptors as they were |
| Server.SrsServer.CloseListeners | src/base/app_server.cpp:356-370 | erasing in place leaves exactly the other listeners in their order and frees exactly the rest |
| Server.SelectSplits | src/base/app_server.cpp:356-370 | every listener is kept or freed, as often as it was in the table |
| Server.SrsServer.ListenBase | src/base/app_server.cpp:332-354 | the whole new listener table, also when a port cannot be listened on: the listeners of other types, then one base listener for each port in turn |
| Server.SelectsOthers | src/base/app_server.cpp:339 | the listeners that close_listeners keeps are the others of the table |
| Server.ReloadsKeepOthers | src/base/app_server.cpp:449-452 | any calls of ListenBase, failed ones included, each with its own ports, keep the other listeners |
| Server.OneListenerPerPort | src/base/app_server.cpp:449-452 | after any calls of ListenBase that end with a successful one there is exactly one base listener per port that it read |
| Server.ListenersPerPort | src/base/app_server.cpp:341-350 | after a last successful reload every port has as many base listeners as it was configured times, and no other port has any |
| Ticks.DoCycle | src/base/app_server.cpp:273-330 | which ticks refresh the clock; gettimeofday is called once for each of them, and the clock has absorbed all the answers |
| Ticks.BoundIs | src/base/app_server.cpp:291-299 | a pass has one tick per 100 ms of the interval, but at least three |
| Ticks.AllTicksAreLogged | src/base/app_server.cpp:299-323 | every pass makes all its ticks |
| Ticks.RegularRefreshes | src/base/app_server.cpp:319-323 | if every bound is a multiple of 3, gettimeofday is called for a third of the ticks |
| Ticks.ServerUptime | src/base/app_utility.cpp:140-165 | after any passes from a cold start, uptime is the sum of the plain steps between the readings at the refreshing ticks |
| Ticks.RegularTicks | src/base/app_server.cpp:299-323 | if every inner bound is a multiple of 3, exactly the global ticks divisible by 3 refresh |
| Ticks.RegularIff | src/base/app_server.cpp:291-323 | for a constant interval this holds exactly when the bound is a multiple of 3 |
| Ticks.ConfiguredTicksAreRegular | src/conf/config_info.cpp:151-154 | the configured interval gives the bound 99, so refreshes are regular |
| Ticks.RefreshAtLeastEveryThreeTicks | src/base/app_macros.h:98-103 | for any intervals, of three ticks in a row one refreshes |

## Left out

- Server.SrsServer.ResampleAll: says of each connection that its accounts are settled; that its own windows are sampled too is stated one connection at a time, in `ResampleConn`.
- Thread.SrsThread.Start: `start`, `stop` and `thread_cycle` are cut at the points where they lose the processor, one method per part, because a Dafny method cannot be suspended.
- World.InvStep: a connection's coroutine may be stopped from outside only when nobody is inside its `start()`; OutsideStopIsSafeIff shows that this is needed.
- Kbps.SrsKbps.SetIo: takes an `SrsStSocket` as stream; another implementer of `ISrsProtocolStatistic` would enter only through what it counts, and the laws on values hold for any counts. The 64-bit overflow of byte totals, of their product with 8 and of microsecond times is not modelled; integers are unbounded except where a rate or a loop bound is narrowed to 32 bits.
- Ids: the wrap-around of the 32-bit id counter.
- World.dfy keeps byte accounts but no rate windows; these are in Kbps.dfy and Server.dfy.
- What State Threads does to an `st_accept` whose descriptor is closed; Teardown.dfy takes it that the listener's coroutine accepts nobody after it is interrupted.
- Failed joins of joinable threads, and `stop()` called by two coroutines at once.
- Logging, JSON and configuration files, the pid file, signals, forking, epoll and socket set-up, peer addresses and network interfaces.
- Handler interfaces, reload callbacks and protocol wrappers that only forward a call, and the getters that only return a field.

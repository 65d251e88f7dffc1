# Verified models of the asynchronous MySQL and etcd protocols

The project models, in Dafny, the protocols at the heart of the repository and proves what they promise over every
run. `dafny verify dfyconfig.toml` checks all of it.

* **The MySQL connection engine** (`MysqlAsyncConnect.dfy`, with `MysqlTypes`, `MysqlLibrary`, `QuerySession`): a class
  with the original's fields, whose methods are the handlers of its states, the event entry points and the
  callers' operations. The library is an oracle: every call may wait, and the server's answers are functions of the
  requests it has seen. Completion callbacks may submit more sessions and close.
* **Its meaning** (`BlockingExecutor`, `ExecutorLaws`): a client that makes blocking calls, one session after the other;
  `ServeMeaning` says what it does in the server's own terms, request by request and cell by cell.
  `MysqlMachine` gives one step of the engine on values and shows that no step changes the result the connection is
  heading for; `MysqlRuns` lifts this to whole activations; `MysqlLoop` adds what wakes the engine, what stops it for
  good, arrivals and closing; `MysqlDatabase` ties the cached database name to the server. The class is proved to take
  exactly these steps: its entry points keep every property that steps keep, given as a ghost argument, so the results
  hold of it. `MysqlWitnesses` holds uses of the class that show where a promise ends.
* **The example driver** (`SharedListDriver`), **the pool** (`PoolDispatch`), **the etcd contexts** (`Wakeup`,
  `KeepAlive`, `WatchStream`), **boot and cleanup tasks** (`BootTasks`) and **prefix ranges** (`EtcdPrefix`).

## What the code does where it may surprise

* `QUERY_WAIT` tests the member `err_no_`, not the local error (integration/async_mysql/mysql_async_con.cc:292); the
  member is never assigned and is taken as 0, so a delayed error is found at `QUERY_RESULT_READY`.
* A fatal error at the end of a result set does not close the connection (mysql_async_con.cc:325-338): `FatalExactly`
  says exactly when a session loses it, and `LostRowsKeepConnection` gives the input. A session that only selects a
  database ends with code 0 and an empty message, not "db change success" (mysql_async_con.cc:121, 383).
* `Close` tests `QUERY_START`, a state in which a session is always current, so its guard never holds
  (mysql_async_con.cc:554). A connection that is closed while idle stays open (`IdleCloseStalls`) until the next session
  has been served (`NextSessionCloses`). A wait for nothing but the exception bit arms nothing and lasts for ever
  (`ExceptionBitStalls`). A session handed to a connection that is closed, or was never connected, is told nothing
  until the next connect, blocking close or destructor (`ClosedKeepsQueue`, `ParkedQueueStalls`, `ConnectReachesQueue`).
  With a queue left by `SyncConnect`, see below, these are all the ways to stall (`ProgressExactly`).
* `SyncConnect` does not reset the cached database name (mysql_async_con.cc:534-548): `SyncConnect` and
  `ConnectDecides` say exactly when that is harmless, and `BlockingReconnectMistargets` is a use that is not.
* Sessions queued before `SyncConnect` stay queued on an idle connection. A clean-up then runs their callbacks while the
  machine looks idle: it completes everybody once, in order, exactly if no such callback submits (`SyncClose`,
  `CleanUpReenters`); otherwise a session can be told twice, and its callback run twice (`StalledCloseTellsTwice`).
* The prefix end is computed without the carry that the protocol documents: `PrefixRangeIsExactly` says exactly when it
  is right.
* The pool's index is a 32-bit int that is never initialised and is taken modulo an unsigned 64-bit size: `FairExactly`
  says for which pool sizes the dispatch is always fair.

## What is taken from the library

A call that waits leaves its error output at 0 and writes its other outputs only when it completes; an error output
equals `mysql_errno`; a failed query has a nonzero error and `mysql_use_result` then returns null; a row has one cell
per field; the text of a query does not change the selected database; answers do not depend on which event woke the
call. The spin lock excludes, and an invoked resumer takes effect on the waiter's own loop.

## Model

| member | source | states |
|---|---|---|
| `MysqlRuns.ScheduleIndependence` | integration/async_mysql/mysql_async_con.cc:236-364 | once activated, serving a queue with non-blocking calls, under every pattern of waits, completes the same sessions in the same order with the same codes, messages, headers, rows and counters, and sends the same requests, as a blocking client that serves one session after the other |
| `MysqlRuns.SettledRunsAgree` | integration/async_mysql/mysql_async_con.cc:236-364 | the same from any intermediate state: what a connection has done once nothing more happens by itself is fixed by where it was, whatever the library's waits |
| `MysqlLoop.FairRunsSettle` | integration/async_mysql/mysql_async_con.cc:236-463 | if no operation waits for ever and every wait asks for something that is armed, a connection ends with no session left and exactly as the blocking client does, for every finite queue, finite results and finitely many submissions from callbacks, if and only if it is not stuck: at rest and idle with a queue or the close flag set, or in a wait that armed nothing, or closed or never connected with a queue |
| `MysqlLoop.ExceptionBitStalls` | integration/async_mysql/mysql_async_con.cc:431-463 | from every state that makes a call: if the call waits for nothing but the exception bit, nothing is armed, and the connection stays in that wait whatever the library would say next |
| `MysqlLoop.ClosingIsGraceful` | integration/async_mysql/mysql_async_con.cc:170-187 | asking a connection that connects, serves or closes to close changes no outcome of anything it has or that callbacks add, and then it closes |
| `MysqlLoop.NextSessionCloses` | integration/async_mysql/mysql_async_con.cc:196-219 | an idle connection that was asked to close stays open until the next session arrives, serves it as usual, and then closes |
| `MysqlLoop.OnlyLateAreClosed` | integration/async_mysql/mysql_async_con.cc:170-219 | whatever arrives from outside and whenever the close is asked for: of the sessions that the machine completes, exactly those not completed when CLOSE_START is entered are told closed, and without a fatal error these are only later arrivals |
| `MysqlLoop.ClosedKeepsQueue` | integration/async_mysql/mysql_async_con.cc:178-187 | a session that arrives once the connection is closed is told nothing: it stays in the queue, in order, and the log does not change |
| `MysqlLoop.ConnectReachesQueue` | integration/async_mysql/mysql_async_con.cc:528-532 | a connect reaches the sessions queued on a connection that is closed or was never connected: all are completed, in order |
| `MysqlRuns.NextDescends` | integration/async_mysql/mysql_async_con.cc:241-363 | every turn of the loop goes down a lexicographic measure (phase, sessions to come, stage, rows to come), except an operation that waits again and changes nothing |
| `MysqlMachine.NextKeepsFuture` | integration/async_mysql/mysql_async_con.cc:244-362 | no step, waiting or not, changes the final result the connection is heading for |
| `MysqlMachine.ServingFaithful` | integration/async_mysql/mysql_async_con.cc:256-358 | within a session each step leaves its outcome as it will be, or completes it with exactly that outcome and goes to close exactly if serving it loses the connection; errors seen at the query call and errors seen only at the result give the same |
| `MysqlMachine.FetchKeepsRows` | integration/async_mysql/mysql_async_con.cc:314-321 | a fetch moves a row from the library to the session without losing, adding or reordering any |
| `MysqlMachine.ResultFaithful` | integration/async_mysql/mysql_async_con.cc:300-313 | a result set, an error and a missing result each lead to the outcome that the answer to the query calls for |
| `MysqlMachine.RowFaithful` | integration/async_mysql/mysql_async_con.cc:322-358 | a row with null cells as NULL joins the rows read so far; at the end the session gets code, message, headers and counts |
| `ExecutorLaws.RunAllInOrder` | integration/async_mysql/mysql_async_con.cc:196-219 | queued sessions complete in the order in which they were queued, before anything a callback adds, across errors, a lost connection and a close |
| `ExecutorLaws.ClosedNeedsFatal` | integration/async_mysql/mysql_async_con.cc:170-187 | the state machine reports a session as closed only after an earlier session ended with a fatal error |
| `ExecutorLaws.FatalExactly` | integration/async_mysql/mysql_async_con.cc:222-338 | a session loses the connection if and only if its code is fatal and is not the code at the end of a result set |
| `ExecutorLaws.LostRowsKeepConnection` | integration/async_mysql/mysql_async_con.cc:325-338 | the server is lost while rows are read: the session has a fatal code, and the next one is still sent over the same connection |
| `ExecutorLaws.RunAllIgnoresClosing` | integration/async_mysql/mysql_async_con.cc:196-202 | for the blocking client, asking to close changes no outcome; the queue is served first |
| `ExecutorLaws.DrainSubmitsExactly` | integration/async_mysql/mysql_async_con.cc:521-525 | some callback of the clean-up submits if and only if the clean-up uses up submissions |
| `ExecutorLaws.ServeLogsOnce` | integration/async_mysql/mysql_async_con.cc:236-364 | serving a session completes it once, never as closed, and loses the connection only with a fatal code |
| `ExecutorLaws.DrainLogs` | integration/async_mysql/mysql_async_con.cc:521-525 | the clean-up completes every queued session, and every one queued while it works, in order |
| `ExecutorLaws.DrainFrom` | integration/async_mysql/mysql_async_con.cc:521-525 | completing the queue element by element, while callbacks append to it, is draining the queue |
| `ServeMeaning.RequestsExactly` | integration/async_mysql/mysql_async_con.cc:206-218 | a session sends a select exactly if it names a database other than the cached one, and then its text exactly if it has one and the select was not refused; nothing else is sent, and the cache names what was selected |
| `ServeMeaning.NoNeedlessSelect` | integration/async_mysql/mysql_async_con.cc:211-218 | a session that names no database, or the cached one, sends its text and nothing else |
| `ServeMeaning.OutcomeExactly` | integration/async_mysql/mysql_async_con.cc:236-390 | every session is told once what the server answered to its last request: code, message with an error only, headers, every row in order with null cells as NULL, the row count and the affected count in 32 bits; -9999 for an empty text without a select |
| `ServeMeaning.RowTextExactly` | integration/async_mysql/mysql_async_con.cc:346-354 | as many cells, each with its own text, a null cell as NULL |
| `ServeMeaning.LostExactly` | integration/async_mysql/mysql_async_con.cc:222-234 | the connection is lost if and only if the code is 2000, 2006, 2008 or 2013 and no result set was read |
| `ServeMeaning.FrontDecides` | integration/async_mysql/mysql_async_con.cc:196-219 | a front session that loses the connection is followed by one close request and everybody else is told closed; otherwise the rest is served from where it left the connection |
| `ServeMeaning.EmptyDecides` | integration/async_mysql/mysql_async_con.cc:196-202 | with an empty queue the connection is kept, or closed with one request if that was asked for |
| `ServeMeaning.OpenExactly` | integration/async_mysql/mysql_async_con.cc:170-219 | a served queue ends open with nothing to do and no close asked for, or with exactly one close request, the last that is sent |
| `ServeMeaning.ClosedExactly` | integration/async_mysql/mysql_async_con.cc:515-525 | everybody queued, and everybody their callbacks add, is told code -1 and closed, in order, after one close request |
| `ServeMeaning.CallbackExactly` | integration/async_mysql/query_session.cc:43-48 | a callback sees the log with its own session; what it submits joins the end of the queue, as far as allowed, and its close is remembered; without a callback nothing changes |
| `ServeMeaning.ConnectExactly` | integration/async_mysql/mysql_async_con.cc:152-169 | a connect that succeeds serves the queue with the configured name in the cache; one that fails closes and tells everybody closed |
| `MysqlDatabase.RunsStayTargeted` | integration/async_mysql/mysql_async_con.cc:91-133 | in every run every query for a named database is sent while the server has that database selected, across select failures, reconnects and waits |
| `MysqlDatabase.NextKeepsSound` | integration/async_mysql/mysql_async_con.cc:91-133 | one step keeps the agreement of the cached name, the state and the server's database |
| `MysqlDatabase.CacheDecides` | integration/async_mysql/mysql_async_con.cc:211-218 | skipping the select is right for every session if and only if the cache is empty or names the selected database |
| `MysqlDatabase.ConnectDecides` | integration/async_mysql/mysql_async_con.cc:534-548 | an idle connection right after a connect is sound if and only if its cache is empty or names the configured database |
| `MysqlDatabase.FailedConnectKeepsSound` | integration/async_mysql/mysql_async_con.cc:534-543 | a blocking connect that fails leaves the agreement of cache and server as it was |
| `MysqlTypes.WellTargetedSnoc` | integration/async_mysql/mysql_async_con.cc:206-218 | a history stays well targeted by one more request if and only if that request, if a query, finds its database selected |
| `MysqlTypes.ToInt32` | integration/async_mysql/query_session.h:64-65 | the library's counters are kept modulo 2^32 in signed fields |
| `MysqlLibrary.DisciplinedEverywhere` | integration/async_mysql/mysql_async_con.cc:70-193 | in a disciplined trace every call, not only the last, is allowed by the calls before it |
| `MysqlLibrary.RulesExactly` | integration/async_mysql/mysql_async_con.cc:70-193 | every start or blocking connect comes first or after a call that left nothing to wait for; every continuation comes first in its activation and after a call of its own operation that did |
| `MysqlLibrary.Mysql.UseResult` | integration/async_mysql/mysql_async_con.cc:303-310 | a result set becomes live, otherwise the error number tells why there is none |
| `MysqlLibrary.Mysql.FreeResult` | integration/async_mysql/mysql_async_con.cc:331-332 | a live result is freed, once |
| `MysqlLibrary.Mysql.BlockingClose` | integration/async_mysql/mysql_async_con.cc:564-564 | the blocking close abandons what is pending and leaks a live result |
| `QuerySessions.QuerySession.SetCode` | integration/async_mysql/query_session.cc:29-37 | code and message are replaced, nothing else |
| `QuerySessions.QuerySession.PendingRow` | integration/async_mysql/query_session.cc:39-41 | the row is appended, nothing else changes |
| `QuerySessions.QuerySession.CallBack` | integration/async_mysql/query_session.cc:43-46 | the callback runs if it is installed, and stays installed meanwhile |
| `QuerySessions.QuerySession.ClearCallback` | integration/async_mysql/query_session.cc:47-47 | after it has run the callback is removed |
| `MysqlConnection.MysqlAsyncConnect.HandleState` | integration/async_mysql/mysql_async_con.cc:236-364 | the loop ends, keeps the connection valid (ownership, pending operation, first-in first-out ledger, result counts), keeps every property that steps keep, and rests waiting with exactly the interest asked for, or with nothing left to do |
| `MysqlConnection.MysqlAsyncConnect.Turn` | integration/async_mysql/mysql_async_con.cc:241-363 | one turn takes exactly the step of the value machine and keeps the invariant |
| `MysqlConnection.MysqlAsyncConnect.HandleStateConnect` | integration/async_mysql/mysql_async_con.cc:135-193 | the connect and close states take exactly their step |
| `MysqlConnection.MysqlAsyncConnect.HandleStateSelectDb` | integration/async_mysql/mysql_async_con.cc:91-133 | the select states take exactly their step |
| `MysqlConnection.MysqlAsyncConnect.HandleStateQuery` | integration/async_mysql/mysql_async_con.cc:262-313 | the query states take exactly their step |
| `MysqlConnection.MysqlAsyncConnect.HandleStateFetchRow` | integration/async_mysql/mysql_async_con.cc:314-358 | the fetch states take exactly their step |
| `MysqlConnection.MysqlAsyncConnect.HandleStateIdle` | integration/async_mysql/mysql_async_con.cc:196-219 | the front of the queue becomes current and goes to the query exactly if it names no database or the last selected one, else to the select; with an empty queue the close begins exactly if it was asked for |
| `MysqlConnection.MysqlAsyncConnect.FailQuery` | integration/async_mysql/mysql_async_con.cc:101-105 | the session fails and the connection goes to close exactly on the codes 2000, 2006, 2008 and 2013, else to idle |
| `MysqlConnection.MysqlAsyncConnect.QueryResume` | integration/async_mysql/mysql_async_con.cc:287-299 | an error at this point is left to the next state, because the tested member is never assigned |
| `MysqlConnection.MysqlAsyncConnect.DoneCurrentQuery` | integration/async_mysql/mysql_async_con.cc:380-390 | the current session gets its outcome and is completed once; the books balance; the world is the executor's |
| `MysqlConnection.MysqlAsyncConnect.BeginDone` | integration/async_mysql/query_session.cc:43-46 | the session is in the log when its callback runs, and is the next to finish |
| `MysqlConnection.MysqlAsyncConnect.EndDone` | integration/async_mysql/query_session.cc:47-48 | the completed session moves from the open to the finished part of the ledger |
| `MysqlConnection.MysqlAsyncConnect.RunCallback` | integration/async_mysql/mysql_async_con.cc:465-472 | a callback that submits or closes never starts the state machine from inside |
| `MysqlConnection.MysqlAsyncConnect.GoNextState` | integration/async_mysql/mysql_async_con.cc:70-88 | go on at once exactly if the status is zero, else rest in the wait state, armed |
| `MysqlConnection.MysqlAsyncConnect.WaitMysqlStatus` | integration/async_mysql/mysql_async_con.cc:431-463 | fd interest and timer match exactly the read, write and timeout bits |
| `MysqlConnection.MysqlAsyncConnect.ResetWaitEvent` | integration/async_mysql/mysql_async_con.cc:422-429 | nothing stays armed |
| `MysqlConnection.MysqlAsyncConnect.ParseResultDesc` | integration/async_mysql/mysql_async_con.cc:367-378 | the headers become the names of the fields, in order |
| `MysqlConnection.MysqlAsyncConnect.TextOf` | integration/async_mysql/mysql_async_con.cc:346-354 | as many cells, in order, each its own text, a null cell as NULL |
| `MysqlConnection.MysqlAsyncConnect.TakeRow` | integration/async_mysql/mysql_async_con.cc:341-357 | the row joins the session, the headers with the first |
| `MysqlConnection.MysqlAsyncConnect.EndRows` | integration/async_mysql/mysql_async_con.cc:325-332 | the number of rows read is stored, in 32 bits, and the result freed exactly once |
| `MysqlConnection.MysqlAsyncConnect.OnEvent` | integration/async_mysql/mysql_async_con.cc:392-401 | an event reaches only a connection that waits, keeps whatever steps keep, and leaves it waiting or with nothing to do |
| `MysqlConnection.MysqlAsyncConnect.RunPosted` | integration/async_mysql/mysql_async_con.cc:528-532 | the posted task keeps whatever steps keep, and leaves the connection waiting or with nothing to do |
| `MysqlConnection.MysqlAsyncConnect.StartQuery` | integration/async_mysql/mysql_async_con.cc:465-472 | the session is appended; an idle connection runs at once, keeps whatever steps keep from the longer queue on, and is not left with a queue |
| `MysqlConnection.MysqlAsyncConnect.ServeOut` | integration/async_mysql/mysql_async_con.cc:465-472 | for every pattern of waits and any number of events: an idle connection that is given a session and settles has exactly the world, and is open or closed exactly as, the blocking client that served the queue |
| `MysqlConnection.MysqlAsyncConnect.ProgressExactly` | integration/async_mysql/mysql_async_con.cc:196-219 | at rest either no session is open and no operation or close is due, or an event is armed, or a task is posted, if and only if the connection is neither idle with a queue or the close flag set, nor in a wait that armed nothing, nor unconnected with a queue |
| `MysqlConnection.MysqlAsyncConnect.RunOut` | integration/async_mysql/mysql_async_con.cc:392-401 | with no endless wait and every wait armed, the events bring every waiting connection to its end, keeping whatever steps keep |
| `MysqlConnection.MysqlAsyncConnect.ServeFully` | integration/async_mysql/mysql_async_con.cc:465-472 | with such a library an idle connection that is given a session ends with no session left, with the world of the blocking client, and open or closed as it is |
| `MysqlConnection.MysqlAsyncConnect.ConnectFully` | integration/async_mysql/mysql_async_con.cc:528-532 | with such a library whatever was queued before a connect is completed exactly as by the blocking client after its connect |
| `MysqlConnection.MysqlAsyncConnect.ConnectNeedsQuiet` | integration/async_mysql/mysql_async_con.cc:528-537 | a connect, blocking or not, keeps the library's calling rules if and only if the connection is not waiting for an operation |
| `MysqlConnection.MysqlAsyncConnect.Connect` | integration/async_mysql/mysql_async_con.cc:528-532 | a connection with nothing pending will connect when the posted task comes |
| `MysqlConnection.MysqlAsyncConnect.SyncConnect` | integration/async_mysql/mysql_async_con.cc:534-548 | the connection stalls exactly if sessions were queued before, and stays sound exactly if the cache is empty or the configured name |
| `MysqlConnection.MysqlAsyncConnect.Close` | integration/async_mysql/mysql_async_con.cc:550-557 | only the flag changes: in no reachable state does the guard start the machine |
| `MysqlConnection.MysqlAsyncConnect.CloseEach` | integration/async_mysql/mysql_async_con.cc:521-525 | the loop over a queue that grows meanwhile is the executor's drain |
| `MysqlConnection.MysqlAsyncConnect.CleanUp` | integration/async_mysql/mysql_async_con.cc:505-526 | nothing stays armed, everybody is told closed, in order and once |
| `MysqlConnection.MysqlAsyncConnect.CloseFinish` | integration/async_mysql/mysql_async_con.cc:178-187 | clean up and park; nothing can run the parked state until the next connect |
| `MysqlConnection.MysqlAsyncConnect.SyncClose` | integration/async_mysql/mysql_async_con.cc:559-567 | at any time at which the connection is calm: all completed in order, one close request, nothing armed |
| `MysqlConnection.MysqlAsyncConnect.Destroy` | integration/async_mysql/mysql_async_con.cc:15-26 | at the end of a calm connection's life the finished sessions are the submitted ones, each completed once |
| `MysqlConnection.MysqlAsyncConnect.CleanUpReenters` | integration/async_mysql/mysql_async_con.cc:521-525 | on every connection that is not calm (idle, with a queue one of whose callbacks submits when told closed) the clean-up starts the machine from inside that callback, with a session at the front of the queue that was told closed already |
| `MysqlConnection.MysqlAsyncConnect.TellAgain` | integration/async_mysql/mysql_async_con.cc:196-271 | started so, the machine takes that session, and if its text is empty tells it a second time; its callback, if still installed, runs a second time |
| `MysqlConnection.MysqlAsyncConnect.IsCalm` | integration/async_mysql/mysql_async_con.cc:521-525 | tells whether a clean-up can be made |
| `MysqlConnection.MysqlAsyncConnect.Live` | integration/async_mysql/mysql_async_con.cc:236-567 | whatever events, submissions, connects, blocking connects and closes come in whatever order, ledger, calling rules and armed interest hold; it stops only before a blocking close on a connection that is not calm; the database stays sound unless a blocking connect found another name in the cache |
| `MysqlConnection.MysqlAsyncConnect.Life` | integration/async_mysql/mysql_async_con.cc:15-567 | a whole life: the library is called by its rules; every session is completed exactly once and in order unless a blocking close or the destructor meets a connection that is not calm; with blocking connects only when fresh that never happens and every query runs in its database |
| `MysqlWitnesses.IdleCloseStalls` | integration/async_mysql/mysql_async_con.cc:550-557 | a connection closed while idle has a close to do and nothing armed or posted that would do it |
| `MysqlWitnesses.StalledCloseTellsTwice` | integration/async_mysql/mysql_async_con.cc:534-567 | a session queued before a blocking connect, whose callback submits: the blocking close runs its callback twice |
| `MysqlWitnesses.ParkedQueueStalls` | integration/async_mysql/mysql_async_con.cc:465-472 | a session handed to any unconnected connection stays queued, with nothing armed or posted |
| `MysqlWitnesses.ClosedConnectionStalls` | integration/async_mysql/mysql_async_con.cc:465-472 | the same after a close |
| `MysqlWitnesses.BlockingReconnectMistargets` | integration/async_mysql/mysql_async_con.cc:534-567 | connect, use another database, close and connect again, all blocking: the next query for that database runs in the configured one |
| `SharedListDriver.EachQueryOnce` | examples/async_mysql/mysql_async_offcial.cc:157-304 | for any number of connections and any interleaving, queries are started in list order, each by one connection, held by it until freed, and freed once; the counter is the number of begun and unfinished connections |
| `SharedListDriver.EveryRowRead` | examples/async_mysql/mysql_async_offcial.cc:217-275 | without a fatal exit every freed query ends once, and unless it failed every row that its result announced was printed; a connection between queries has no result left to read, and only one that was made sends queries |
| `SharedListDriver.ExitsExactly` | examples/async_mysql/mysql_async_offcial.cc:183-231 | the process exits exactly on a failed connect and on a successful query without a result; a failed query does not end it |
| `SharedListDriver.ZeroMeansFinished` | examples/async_mysql/mysql_async_offcial.cc:294-299 | once all have begun the counter is zero exactly when all are over, and then the list is empty, nobody holds a query and every query was freed |
| `SharedListDriver.PassKeepsInv` | examples/async_mysql/mysql_async_offcial.cc:163-303 | one pass through the switch keeps list, holders, freed queries and counter right |
| `SharedListDriver.PassDescends` | examples/async_mysql/mysql_async_offcial.cc:163-303 | a pass that goes round again goes down in phase, list, stage or rows |
| `SharedListDriver.PassArmsExactly` | examples/async_mysql/mysql_async_offcial.cc:109-135 | a pass that ends in a wait arms an event if and only if the status has the read, write or timeout bit |
| `SharedListDriver.UnfinishedCounts` | examples/async_mysql/mysql_async_offcial.cc:294-299 | a connection that has begun and is not over keeps the counter from zero |
| `SharedListDriver.Driver.NextEvent` | examples/async_mysql/mysql_async_offcial.cc:109-135 | the event is the one that the bits of the status ask for |
| `SharedListDriver.Driver.QueryOver` | examples/async_mysql/mysql_async_offcial.cc:217-231 | a failed query is noted and the next one follows; a good one begins a result with the announced rows and none printed |
| `SharedListDriver.Driver.StateMachineHandler` | examples/async_mysql/mysql_async_offcial.cc:157-304 | the handler ends even if the library never waits, moves no other connection and keeps the invariant |
| `SharedListDriver.Driver.Dispatch` | examples/async_mysql/mysql_async_offcial.cc:294-299 | events go to connections that have one armed, one that waits for nothing stays as it is for ever, and the loop is told to stop exactly when the count has reached zero |
| `SharedListDriver.Driver.Drive` | examples/async_mysql/mysql_async_offcial.cc:407-423 | start all and dispatch any events: every unfinished connection waits, with an event armed if every wait arms one; a zero counter means that all queries were freed and have ended, every row printed |
| `PoolDispatch.RoundRobin` | integration/async_mysql/mysql_client_impl.cc:44-56 | while the index is not negative and does not overflow, k * n calls give each of n ready connections exactly k queries |
| `PoolDispatch.FairExactly` | integration/async_mysql/mysql_client_impl.cc:44-56 | from every index, also across the two jumps of the 32-bit index, the dispatch is fair if and only if the number of connections divides 2^64 |
| `PoolDispatch.ThreeSkips` | integration/async_mysql/mysql_client_impl.cc:44-56 | three connections, index -2: connection 2 is passed over |
| `PoolDispatch.Pool.GetClient` | integration/async_mysql/mysql_client_impl.cc:44-56 | exactly one connection is looked at, the next in turn |
| `PoolDispatch.Pool.PendingQuery` | integration/async_mysql/mysql_client_impl.cc:33-42 | exactly one of a start or a refusal is posted, and the index moves by one |
| `PoolDispatch.Pool.Burst` | integration/async_mysql/mysql_client_impl.cc:33-56 | with all connections ready the calls go to the slots in turn, in order |
| `EtcdPrefix.PrefixRangeIsExactly` | content/etcdv3/etcd_client.cc:85-89 | a prefix request selects exactly the keys with the prefix if and only if the last byte is below 0xff or the key is one byte |
| `EtcdPrefix.IncrementBounds` | content/etcdv3/etcd_watcher.cc:30-35 | between a key and the key with its last byte incremented lie exactly the keys it is a prefix of |
| `EtcdPrefix.WrappedEndIsEmpty` | content/etcdv3/etcd_client.cc:85-89 | a longer key that ends in 0xff selects nothing, because no carry is made |
| `EtcdPrefix.DocumentedEndIsExact` | content/etcdv3/proto/rpc.proto:233-240 | the documented end, with its carry, selects exactly the keys with the prefix, for every key |
| `EtcdPrefix.NoCarryExactly` | content/etcdv3/etcd_client.cc:85-89 | the code sends the documented end if and only if the last byte is below 0xff or the key is one byte |
| `Wakeup.NoLostWakeup` | content/etcdv3/context/call_context.cc:8-26 | in every interleaving, once a completion has finished, a waiter that yielded has been woken, and any other finds the context done |
| `Wakeup.NoEarlyWakeup` | content/etcdv3/context/keepalive_ctx.cc:41-48 | nobody is woken or returns at once before a completion stored its result and set done |
| `Wakeup.WakesExactly` | content/etcdv3/context/call_context.cc:8-26 | the resumer is invoked once by every completion that looks after it was installed, so more than once exactly if two of them do |
| `Wakeup.RunKeepsInv` | content/etcdv3/context/call_context.cc:8-26 | mutual exclusion and the order of store, look and install hold in every interleaving |
| `KeepAlive.KeepAliveContext.constructor` | content/etcdv3/context/keepalive_ctx.cc:25-39 | a started stream has exactly one thing under way, the first write |
| `KeepAlive.KeepAliveContext.OnReadDone` | content/etcdv3/context/keepalive_ctx.cc:56-72 | after a response exactly one of half-close or delayed write follows, by the cancel flag |
| `KeepAlive.KeepAliveContext.OnWriteDone` | content/etcdv3/context/keepalive_ctx.cc:74-79 | a written request leads to exactly one read, a failed one to a resume |
| `KeepAlive.KeepAliveContext.OnDelay` | content/etcdv3/context/keepalive_ctx.cc:68-71 | the pause ends with one write, whatever the cancel flag, and nothing else |
| `KeepAlive.KeepAliveContext.OnWritesDoneDone` | content/etcdv3/context/keepalive_ctx.cc:81-83 | the half-close is noted and nothing else changes; the waiter is not resumed |
| `KeepAlive.KeepAliveContext.OnDone` | content/etcdv3/context/keepalive_ctx.cc:50-54 | the waiter is resumed once, with the status, and nothing else changes |
| `KeepAlive.KeepAliveContext.Handle` | content/etcdv3/context/keepalive_ctx.cc:50-83 | each possible event has its own effect and is counted once |
| `KeepAlive.KeepAliveContext.Run` | content/etcdv3/context/keepalive_ctx.cc:25-83 | in every run there is one token; after a cancel at most one more request, after the half-close none; the waiter is resumed exactly by the failed writes, the failed reads and the ends of the call, with the last result |
| `WatchStream.OneReadOneWrite` | content/etcdv3/context/watch_context.cc:9-129 | in every interleaving at most one read and one write are outstanding, and each coroutine is resumed by the operation it issued and sees that operation's result |
| `WatchStream.EveryEventOnceInOrder` | content/etcdv3/context/watch_context.cc:45-74 | each event of each accepted response reaches the handler at most once and in order, and exactly once when its coroutine has run out |
| `WatchStream.AcceptsExactly` | content/etcdv3/context/watch_context.cc:45-74 | in every run the loop has accepted exactly the events of the good, uncanceled responses that its own reads brought, in order, and a bad one ended it |
| `WatchStream.ReaderResumesExactly` | content/etcdv3/context/watch_context.cc:52-71 | a good response that is not canceled is handed on, and the loop reads again unless it was canceled; any other ends it |
| `WatchStream.StarterResumesExactly` | content/etcdv3/context/watch_context.cc:18-42 | after the written request the response is read; a good one gives the identifier and starts the loop, a failure fails the start |
| `WatchStream.StopperResumesExactly` | content/etcdv3/context/watch_context.cc:88-104 | once the cancel request is written the reading context is canceled and the stream half-closed; a failed write ends the stop |
| `WatchStream.CanceledAcceptsOne` | content/etcdv3/context/watch_context.cc:71-71 | once canceled the loop accepts at most one more response |
| `WatchStream.CallsExactly` | content/etcdv3/context/watch_context.cc:76-90 | a stop sends its request exactly if the watch has an identifier above zero; a start sends its own once |
| `WatchStream.CompletionWakes` | content/etcdv3/context/watch_context.cc:107-123 | a completion wakes whoever sleeps on it, with its own result |
| `WatchStream.NextKeepsStream` | content/etcdv3/context/watch_context.cc:9-129 | every step of the three coroutines and the callbacks keeps the handshakes |
| `BootTasks.TaskRun.RunAll` | content/shell/application.cc:134-177 | under every interleaving every task of a known type runs exactly once, those in sequence in order, the result is true iff all succeeded, and no body is left when the wait returns |
| `BootTasks.TaskRun.LaunchNext` | content/shell/application.cc:88-127 | one turn of the launch loop keeps the wait group, the failure list and the record of runs |
| `BootTasks.TaskRun.BodyRuns` | content/shell/application.cc:153-159 | an asynchronous body runs its task once and notes a failure while the wait group still counts it |
| `BootTasks.TaskRun.BodyDone` | content/shell/application.cc:158-158 | the wait group goes down with the bodies that are done |

## Left out

- The MariaDB library, gRPC, protobuf and the message loop, coroutines and spin lock are oracles or stated assumptions.
- `do_connection_check`: a blocking ping from a timer that can fire during a pending operation.
- The condition-variable handshake of `Application::Run`: it has no predicate and gives no clean guarantee.
- Callbacks are a function of the completions so far with a finite budget of further submissions; `OnConnectReady` and `OnConnectionClosed` are empty, as shipped.
- The fluent setters of a session are folded into its construction; a session is submitted once and left alone by its caller after that.
- MysqlConnection.MysqlAsyncConnect.Connect: not while an operation is pending, which breaks the library's calling rules (`ConnectNeedsQuiet`), and not while the task of an earlier connect is still posted.
- MysqlConnection.MysqlAsyncConnect.SyncConnect: not then either, for the same reasons.
- MysqlConnection.MysqlAsyncConnect.SyncClose: a connection that is not calm is excluded; what the machine goes on to do when it is started from inside the clean-up is followed in `CleanUpReenters` and `TellAgain` only.
- MysqlConnection.MysqlAsyncConnect.CleanUp: excludes the same connections.
- MysqlConnection.MysqlAsyncConnect.RunCallback: excludes a callback that submits in such a clean-up, which `CloseAndSubmit` models.
- MysqlConnection.MysqlAsyncConnect.Destroy: the same; and the removal of the events by a task posted after the destructor is not modelled.
- MysqlConnection.MysqlAsyncConnect.Live: a connect, blocking or not, that comes while an operation or a task is pending is passed over.
- The time values of timers and the order in which events fire: any armed event may come at any time.
- SharedListDriver.EachQueryOnce: the printed output, the trimming of query text and the library's result handle are not modelled; the runs it speaks of may interleave single passes, which is more than the event loop does.
- WatchStream.OneReadOneWrite: at most one `StopWatch` at a time; the check that the first response says "created" is taken to hold; the coroutines and callbacks are steps on a value, not methods of an object.
- Wakeup.NoLostWakeup: the two methods are atomic steps on a value, so that they can interleave; memory ordering below that is not modelled.
- KeepAlive.KeepAliveContext.Run: timers and lease identifiers are not modelled, and `Start` is called once.
- BootTasks.TaskRun.RunAll: a task runs as one step and bodies do not overlap, which is what one loop gives; a run type outside the enumeration never runs its task.
- EtcdPrefix.PrefixRangeIsExactly: the empty key with a prefix is undefined behaviour in the code and not modelled.
- PoolDispatch.Pool.GetClient: an empty pool divides by zero in the code and is excluded; the increment and the read of the atomic index are one step.
- `InitWithOption`, the unary etcd calls, the request filling around the prefix end, configuration, registry, generated code and examples/main.cc: plumbing without state of its own.

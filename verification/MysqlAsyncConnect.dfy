/** The connection engine: a state machine that drives the library's non-blocking calls from an
    event loop and serves a queue of sessions. */
module MysqlConnection {
  import opened Options
  import opened MysqlTypes
  import opened BlockingExecutor
  import opened ExecutorLaws
  import opened MysqlLibrary
  import opened QuerySessions
  import opened MysqlMachine
  import opened MysqlRuns
  import opened MysqlLoop
  import opened MysqlDatabase

  datatype Interest = Interest(read: bool, write: bool)

  /** The library operation that a state waits for. */
  function PendingIn(state: State): Option<Op> {
    match state
    case ConnectWait => Some(OpConnect)
    case SelectDbWait => Some(OpSelectDb)
    case QueryWait => Some(OpQuery)
    case FetchRowWait => Some(OpFetchRow)
    case CloseWait => Some(OpClose)
    case _ => None
  }

  /** What can happen to a connection between two activations. */
  datatype Action = Submission(job: Job) | Event | PostedTask | CallConnect | CallSyncConnect | CallClose
    | CallSyncClose

  class MysqlAsyncConnect {
    const mysql: Mysql
    const callbacks: Callbacks
    const dbname: string

    var state: State
    var mysqlRet: bool
    /** `result_` is not null; it is never reset, so it may name a freed result. */
    var resultSet: bool
    var resultRow: Option<Row>

    var fdEvent: Option<Interest>
    var timerAttached: bool
    /** Runs of the state machine that were posted to the loop. */
    var posted: nat

    var ready: bool
    var scheduleClose: bool
    var lastSelectedDb: string
    var inProcess: QuerySession?
    var queryList: seq<QuerySession>

    var log: seq<Done>
    ghost var submitted: seq<QuerySession>
    ghost var finished: seq<QuerySession>
    /** Every session that was handed in. */
    ghost var repr: set<QuerySession>
    /** What the sessions in `queryList` ask for. */
    ghost var jobs: seq<Job>
    ghost var parked: bool

    // ---------------------------------------------------------------- views

    ghost function Config(): Setting {
      Setting(mysql.server, dbname, callbacks.react)
    }

    ghost function TheWorld(): World
      reads this`lastSelectedDb, this`log, this`jobs, this`scheduleClose, mysql, callbacks
    {
      World(mysql.history, lastSelectedDb, log, jobs, callbacks.budget, scheduleClose)
    }

    ghost function Snapshot(): Snap
      reads this`state, this`parked, this`mysqlRet, this`inProcess, this`resultRow, this`resultSet
      reads this`lastSelectedDb, this`log, this`jobs, this`scheduleClose, mysql, callbacks, inProcess
    {
      Snap(state, TheWorld(), parked, mysqlRet,
           if inProcess == null then None else Some(inProcess.job), RowsRead(), resultRow, mysql.live)
    }

    ghost function RowsRead(): seq<TextRow>
      reads this`inProcess, inProcess
    {
      if inProcess == null then [] else inProcess.results
    }

    ghost function Current(): seq<QuerySession>
      reads this`inProcess
    {
      if inProcess == null then [] else [inProcess]
    }

    // ---------------------------------------------------------------- invariants

    /** The sessions handed in are the finished ones, in order, and then the open ones; each finished
        one was completed once, and shows what the log says. */
    ghost predicate Ledger(open: seq<QuerySession>)
      reads this`submitted, this`finished, this`log, this`repr, repr
    {
      LedgerOf(open, log)
    }

    /** The same, for the entries of a log that may have grown meanwhile. */
    ghost predicate LedgerOf(open: seq<QuerySession>, entries: seq<Done>)
      reads this`submitted, this`finished, this`repr, repr
    {
      && submitted == finished + open
      && (forall i :: 0 <= i < |submitted| ==> submitted[i] in repr)
      && (forall i :: 0 <= i < |submitted| ==> submitted[i].ticket == i)
      && |entries| == |finished|
      && (forall i :: 0 <= i < |finished| ==>
            && finished[i] in repr && finished[i].CompletedOnce()
            && entries[i] == Done(finished[i].job, finished[i].View()))
    }

    /** Sessions in line: untouched, asking for these jobs, and on record. */
    static ghost predicate Lined(list: seq<QuerySession>, asked: seq<Job>, known: set<QuerySession>)
      reads known
    {
      && |list| == |asked|
      && forall i :: 0 <= i < |list| ==> list[i] in known && list[i].Untouched() && list[i].job == asked[i]
    }

    /** The same from place `from` on. */
    static ghost predicate LinedFrom(list: seq<QuerySession>, asked: seq<Job>, known: set<QuerySession>, from: nat)
      reads known
    {
      && |list| == |asked|
      && forall i :: from <= i < |list| ==> list[i] in known && list[i].Untouched() && list[i].job == asked[i]
    }

    static lemma LinedSlice(list: seq<QuerySession>, asked: seq<Job>, known: set<QuerySession>, from: nat)
      requires from <= |list| == |asked|
      ensures LinedFrom(list, asked, known, from) <==> Lined(list[from..], asked[from..], known)
    {
      if Lined(list[from..], asked[from..], known) {
        forall i | from <= i < |list| ensures list[i] in known && list[i].Untouched() && list[i].job == asked[i] {
          assert list[i] == list[from..][i - from] && asked[i] == asked[from..][i - from];
        }
      }
    }

    static lemma LinedJoin(a: seq<QuerySession>, askedA: seq<Job>, b: seq<QuerySession>, askedB: seq<Job>,
                           known: set<QuerySession>, more: set<QuerySession>)
      requires Lined(a, askedA, known) && Lined(b, askedB, more) && known <= more
      ensures Lined(a + b, askedA + askedB, more)
    {
    }

    ghost predicate Books()
      reads this`inProcess, this`queryList, this`jobs, this`submitted, this`repr, this`finished, this`log, repr
    {
      && Ledger(Current() + queryList)
      && Lined(queryList, jobs, repr)
      && (inProcess != null ==> inProcess in repr)
    }

    /** There is a current session exactly in the states that serve one, and a live result exactly in
        those that fetch; the session holds the rows read so far, and nothing else. */
    ghost predicate ServesAt(at: State)
      reads this`parked, this`inProcess, this`resultRow, this`resultSet, mysql, inProcess
    {
      && Shaped(at, parked, inProcess != null, RowsRead(), resultRow, mysql.live)
      && (inProcess != null ==> inProcess.Open() && (!at.Fetching() ==> inProcess.Untouched()))
      && (at.Fetching() ==>
            var l := mysql.live.value;
            && resultSet
            && inProcess.View() ==
               Outcome(0, "", if inProcess.results == [] then [] else l.fields, inProcess.results, 0, 0)
            && (at.FetchRowResultReady? && resultRow.None? ==> mysql.errno == l.endCode && mysql.error == l.endMessage))
    }

    /** The fields fit the state `at`; in particular the pending library operation is the one it names. */
    ghost predicate MachineAt(at: State)
      reads this`parked, this`inProcess, this`resultRow, this`resultSet, this`ready, this`posted, mysql, inProcess
    {
      && mysql.Valid()
      && ServesAt(at)
      && Pending(mysql.trace) == PendingIn(at)
      && (at.Established() ==> ready)
      && posted <= 1
      && (posted == 1 ==> !parked && (at.ConnectStart? || at.CloseDone?))
    }

    ghost predicate Valid()
      reads this`state, this`parked, this`inProcess, this`resultRow, this`resultSet, this`ready, this`posted
      reads this`queryList, this`jobs, this`submitted, this`repr, this`finished, this`log
      reads mysql, inProcess, repr
    {
      MachineAt(state) && Books()
    }

    ghost predicate Disarmed()
      reads this`timerAttached, this`fdEvent
    {
      !timerAttached && (fdEvent.Some? ==> fdEvent.value == Interest(false, false))
    }

    /** Armed for exactly what the pending operation asked to wait for. */
    ghost predicate ArmedFor(status: Wait)
      reads this`timerAttached, this`fdEvent
    {
      !status.Zero() && fdEvent == Some(Interest(status.read, status.write)) && timerAttached == status.timeout
    }

    /** Between two activations. */
    ghost predicate AtRest()
      reads this`state, this`timerAttached, this`fdEvent, this`parked, this`ready, this`posted, mysql`calls
    {
      && (if state.Waiting() then ArmedFor(mysql.LastStatus()) && !parked else Disarmed())
      && (parked ==> (state.ConnectInit? || state.ConnectDone? || state.CloseDone?) && !ready)
      && (!parked && !state.Waiting() && !state.ConnectionIdle? ==> posted == 1)
    }

    /** Between two steps of one activation. */
    ghost predicate Running()
      reads this`timerAttached, this`fdEvent, this`parked, this`posted
    {
      Disarmed() && !parked && posted == 0
    }

    /** No callback that a clean-up would run finds the machine idle and starts it. */
    ghost predicate Calm()
      reads this`state, this`lastSelectedDb, this`log, this`jobs, this`scheduleClose, mysql, callbacks
    {
      state.ConnectionIdle? ==> !DrainSubmits(Config(), TheWorld())
    }

    ghost predicate NotStalled()
      reads this`state, this`queryList
    {
      state.ConnectionIdle? ==> queryList == []
    }

    /** Every query so far ran in the database it asked for, and the cache will keep it so. */
    ghost predicate Sound()
      reads this`state, this`parked, this`mysqlRet, this`inProcess, this`resultRow, this`resultSet
      reads this`lastSelectedDb, this`log, this`jobs, this`scheduleClose, mysql, callbacks, inProcess
    {
      Snapshot().Ok() && DbSound(Config(), Snapshot())
    }

    /** Submissions and completions are only ever added, and the sessions added are new. */
    twostate predicate Grows()
      reads this`submitted, this`finished, this`repr
    {
      && old(submitted) <= submitted && old(finished) <= finished
      && forall q :: q in repr ==> q in old(repr) || fresh(q)
    }

    /** What one turn of the loop promises besides the step it takes. */
    twostate predicate Turned(cont: bool)
      reads this, mysql, callbacks, inProcess, repr
    {
      && Valid() && Grows()
      && if cont then Running() && !state.Waiting()
         else AtRest() && NotStalled() && (state.Waiting() || Finished(Snapshot()))
    }

    /** Construction and `InitConnection`. */
    constructor (mysql: Mysql, callbacks: Callbacks, dbname: string)
      requires mysql.Valid() && mysql.trace == [] && mysql.history == [] && mysql.live == None
      ensures this.mysql == mysql && this.callbacks == callbacks && this.dbname == dbname
      ensures Valid() && AtRest() && NotStalled() && Sound() && parked
      ensures submitted == [] && repr == {} && posted == 0 && state == ConnectInit
      ensures lastSelectedDb == "" && !scheduleClose
    {
      this.mysql, this.callbacks, this.dbname := mysql, callbacks, dbname;
      state, mysqlRet, resultSet, resultRow := ConnectInit, false, false, None;
      fdEvent, timerAttached, posted, ready, scheduleClose := None, false, 0, false, false;
      lastSelectedDb, inProcess, queryList, log, jobs := "", null, [], [], [];
      submitted, finished, repr, parked := [], [], {}, true;
    }

    // ---------------------------------------------------------------- completion

    /** `query_list_.push_back`; tells whether `StartQuery` would run the state machine. */
    method PushBack(q: QuerySession) returns (run: bool)
      modifies this`queryList, this`submitted, this`repr, this`jobs, q`ticket
      ensures queryList == old(queryList) + [q] && submitted == old(submitted) + [q] && jobs == old(jobs) + [q.job]
      ensures q.ticket == old(|submitted|) && repr == old(repr) + {q}
      ensures run == (state.ConnectionIdle? && inProcess == null)
    {
      q.ticket := |submitted|;
      queryList := queryList + [q];
      submitted, repr, jobs := submitted + [q], repr + {q}, jobs + [q.job];
      run := state.ConnectionIdle? && inProcess == null;
    }

    /** A submission made by a callback: it does not start the state machine from inside. */
    method SubmitNew(job: Job) returns (q: QuerySession)
      requires !(state.ConnectionIdle? && inProcess == null) && callbacks.budget > 0
      modifies this`queryList, this`submitted, this`repr, this`jobs, callbacks`budget
      ensures fresh(q) && q.Untouched() && q.job == job && q.ticket == old(|submitted|)
      ensures queryList == old(queryList) + [q] && submitted == old(submitted) + [q]
      ensures jobs == old(jobs) + [job] && repr == old(repr) + {q} && callbacks.budget == old(callbacks.budget) - 1
    {
      q := new QuerySession(job);
      var run := PushBack(q);
      assert !run;
      callbacks.budget := callbacks.budget - 1;
    }

    /** The client's callback: it submits new sessions and may close. Neither starts the state machine
        from inside. */
    method RunCallback() returns (ghost added: seq<QuerySession>)
      requires inProcess == null ==> !state.QueryStart?
      requires inProcess == null && state.ConnectionIdle? ==> Allowed(callbacks.react(log), callbacks.budget) == []
      modifies this`queryList, this`submitted, this`repr, this`jobs, this`scheduleClose, callbacks`budget
      ensures queryList == old(queryList) + added && submitted == old(submitted) + added
      ensures jobs == old(jobs) + Allowed(callbacks.react(log), old(callbacks.budget))
      ensures Lined(added, Allowed(callbacks.react(log), old(callbacks.budget)), repr)
      ensures forall i :: 0 <= i < |added| ==> added[i].ticket == old(|submitted|) + i
      ensures old(repr) <= repr && forall q :: q in repr ==> q in old(repr) || fresh(q)
      ensures callbacks.budget == old(callbacks.budget) - |added|
      ensures scheduleClose == (old(scheduleClose) || callbacks.react(log).close)
    {
      var reaction := callbacks.react(log);
      var more := Allowed(reaction, callbacks.budget);
      added := [];
      var i := 0;
      while i < |more|
        invariant 0 <= i <= |more| && |added| == i && jobs == old(jobs) + more[..i]
        invariant queryList == old(queryList) + added && submitted == old(submitted) + added
        invariant Lined(added, more[..i], repr) && forall k :: 0 <= k < i ==> added[k].ticket == old(|submitted|) + k
        invariant old(repr) <= repr && forall q :: q in repr ==> q in old(repr) || fresh(q)
        invariant callbacks.budget == old(callbacks.budget) - i && scheduleClose == old(scheduleClose)
      {
        var q := SubmitNew(more[i]);
        added := added + [q];
        i := i + 1;
      }
      if reaction.close {
        var run := RequestClose();
        assert !run;
      }
    }

    /** A session that is not finished is in the books once. */
    lemma StandsAlone(q: QuerySession, rest: seq<QuerySession>, entries: seq<Done>)
      requires LedgerOf([q] + rest, entries)
      ensures q !in rest && q !in finished && q in repr
    {
      assert submitted[|finished|] == q;
      assert forall i :: 0 <= i < |finished| ==> submitted[i] == finished[i];
      assert forall i :: 0 <= i < |rest| ==> submitted[|finished| + 1 + i] == rest[i];
    }

    /** `OnQueryDone` up to the callback, which will find the session in the log. */
    method BeginDone(q: QuerySession, ghost rest: seq<QuerySession>, ghost asked: seq<Job>) returns (fire: bool)
      requires Ledger([q] + rest) && q.Open() && Lined(rest, asked, repr)
      modifies this`log, q
      ensures LedgerOf([q] + rest, old(log)) && log == old(log) + [Done(q.job, q.View())]
      ensures q.View() == old(q.View()) && q.CallingBack() && fire == q.job.notify && Lined(rest, asked, repr)
    {
      StandsAlone(q, rest, log);
      fire := q.CallBack();
      log := log + [Done(q.job, q.View())];
    }

    /** `OnQueryDone` after the callback: the session is finished, and the ledger says so. */
    method EndDone(q: QuerySession, ghost rest: seq<QuerySession>, ghost asked: seq<Job>, ghost entries: seq<Done>)
      requires LedgerOf([q] + rest, entries) && log == entries + [Done(q.job, q.View())]
      requires q.CallingBack() && Lined(rest, asked, repr)
      modifies this`finished, q
      ensures Ledger(rest) && Lined(rest, asked, repr) && finished == old(finished) + [q]
    {
      StandsAlone(q, rest, entries);
      q.ClearCallback();
      finished := finished + [q];
      assert submitted == finished + rest;
    }

    /** `OnQueryDone` of a session whose outcome is set, with its callback. */
    method Finish(q: QuerySession, ghost rest: seq<QuerySession>, ghost asked: seq<Job>)
      returns (ghost added: seq<QuerySession>, ghost more: seq<Job>)
      requires Ledger([q] + rest) && q.Open() && Lined(rest, asked, repr)
      requires inProcess == null ==> !state.QueryStart?
      requires inProcess == null && state.ConnectionIdle? ==>
                 Complete(Config(), TheWorld(), q.job, q.View()).budget == callbacks.budget
      modifies this`queryList, this`submitted, this`repr, this`jobs, this`finished, this`log, this`scheduleClose
      modifies callbacks`budget, q
      ensures Ledger(rest + added) && Lined(rest + added, asked + more, repr) && Grows()
      ensures queryList == old(queryList) + added && jobs == old(jobs) + more && finished == old(finished) + [q]
      ensures TheWorld() == Complete(Config(), old(TheWorld()), q.job, old(q.View()))
    {
      ghost var known, entries := repr, log;
      var fire := BeginDone(q, rest, asked);
      added, more := [], [];
      if fire {
        more := Allowed(callbacks.react(log), callbacks.budget);
        added := RunCallback();
      }
      LinedJoin(rest, asked, added, more, known, repr);
      assert submitted == finished + ([q] + (rest + added));
      EndDone(q, rest + added, asked + more, entries);
    }

    /** The current session, whose outcome is set, is finished. */
    method FinishSession()
      requires Books() && inProcess != null && inProcess.Open()
      modifies this`inProcess, this`queryList, this`submitted, this`repr, this`jobs, this`finished, this`log
      modifies this`scheduleClose, callbacks`budget, inProcess
      ensures inProcess == null && Books() && Grows()
      ensures TheWorld() == Complete(Config(), old(TheWorld()), old(inProcess.job), old(inProcess.View()))
    {
      ghost var added, more := Finish(inProcess, queryList, jobs);
      inProcess := null;
      assert Current() + queryList == queryList;
    }

    /** The current session is told its outcome and finished. */
    method FinishCurrent(code: int, message: string)
      requires Books() && inProcess != null && inProcess.Open()
      modifies this`inProcess, this`queryList, this`submitted, this`repr, this`jobs, this`finished, this`log
      modifies this`scheduleClose, callbacks`budget, inProcess
      ensures inProcess == null && Books() && Grows()
      ensures TheWorld() == Complete(Config(), old(TheWorld()), old(inProcess.job), old(Ended(code, message)))
    {
      SetOutcome(inProcess, code, message, queryList, jobs);
      FinishSession();
    }

    method DoneCurrentQuery(code: int, message: string)
      requires Books() && inProcess != null && inProcess.Open()
      modifies this`inProcess, this`queryList, this`submitted, this`repr, this`jobs, this`finished, this`log
      modifies this`scheduleClose, callbacks`budget, inProcess
      ensures inProcess == null && Books() && Grows()
      ensures Snapshot() ==
              Completed(Config(), old(Snapshot()), old(Ended(code, message)), ConnectionIdle)
                .(state := state, live := mysql.live)
    {
      FinishCurrent(code, message);
    }

    method SetOutcome(q: QuerySession, code: int, message: string, ghost rest: seq<QuerySession>, ghost asked: seq<Job>)
      requires Ledger([q] + rest) && q.Open() && q == inProcess && Lined(rest, asked, repr)
      modifies q
      ensures Ledger([q] + rest) && q.Open() && Lined(rest, asked, repr)
      ensures q.View() == old(Ended(code, message))
    {
      StandsAlone(q, rest, log);
      TellOutcome(q, code, message);
    }

    method TellOutcome(q: QuerySession, code: int, message: string)
      modifies q`code, q`errMessage, q`affectedRows
      ensures var v := old(q.View()).(affectedRows := ToInt32(mysql.AffectedRows()));
              q.View() == if code != 0 then v.(code := code, message := message) else v
    {
      if code != 0 {
        q.SetCode(code, message);
      }
      q.SetAffectedRows(ToInt32(mysql.AffectedRows()));
    }

    /** The part of `Close` that a callback can reach: the flag, and whether the guard would run the machine. */
    method RequestClose() returns (run: bool)
      modifies this`scheduleClose
      ensures scheduleClose
      ensures run == (inProcess == null && state.QueryStart?)
    {
      scheduleClose := true;
      run := inProcess == null && state.QueryStart?;
    }

    // ---------------------------------------------------------------- waiting

    method WaitMysqlStatus(status: Wait)
      requires Disarmed() && !status.Zero()
      modifies this`fdEvent, this`timerAttached
      ensures ArmedFor(status)
      ensures fdEvent == Some(Interest(status.read, status.write)) && timerAttached == status.timeout
    {
      if fdEvent.None? {
        fdEvent := Some(Interest(false, false));
      }
      fdEvent := Some(fdEvent.value.(read := status.read));
      fdEvent := Some(fdEvent.value.(write := status.write));
      if status.timeout {
        timerAttached := true;
      }
    }

    method ResetWaitEvent()
      requires fdEvent.Some?
      modifies this`fdEvent, this`timerAttached
      ensures Disarmed() && fdEvent == Some(Interest(false, false)) && !timerAttached
    {
      timerAttached := false;
      fdEvent := Some(Interest(false, false));
    }

    /** Go to a state at once. */
    method Enter(next: State)
      requires MachineAt(next)
      modifies this`state
      ensures MachineAt(state) && Books() == old(Books())
      ensures Snapshot() == old(Snapshot()).(state := next)
    {
      state := next;
    }

    /** Go to a state that waits. */
    method EnterWait(status: Wait, next: State)
      requires Running() && MachineAt(next) && next.Waiting() && !status.Zero() && status == mysql.LastStatus()
      modifies this`state, this`fdEvent, this`timerAttached
      ensures MachineAt(state) && AtRest() && Books() == old(Books())
      ensures Snapshot() == old(Snapshot()).(state := next)
    {
      WaitMysqlStatus(status);
      state := next;
    }

    method GoNextState(status: Wait, waitSt: State, nextSt: State) returns (go: bool)
      requires Running() && (if status.Zero() then MachineAt(nextSt) else MachineAt(waitSt))
      requires waitSt.Waiting() && !nextSt.Waiting() && status == mysql.LastStatus()
      modifies this`state, this`fdEvent, this`timerAttached
      ensures MachineAt(state) && Books() == old(Books()) && go == status.Zero()
      ensures if go then Running() else AtRest()
      ensures Snapshot() == old(Snapshot()).(state := if go then nextSt else waitSt)
    {
      if status.Zero() {
        Enter(nextSt);
        return true;
      }
      EnterWait(status, waitSt);
      return false;
    }

    // ---------------------------------------------------------------- ending a session

    /** What `DoneCurrentQuery` makes of the current session. */
    ghost function Ended(code: int, message: string): Outcome
      requires inProcess != null
      reads this`inProcess, inProcess, mysql
    {
      var v := inProcess.View().(affectedRows := ToInt32(mysql.AffectedRows()));
      if code != 0 then v.(code := code, message := message) else v
    }

    /** `DoneCurrentQuery`, and the state that follows it. */
    method EndQuery(code: int, message: string, next: State)
      requires mysql.Valid() && mysql.live.None? && Pending(mysql.trace).None?
      requires Books() && Running() && inProcess != null && inProcess.Open() && ready
      requires next.ConnectionIdle? || next.CloseStart?
      modifies this`state, this`inProcess, this`queryList, this`submitted, this`repr, this`jobs, this`finished
      modifies this`log, this`scheduleClose, callbacks`budget, inProcess
      ensures state == next
      ensures Turned(true)
      ensures Snapshot() == Completed(Config(), old(Snapshot()), old(Ended(code, message)), next)
    {
      DoneCurrentQuery(code, message);
      Enter(next);
    }

    /** The current session fails, or ends without a result. */
    method FailQuery(code: int, message: string, ghost at: State) returns (cont: bool)
      requires Books() && MachineAt(at) && Running() && (at.SelectDbDone? || at.QueryStart? || at.QueryResultReady?)
      modifies this`state, this`inProcess, this`queryList, this`submitted, this`repr, this`jobs, this`finished
      modifies this`log, this`scheduleClose, callbacks`budget, inProcess
      ensures state == if code in {2000, 2006, 2008, 2013} then CloseStart else ConnectionIdle
      ensures Turned(cont) && cont
      ensures Snapshot() == Failed(Config(), old(Snapshot()), code, message)
    {
      EndQuery(code, message, if IsFatalError(code) then CloseStart else ConnectionIdle);
      cont := true;
    }

    // ---------------------------------------------------------------- SELECT_DB states

    method SelectDbCall() returns (err: int, status: Wait)
      requires Valid() && Running() && (state.SelectDbStart? || state.SelectDbWait?)
      requires state.Waiting() ==> mysql.activationCalls == 0
      modifies mysql
      ensures mysql.calls == old(mysql.calls) + 1
      ensures Books() == old(Books())
              && (if status.Zero() then MachineAt(SelectDbDone) else MachineAt(SelectDbWait))
              && status == mysql.LastStatus()
      ensures Snapshot() == Sent(Config(), old(Snapshot()))
      ensures var a := mysql.server.selects(mysql.history);
              if status.Zero() then err == a.code && mysql.error == a.message else err == 0
    {
      if state.SelectDbStart? {
        err, status := mysql.SelectDbStart(inProcess.job.db);
      } else {
        err, status := mysql.SelectDbCont();
      }
    }

    method SelectDbStep() returns (cont: bool, ghost waited: bool)
      requires Valid() && Running() && (state.SelectDbStart? || state.SelectDbWait?)
      requires state.Waiting() ==> mysql.activationCalls == 0
      modifies this, mysql, callbacks, inProcess
      ensures mysql.calls == old(mysql.calls) + 1
      ensures Turned(cont)
      ensures Snapshot() == SelectProgress(Config(), Sent(Config(), old(Snapshot())), waited)
    {
      var err, status := SelectDbCall();
      waited := !status.Zero();
      if err != 0 {
        cont := FailQuery(err, mysql.error, SelectDbDone);
      } else {
        cont := GoNextState(status, SelectDbWait, SelectDbDone);
      }
    }

    method SetLastSelectedDb(db: string)
      requires Valid()
      modifies this`lastSelectedDb
      ensures MachineAt(state) && Books() == old(Books())
      ensures Snapshot() == old(Snapshot()).(world := old(TheWorld()).(cache := db))
    {
      lastSelectedDb := db;
    }

    method SelectDbFinish() returns (cont: bool)
      requires Valid() && Running() && state.SelectDbDone?
      modifies this, callbacks, inProcess
      ensures lastSelectedDb == old(inProcess.job.db)
      ensures state == if old(inProcess.job.sql) == "" then ConnectionIdle else QueryStart
      ensures Turned(cont)
      ensures Snapshot() == SelectDone(Config(), old(Snapshot()))
    {
      RememberDb();
      if inProcess.job.sql == "" {
        EndSelect();
      } else {
        Enter(QueryStart);
      }
      cont := true;
    }

    method RememberDb()
      requires Valid() && state.SelectDbDone?
      modifies this`lastSelectedDb
      ensures MachineAt(SelectDbDone) && MachineAt(QueryStart) && Books() == old(Books())
      ensures Snapshot() == old(Snapshot()).(world := old(TheWorld()).(cache := inProcess.job.db))
    {
      SetLastSelectedDb(inProcess.job.db);
    }

    /** A session that only selects a database ends; its code is zero, so the message is not kept. */
    method EndSelect()
      requires Books() && MachineAt(SelectDbDone) && Running() && state.SelectDbDone?
      modifies this`state, this`inProcess, this`queryList, this`submitted, this`repr, this`jobs, this`finished
      modifies this`log, this`scheduleClose, callbacks`budget, inProcess
      ensures Turned(true)
      ensures Snapshot() ==
              Completed(Config(), old(Snapshot()), Plain(0, "", Affected(Config(), old(TheWorld()))), ConnectionIdle)
    {
      EndQuery(0, "db change success", ConnectionIdle);
    }

    // ---------------------------------------------------------------- QUERY states

    method QueryCall() returns (err: int, status: Wait)
      requires Valid() && Running() && state.QueryStart? && inProcess.job.sql != ""
      modifies mysql
      ensures mysql.calls == old(mysql.calls) + 1
      ensures Books() == old(Books())
              && (if status.Zero() then MachineAt(QueryResultReady) else MachineAt(QueryWait))
              && status == mysql.LastStatus()
      ensures Snapshot() == Sent(Config(), old(Snapshot()))
      ensures var a := mysql.server.queries(mysql.history);
              if status.Zero() && a.QueryFailed? then err == a.code && mysql.error == a.message else err == 0
    {
      err, status := mysql.RealQueryStart(inProcess.job.sql, inProcess.job.db);
    }

    method QuerySend() returns (cont: bool, ghost waited: bool)
      requires Valid() && Running() && state.QueryStart? && inProcess.job.sql != ""
      modifies this, mysql, callbacks, inProcess
      ensures Turned(cont)
      ensures Snapshot() == QueryProgress(Config(), Sent(Config(), old(Snapshot())), waited)
    {
      var err, status := QueryCall();
      waited := !status.Zero();
      if err != 0 {
        cont := FailQuery(err, mysql.error, QueryResultReady);
      } else {
        cont := GoNextState(status, QueryWait, QueryResultReady);
      }
    }

    method QueryStep() returns (cont: bool, ghost waited: bool)
      requires Valid() && Running() && state.QueryStart?
      modifies this, mysql, callbacks, inProcess
      ensures Turned(cont)
      ensures Snapshot() == QueryBegin(Config(), old(Snapshot()), waited)
    {
      if inProcess.job.sql == "" {
        EndQuery(-9999, "empty query", ConnectionIdle);
        return true, false;
      }
      cont, waited := QuerySend();
    }

    /** `QUERY_WAIT` tests a member that is never assigned, not the error of this call; taken as zero,
        it leaves every error to `QUERY_RESULT_READY`. */
    method QueryResume() returns (cont: bool, ghost waited: bool)
      requires Valid() && Running() && state.QueryWait? && mysql.activationCalls == 0
      modifies this, mysql
      ensures mysql.calls == old(mysql.calls) + 1
      ensures Turned(cont)
      ensures Snapshot() == old(Snapshot()).(state := if waited then QueryWait else QueryResultReady)
    {
      var _, status := mysql.RealQueryCont();
      waited := !status.Zero();
      cont := GoNextState(status, QueryWait, QueryResultReady);
    }

    method UseResultCall()
      requires Valid() && Running() && state.QueryResultReady?
      modifies mysql, this`resultSet
      ensures Books() && resultSet == mysql.server.queries(mysql.history).ResultSet?
      ensures resultSet ==>
                && MachineAt(FetchRowStart)
                && Snapshot().(state := FetchRowStart) == QueryResult(Config(), old(Snapshot()))
      ensures !resultSet ==>
                && MachineAt(QueryResultReady) && Snapshot() == old(Snapshot())
                && Failed(Config(), Snapshot(), mysql.errno, mysql.error) == QueryResult(Config(), Snapshot())
    {
      resultSet := mysql.UseResult();
    }

    method QueryReady() returns (cont: bool)
      requires Valid() && Running() && state.QueryResultReady?
      modifies this, mysql, callbacks, inProcess
      ensures Turned(cont)
      ensures Snapshot() == QueryResult(Config(), old(Snapshot()))
    {
      UseResultCall();
      if !resultSet {
        cont := FailQuery(mysql.errno, mysql.error, QueryResultReady);
      } else {
        Enter(FetchRowStart);
        cont := true;
      }
    }

    // ---------------------------------------------------------------- FETCH_ROW states

    method FetchRowRaw() returns (status: Wait, row: Option<Row>)
      requires Valid() && (state.FetchRowStart? || state.FetchRowWait?)
      requires state.Waiting() ==> mysql.activationCalls == 0
      modifies mysql
      ensures mysql.calls == old(mysql.calls) + 1
      ensures mysql.Valid() && mysql.history == old(mysql.history) && mysql.Fetched(status, row, old(mysql.live.value))
      ensures Pending(mysql.trace) == if status.Zero() then None else Some(OpFetchRow)
      ensures status == mysql.LastStatus()
    {
      if state.FetchRowStart? {
        status, row := mysql.FetchRowStart();
      } else {
        status, row := mysql.FetchRowCont();
      }
    }

    /** The library writes the row only when the fetch is complete. */
    method FetchRowCall() returns (status: Wait)
      requires Valid() && Running() && (state.FetchRowStart? || state.FetchRowWait?)
      requires state.Waiting() ==> mysql.activationCalls == 0
      modifies mysql, this`resultRow
      ensures mysql.calls == old(mysql.calls) + 1
      ensures Books() == old(Books())
              && (if status.Zero() then MachineAt(FetchRowResultReady) else MachineAt(FetchRowWait))
              && status == mysql.LastStatus()
      ensures resultRow == FetchProgress(old(Snapshot()), !status.Zero()).row
      ensures mysql.live == FetchProgress(old(Snapshot()), !status.Zero()).live && mysql.history == old(mysql.history)
    {
      var row;
      status, row := FetchRowRaw();
      resultRow := if status.Zero() then row else resultRow;
    }

    method FetchRowStep() returns (cont: bool, ghost waited: bool)
      requires Valid() && Running() && (state.FetchRowStart? || state.FetchRowWait?)
      requires state.Waiting() ==> mysql.activationCalls == 0
      modifies this, mysql
      ensures mysql.calls == old(mysql.calls) + 1
      ensures Turned(cont)
      ensures Snapshot() == FetchProgress(old(Snapshot()), waited)
    {
      var status := FetchRowCall();
      waited := !status.Zero();
      cont := GoNextState(status, FetchRowWait, FetchRowResultReady);
    }

    /** `ParseResultDesc`: the names of the fields become the headers. */
    method ParseResultDesc(fields: seq<string>, query: QuerySession)
      requires query.columnNames == []
      modifies query`columnNames
      ensures query.columnNames == fields
    {
      var i := 0;
      while i < |fields|
        invariant 0 <= i <= |fields| && query.columnNames == fields[..i]
      {
        query.columnNames := query.columnNames + [fields[i]];
        i := i + 1;
      }
    }

    static method TextOf(cells: Row) returns (text: TextRow)
      ensures text == RowText(cells) && |text| == |cells|
      ensures forall i :: 0 <= i < |cells| ==> text[i] == if cells[i].Some? then cells[i].value else "NULL"
    {
      text := [];
      var i := 0;
      while i < |cells|
        invariant 0 <= i <= |cells| && text == RowText(cells)[..i]
      {
        if cells[i].Some? {
          text := text + [cells[i].value];
        } else {
          text := text + ["NULL"];
        }
        i := i + 1;
      }
    }

    /** A row joins the session; the first one brings the headers with it. */
    method TakeRow()
      requires Valid() && Running() && state.FetchRowResultReady? && resultRow.Some?
      modifies inProcess
      ensures Books() && MachineAt(FetchRowStart)
      ensures Snapshot() == old(Snapshot()).(rows := old(inProcess.results) + [RowText(resultRow.value)])
    {
      StandsAlone(inProcess, queryList, log);
      if inProcess.columnNames == [] {
        ParseResultDesc(mysql.live.value.fields, inProcess);
      }
      var text := TextOf(resultRow.value);
      inProcess.PendingRow(text);
    }

    /** No more rows: the count is kept and the result is freed. */
    method EndRows()
      requires Valid() && Running() && state.FetchRowResultReady? && resultRow.None?
      modifies inProcess, mysql`live, mysql`freed
      ensures Books() && mysql.Valid() && mysql.live.None? && mysql.freed == old(mysql.freed) + 1
      ensures inProcess.resultCount == ToInt32(|old(inProcess.results)|) && inProcess.results == old(inProcess.results)
      ensures inProcess.Open()
      ensures Ended(mysql.errno, if mysql.errno != 0 then mysql.error else "") ==
              var l := old(mysql.live.value);
              Collected(l.fields, old(inProcess.results), l.endCode, l.endMessage, Affected(Config(), TheWorld()))
      ensures Snapshot() == old(Snapshot()).(live := None)
    {
      StandsAlone(inProcess, queryList, log);
      inProcess.SetResultRows(ToInt32(mysql.live.value.fetched));
      mysql.FreeResult();
    }

    method RowStep() returns (cont: bool)
      requires Valid() && Running() && state.FetchRowResultReady?
      modifies this, mysql, callbacks, inProcess
      ensures state == if old(resultRow).None? then ConnectionIdle else FetchRowStart
      ensures Turned(cont)
      ensures Snapshot() == RowReady(Config(), old(Snapshot()))
    {
      if resultRow.None? {
        RowsOver();
      } else {
        TakeRow();
        Enter(FetchRowStart);
      }
      cont := true;
    }

    /** The session ends with its rows, and the connection is kept, whatever the error number says. */
    method RowsOver()
      requires Valid() && Running() && state.FetchRowResultReady? && resultRow.None?
      modifies this, mysql, callbacks, inProcess
      ensures Turned(true) && state == ConnectionIdle
      ensures Snapshot() == RowReady(Config(), old(Snapshot()))
    {
      var code := mysql.errno;
      var message := if code != 0 then mysql.error else "";
      EndRows();
      EndQuery(code, message, ConnectionIdle);
    }

    // ---------------------------------------------------------------- CONNECTION_IDLE

    /** The first session of the queue becomes the current one. */
    method TakeFront()
      requires |queryList| == |jobs| > 0
      modifies this`inProcess, this`queryList, this`jobs
      ensures inProcess == old(queryList)[0]
      ensures queryList == old(queryList)[1..] && jobs == old(jobs)[1..]
    {
      inProcess := queryList[0];
      queryList, jobs := queryList[1..], jobs[1..];
    }

    method PopFront()
      requires Books() && inProcess == null && queryList != []
      modifies this`inProcess, this`queryList, this`jobs
      ensures Books() && inProcess == old(queryList)[0] && inProcess.Untouched()
      ensures queryList == old(queryList)[1..]
      ensures jobs == old(jobs)[1..] && inProcess.job == old(jobs)[0]
    {
      LinedSlice(queryList, jobs, repr, 1);
      assert Current() + queryList == queryList;
      TakeFront();
      assert Current() + queryList == old(queryList);
    }

    method TakeNext()
      requires Valid() && Running() && state.ConnectionIdle? && queryList != []
      modifies this`inProcess, this`queryList, this`jobs
      ensures Books() && Grows()
              && MachineAt(if NeedsSelect(lastSelectedDb, old(jobs)[0]) then SelectDbStart else QueryStart)
      ensures inProcess == old(queryList)[0] && queryList == old(queryList)[1..]
      ensures Snapshot() ==
              old(Snapshot()).(job := Some(old(jobs)[0]), world := old(TheWorld()).(queue := old(jobs)[1..]))
    {
      PopFront();
    }

    method ServeNext()
      requires Valid() && Running() && state.ConnectionIdle? && queryList != []
      modifies this`inProcess, this`queryList, this`jobs, this`state
      ensures inProcess == old(queryList)[0] && queryList == old(queryList)[1..]
      ensures var db := inProcess.job.db;
              state == if db == "" || db == lastSelectedDb then QueryStart else SelectDbStart
      ensures Turned(true)
      ensures Snapshot() == Idle(old(Snapshot()))
    {
      TakeNext();
      Enter(if inProcess.job.db != "" && inProcess.job.db != lastSelectedDb then SelectDbStart else QueryStart);
    }

    method HandleStateIdle() returns (cont: bool)
      requires Valid() && Running() && state.ConnectionIdle?
      modifies this`inProcess, this`queryList, this`jobs, this`state
      ensures if old(queryList) == [] then state == if scheduleClose then CloseStart else ConnectionIdle
              else
                && inProcess == old(queryList)[0] && queryList == old(queryList)[1..]
                && var db := inProcess.job.db;
                   state == if db == "" || db == lastSelectedDb then QueryStart else SelectDbStart
      ensures Turned(cont)
      ensures Snapshot() == Idle(old(Snapshot()))
      ensures cont ==> !Settled(old(Snapshot()))
    {
      if queryList == [] {
        if scheduleClose {
          Enter(CloseStart);
        }
        return scheduleClose;
      }
      ServeNext();
      return true;
    }

    // ---------------------------------------------------------------- CONNECT states

    method ConnectRaw() returns (status: Wait, ret: bool)
      requires Valid() && Running() && (state.ConnectStart? || state.ConnectWait?)
      requires state.Waiting() ==> mysql.activationCalls == 0
      modifies mysql
      ensures mysql.calls == old(mysql.calls) + 1
      ensures Books() == old(Books()) && (if status.Zero() then MachineAt(ConnectDone) else MachineAt(ConnectWait))
      ensures status == mysql.LastStatus() && (status.Zero() ==> ret == mysql.server.connects(mysql.history))
      ensures Snapshot() == Sent(Config(), old(Snapshot()))
    {
      if state.ConnectStart? {
        status, ret := mysql.RealConnectStart(dbname);
      } else {
        status, ret := mysql.RealConnectCont();
      }
    }

    /** The library writes its return value only when the connect is complete. */
    method ConnectCall() returns (status: Wait)
      requires Valid() && Running() && (state.ConnectStart? || state.ConnectWait?)
      requires state.Waiting() ==> mysql.activationCalls == 0
      modifies mysql, this`mysqlRet
      ensures mysql.calls == old(mysql.calls) + 1
      ensures Books() == old(Books()) && (if status.Zero() then MachineAt(ConnectDone) else MachineAt(ConnectWait))
      ensures status == mysql.LastStatus()
      ensures Snapshot() == Sent(Config(), old(Snapshot())).(connected := mysqlRet)
      ensures mysqlRet == if status.Zero() then mysql.server.connects(mysql.history) else old(mysqlRet)
    {
      var ret;
      status, ret := ConnectRaw();
      mysqlRet := if status.Zero() then ret else mysqlRet;
    }

    method ConnectStep() returns (cont: bool, ghost waited: bool)
      requires Valid() && Running() && (state.ConnectStart? || state.ConnectWait?)
      requires state.Waiting() ==> mysql.activationCalls == 0
      modifies this, mysql
      ensures mysql.calls == old(mysql.calls) + 1
      ensures Turned(cont)
      ensures Snapshot() == ConnectProgress(Config(), Sent(Config(), old(Snapshot())), waited)
    {
      var status := ConnectCall();
      waited := !status.Zero();
      cont := GoNextState(status, ConnectWait, ConnectDone);
    }

    method MarkReady()
      requires Valid() && Running() && state.ConnectDone?
      modifies this`ready
      ensures MachineAt(ConnectionIdle) && Books() == old(Books()) && Snapshot() == old(Snapshot())
    {
      ready := true;
    }

    /** The shipped client does nothing in `OnConnectReady`. */
    method Established()
      requires Valid() && Running() && state.ConnectDone? && mysqlRet
      modifies this`ready, this`state, this`lastSelectedDb
      ensures ready && lastSelectedDb == dbname
      ensures Turned(true)
      ensures Snapshot() == ConnectEnd(Config(), old(Snapshot()))
    {
      SetLastSelectedDb(dbname);
      MarkReady();
      Enter(ConnectionIdle);
    }

    method ConnectFailed()
      requires Valid() && Running() && state.ConnectDone? && !mysqlRet
      modifies this`ready, this`state
      ensures !ready
      ensures Turned(true)
      ensures Snapshot() == ConnectEnd(Config(), old(Snapshot()))
    {
      ready := false;
      state := CloseStart;
    }

    method ConnectFinish() returns (cont: bool)
      requires Valid() && Running() && state.ConnectDone?
      modifies this`ready, this`state, this`lastSelectedDb
      ensures ready == mysqlRet && state == if mysqlRet then ConnectionIdle else CloseStart
      ensures lastSelectedDb == if mysqlRet then dbname else old(lastSelectedDb)
      ensures Turned(cont)
      ensures Snapshot() == ConnectEnd(Config(), old(Snapshot()))
    {
      if !mysqlRet {
        ConnectFailed();
      } else {
        Established();
      }
      cont := true;
    }

    // ---------------------------------------------------------------- CLOSE states

    method CloseCall() returns (status: Wait)
      requires Valid() && Running() && (state.CloseStart? || state.CloseWait?)
      requires state.Waiting() ==> mysql.activationCalls == 0
      modifies mysql
      ensures mysql.calls == old(mysql.calls) + 1
      ensures Books() == old(Books()) && (if status.Zero() then MachineAt(CloseDone) else MachineAt(CloseWait))
              && status == mysql.LastStatus()
      ensures Snapshot() == Sent(Config(), old(Snapshot()))
    {
      if state.CloseStart? {
        status := mysql.CloseStart();
      } else {
        status := mysql.CloseCont();
      }
    }

    method CloseStep() returns (cont: bool, ghost waited: bool)
      requires Valid() && Running() && (state.CloseStart? || state.CloseWait?)
      requires state.Waiting() ==> mysql.activationCalls == 0
      modifies this, mysql
      ensures mysql.calls == old(mysql.calls) + 1
      ensures Turned(cont)
      ensures Snapshot() == CloseProgress(Sent(Config(), old(Snapshot())), waited)
    {
      var status := CloseCall();
      waited := !status.Zero();
      cont := GoNextState(status, CloseWait, CloseDone);
    }

    method TellClosed(q: QuerySession, ghost rest: seq<QuerySession>, ghost asked: seq<Job>)
      requires Ledger([q] + rest) && q.Open() && Lined(rest, asked, repr)
      modifies q
      ensures Ledger([q] + rest) && q.Open() && Lined(rest, asked, repr)
      ensures q.View() == ToldClosed(old(q.View())) && q.View() == old(q.View()).(code := -1, message := "closed")
    {
      StandsAlone(q, rest, log);
      q.SetCode(-1, "closed");
    }

    /** The sessions from place `i` of the queue on are open, untouched and recorded. */
    ghost predicate OpenFrom(i: nat)
      reads this`queryList, this`jobs, this`submitted, this`repr, this`finished, this`log, repr
    {
      i <= |queryList| && Ledger(queryList[i..]) && LinedFrom(queryList, jobs, repr, i)
    }

    /** One session of the queue is told "closed"; the queue may grow meanwhile. */
    method CloseQueued(i: nat)
      requires i < |queryList| && OpenFrom(i)
      requires inProcess == null && !state.QueryStart?
      requires state.ConnectionIdle? ==> Complete(Config(), TheWorld(), jobs[i], CLOSED).budget == callbacks.budget
      modifies this`queryList, this`submitted, this`repr, this`jobs, this`finished, this`log
      modifies this`scheduleClose, callbacks`budget, queryList[i]
      ensures OpenFrom(i + 1)
      ensures old(queryList) <= queryList && Grows() && finished == old(finished) + [old(queryList)[i]]
      ensures TheWorld() == Complete(Config(), old(TheWorld()), old(jobs)[i], CLOSED)
    {
      var q := queryList[i];
      ghost var rest, asked := queryList[i + 1..], jobs[i + 1..];
      assert queryList[i..] == [q] + rest;
      LinedSlice(queryList, jobs, repr, i + 1);
      TellClosed(q, rest, asked);
      ghost var added, more := Finish(q, rest, asked);
      assert queryList[i + 1..] == rest + added && jobs[i + 1..] == asked + more;
      LinedSlice(queryList, jobs, repr, i + 1);
    }

    /** What draining from place `i` of the queue on will come to. */
    ghost function DrainedFrom(i: nat): World
      requires i <= |jobs|
      reads this`lastSelectedDb, this`log, this`jobs, this`scheduleClose, mysql, callbacks
    {
      Drain(Config(), TheWorld().(queue := jobs[i..]))
    }

    /** No callback of the sessions from place `i` on starts the machine. */
    ghost predicate CalmFrom(i: nat)
      requires i <= |jobs|
      reads this`state, this`lastSelectedDb, this`log, this`jobs, this`scheduleClose, mysql, callbacks
    {
      state.ConnectionIdle? ==> !DrainSubmits(Config(), TheWorld().(queue := jobs[i..]))
    }

    /** The clean-up is at place `i` of the queue, and heading for `goal`. */
    ghost predicate Cleaning(i: nat, goal: World)
      reads this`state, this`inProcess, this`lastSelectedDb, this`scheduleClose, mysql, callbacks
      reads this`queryList, this`jobs, this`submitted, this`repr, this`finished, this`log, repr
    {
      inProcess == null && !state.QueryStart? && OpenFrom(i) && CalmFrom(i) && DrainedFrom(i) == goal
    }

    method CloseNext(i: nat, ghost goal: World)
      requires i < |queryList| && Cleaning(i, goal)
      modifies this`queryList, this`submitted, this`repr, this`jobs, this`finished, this`log, this`scheduleClose
      modifies callbacks`budget, queryList[i]
      ensures Cleaning(i + 1, goal) && Grows()
      ensures callbacks.budget + |queryList| == old(callbacks.budget + |queryList|)
    {
      DrainFrom(Config(), TheWorld(), i);
      if state.ConnectionIdle? {
        QuietDrainStep(Config(), TheWorld(), i);
      }
      CloseQueued(i);
    }

    /** The loop of `clean_up` over the queue, which sees what callbacks append to it. */
    method CloseEach(ghost goal: World)
      requires Cleaning(0, goal)
      modifies this`queryList, this`submitted, this`repr, this`jobs, this`finished, this`log, this`scheduleClose
      modifies callbacks`budget, repr
      ensures Cleaning(|queryList|, goal) && Grows()
    {
      var i := 0;
      while i < |queryList|
        invariant Cleaning(i, goal) && Grows()
        decreases callbacks.budget + |queryList| - i
      {
        CloseNext(i, goal);
        i := i + 1;
      }
    }

    /** The queue part of `clean_up`: every queued session is told "closed". */
    method CloseAllQueued()
      requires Books() && inProcess == null && !state.QueryStart? && Calm()
      modifies this`queryList, this`submitted, this`repr, this`jobs, this`finished, this`log
      modifies this`scheduleClose, callbacks`budget, repr
      ensures Books() && queryList == [] && finished == submitted
      ensures Grows()
      ensures TheWorld() == Drain(Config(), old(TheWorld()))
    {
      assert queryList[0..] == queryList == Current() + queryList && jobs[0..] == jobs;
      ghost var goal := Drain(Config(), TheWorld());
      CloseEach(goal);
      ClearQueue(goal);
    }

    method ClearQueue(ghost goal: World)
      requires Cleaning(|queryList|, goal)
      modifies this`queryList, this`jobs
      ensures Books() && inProcess == null && queryList == [] && finished == submitted && TheWorld() == goal
    {
      assert jobs[|queryList|..] == [];
      queryList, jobs := [], [];
      assert Current() + queryList == [];
    }

    /** The current session, if any, is told "closed"; it keeps the rows it already has. */
    method CloseCurrent()
      requires Books() && inProcess != null && inProcess.Open()
      modifies this`inProcess, this`queryList, this`submitted, this`repr, this`jobs, this`finished, this`log
      modifies this`scheduleClose, callbacks`budget, inProcess
      ensures inProcess == null && Books() && Grows()
      ensures TheWorld() ==
              Complete(Config(), old(TheWorld()), old(inProcess.job), ToldClosed(old(inProcess.View())))
    {
      TellClosed(inProcess, queryList, jobs);
      FinishSession();
    }

    /** What `clean_up` leaves of the world. */
    ghost function CleanedUp(): World
      reads this`inProcess, this`lastSelectedDb, this`log, this`jobs, this`scheduleClose, mysql, callbacks, inProcess
    {
      Drain(Config(),
            if inProcess == null then TheWorld()
            else Complete(Config(), TheWorld(), inProcess.job, ToldClosed(inProcess.View())))
    }

    /** The session part of `clean_up`: everybody is told "closed". */
    method CloseSessions()
      requires Books() && (inProcess != null ==> inProcess.Open())
      requires !state.QueryStart? && (state.ConnectionIdle? ==> inProcess == null) && Calm()
      modifies this`inProcess, this`queryList, this`submitted, this`repr, this`jobs, this`finished, this`log
      modifies this`scheduleClose, callbacks`budget, repr
      ensures Books() && inProcess == null && queryList == [] && finished == submitted
      ensures Grows()
      ensures TheWorld() == old(CleanedUp())
    {
      if inProcess != null {
        CloseCurrent();
      }
      CloseAllQueued();
    }

    method DropEvents()
      requires timerAttached ==> fdEvent.Some?
      modifies this`fdEvent, this`timerAttached
      ensures fdEvent.None? && !timerAttached
    {
      if fdEvent.Some? {
        fdEvent, timerAttached := None, false;
      }
    }

    method CleanUp()
      requires Books() && (inProcess != null ==> inProcess.Open()) && (timerAttached ==> fdEvent.Some?)
      requires !state.QueryStart? && (state.ConnectionIdle? ==> inProcess == null) && Calm()
      modifies this`fdEvent, this`timerAttached, this`inProcess, this`queryList, this`submitted, this`repr
      modifies this`jobs, this`finished, this`log, this`scheduleClose, callbacks`budget, repr
      ensures Books() && inProcess == null && queryList == [] && finished == submitted
      ensures Grows()
      ensures TheWorld() == old(CleanedUp())
      ensures fdEvent.None? && !timerAttached
    {
      DropEvents();
      CloseSessions();
    }

    method CleanUpClosed()
      requires Valid() && Running() && state.CloseDone?
      modifies this`fdEvent, this`timerAttached, this`inProcess, this`queryList, this`submitted, this`repr
      modifies this`jobs, this`finished, this`log, this`scheduleClose, callbacks`budget, repr
      ensures Books() && MachineAt(CloseDone) && Disarmed() && queryList == [] && Grows()
      ensures finished == submitted
      ensures Snapshot() == old(Snapshot()).(world := Drain(Config(), old(TheWorld())))
    {
      CleanUp();
    }

    /** `CLOSE_DONE`: clean up and park; the shipped client does nothing in `OnConnectionClosed`. */
    method CloseFinish() returns (cont: bool)
      requires Valid() && Running() && state.CloseDone?
      modifies this, callbacks, repr
      ensures state == ConnectDone && parked && !ready && queryList == [] && finished == submitted
      ensures Turned(cont) && !cont
      ensures Snapshot() == CloseEnd(Config(), old(Snapshot()))
    {
      CleanUpClosed();
      Park();
      cont := false;
    }

    method Park()
      requires MachineAt(CloseDone) && Books() && Disarmed() && posted == 0 && inProcess == null
      modifies this`ready, this`parked, this`state
      ensures Valid() && AtRest() && Snapshot() == old(Snapshot()).(state := ConnectDone, parked := true)
    {
      ready := false;
      parked := true;
      state := ConnectDone;
    }

    // ---------------------------------------------------------------- the loop

    method HandleConnecting() returns (cont: bool, ghost waited: bool)
      requires Valid() && Running() && (state.ConnectStart? || state.ConnectWait? || state.ConnectDone?)
      requires state.Waiting() ==> mysql.activationCalls == 0
      modifies this, mysql
      ensures old(state.Waiting()) ==> mysql.calls == old(mysql.calls) + 1
      ensures Turned(cont)
      ensures Snapshot() == NextConnect(Config(), old(Snapshot()), waited)
    {
      waited := false;
      match state {
        case ConnectStart | ConnectWait => cont, waited := ConnectStep();
        case ConnectDone => cont := ConnectFinish();
      }
    }

    method HandleClosing() returns (cont: bool, ghost waited: bool)
      requires Valid() && Running() && state.Closing()
      requires state.Waiting() ==> mysql.activationCalls == 0
      modifies this, mysql, callbacks, repr
      ensures old(state.Waiting()) ==> mysql.calls == old(mysql.calls) + 1
      ensures Turned(cont)
      ensures Snapshot() == NextConnect(Config(), old(Snapshot()), waited)
    {
      if state.CloseDone? {
        waited := false;
        cont := CloseFinish();
      } else {
        cont, waited := CloseStep();
      }
    }

    method HandleStateConnect() returns (cont: bool, ghost waited: bool)
      requires Valid() && Running()
      requires state.ConnectStart? || state.ConnectWait? || state.ConnectDone? || state.Closing()
      requires state.Waiting() ==> mysql.activationCalls == 0
      modifies this, mysql, callbacks, repr
      ensures old(state.Waiting()) ==> mysql.calls == old(mysql.calls) + 1
      ensures Turned(cont)
      ensures Snapshot() == NextConnect(Config(), old(Snapshot()), waited)
    {
      if state.Closing() {
        cont, waited := HandleClosing();
      } else {
        cont, waited := HandleConnecting();
      }
    }

    method HandleStateSelectDb() returns (cont: bool, ghost waited: bool)
      requires Valid() && Running()
      requires state.SelectDbStart? || state.SelectDbWait? || state.SelectDbDone?
      requires state.Waiting() ==> mysql.activationCalls == 0
      modifies this, mysql, callbacks, inProcess
      ensures old(state.Waiting()) ==> mysql.calls == old(mysql.calls) + 1
      ensures Turned(cont)
      ensures Snapshot() == NextSelectDb(Config(), old(Snapshot()), waited)
    {
      waited := false;
      match state {
        case SelectDbStart | SelectDbWait => cont, waited := SelectDbStep();
        case SelectDbDone => cont := SelectDbFinish();
      }
    }

    method HandleStateQuery() returns (cont: bool, ghost waited: bool)
      requires Valid() && Running()
      requires state.QueryStart? || state.QueryWait? || state.QueryResultReady?
      requires state.Waiting() ==> mysql.activationCalls == 0
      modifies this, mysql, callbacks, inProcess
      ensures old(state.Waiting()) ==> mysql.calls == old(mysql.calls) + 1
      ensures Turned(cont)
      ensures Snapshot() == NextQuery(Config(), old(Snapshot()), waited)
    {
      waited := false;
      match state {
        case QueryStart => cont, waited := QueryStep();
        case QueryWait => cont, waited := QueryResume();
        case QueryResultReady => cont := QueryReady();
      }
    }

    method HandleStateFetchRow() returns (cont: bool, ghost waited: bool)
      requires Valid() && Running() && state.Fetching()
      requires state.Waiting() ==> mysql.activationCalls == 0
      modifies this, mysql, callbacks, inProcess
      ensures old(state.Waiting()) ==> mysql.calls == old(mysql.calls) + 1
      ensures Turned(cont)
      ensures Snapshot() == NextFetchRow(Config(), old(Snapshot()), waited)
    {
      waited := false;
      match state {
        case FetchRowStart | FetchRowWait => cont, waited := FetchRowStep();
        case FetchRowResultReady => cont := RowStep();
      }
    }

    method HandleServing() returns (cont: bool, ghost waited: bool)
      requires Valid() && Running() && state.Serving()
      requires state.Waiting() ==> mysql.activationCalls == 0
      modifies this, mysql, callbacks, inProcess
      ensures old(state.Waiting()) ==> mysql.calls == old(mysql.calls) + 1
      ensures Turned(cont)
      ensures Snapshot() == NextServing(Config(), old(Snapshot()), waited)
    {
      if state.Fetching() {
        cont, waited := HandleStateFetchRow();
      } else if state.Selecting() {
        cont, waited := HandleStateSelectDb();
      } else {
        cont, waited := HandleStateQuery();
      }
    }

    /** One turn of the loop of `HandleState`. */
    method Turn() returns (cont: bool, ghost waited: bool)
      requires Valid() && Running()
      requires state.Waiting() ==> mysql.activationCalls == 0
      modifies this, mysql, callbacks, repr
      ensures old(state.Waiting()) ==> mysql.calls == old(mysql.calls) + 1
      ensures Turned(cont)
      ensures Snapshot() == Next(Config(), old(Snapshot()), waited)
      ensures cont ==> !Settled(old(Snapshot()))
    {
      if state.ConnectionIdle? {
        waited := false;
        cont := HandleStateIdle();
      } else if state.Serving() {
        cont, waited := HandleServing();
      } else {
        cont, waited := HandleStateConnect();
      }
    }

    /** An activation that began at `s`, with so many calls made: about to take a turn, or over. */
    ghost predicate Going(cont: bool, p: Snap -> bool, s: Snap, calls: nat)
      reads this, mysql, callbacks, inProcess, repr
    {
      && Valid() && StepClosed(Config(), p) && p(Snapshot())
      && if cont then
           && Running() && (state.Waiting() ==> mysql.activationCalls == 0)
           && (Below(Snapshot(), s) || (Snapshot() == s && mysql.calls == calls))
         else
           && AtRest() && NotStalled() && (state.Waiting() || Finished(Snapshot()))
           && Ahead(Snapshot(), mysql.calls, s, calls)
    }

    /** A turn keeps whatever steps keep, and brings a machine that goes on nearer to its end. */
    method Round(ghost p: Snap -> bool, ghost s: Snap, ghost calls: nat) returns (cont: bool)
      requires Going(true, p, s, calls)
      modifies this, mysql, callbacks, repr
      ensures Going(cont, p, s, calls) && Grows()
      ensures cont ==> Below(Snapshot(), old(Snapshot()))
    {
      ghost var before, made, waited := Snapshot(), mysql.calls, false;
      cont, waited := Turn();
      if !Settled(before) { NextDescends(Config(), before, waited); }
      AheadAgain(Snapshot(), mysql.calls, before, made, s, calls);
    }

    /** Run the machine until it waits, has nothing to do, or is closed. It comes nearer to its end, unless it
        waits again after one call. */
    method HandleState(ghost p: Snap -> bool)
      requires Valid() && Running()
      requires StepClosed(Config(), p) && p(Snapshot())
      modifies this, mysql, callbacks, repr
      ensures Valid() && AtRest() && NotStalled() && Grows() && p(Snapshot())
      ensures state.Waiting() || Finished(Snapshot())
      ensures Ahead(Snapshot(), mysql.calls, old(Snapshot()), old(mysql.calls))
    {
      ghost var s, calls := Snapshot(), mysql.calls;
      mysql.activationCalls := 0;
      var cont := true;
      while cont
        invariant Going(cont, p, s, calls) && Grows()
        decreases cont, !parked, PhaseRank(Snapshot()), Work(Snapshot()), StageRank(Snapshot()), RowRank(Snapshot())
      {
        cont := Round(p, s, calls);
      }
    }

    // ---------------------------------------------------------------- what the event loop and the callers do

    /** Some event of the connection can fire. */
    predicate Armed()
      reads this`timerAttached, this`fdEvent
    {
      timerAttached || (fdEvent.Some? && (fdEvent.value.read || fdEvent.value.write))
    }

    /** `OnTimeOut` and `OnWaitEventInvoked`: only a waiting connection can be woken. */
    method OnEvent(ghost p: Snap -> bool)
      requires Valid() && AtRest() && Armed()
      requires StepClosed(Config(), p) && p(Snapshot())
      modifies this, mysql, callbacks, repr
      ensures old(state.Waiting())
      ensures Valid() && AtRest() && NotStalled() && Grows() && p(Snapshot())
      ensures state.Waiting() || Finished(Snapshot())
      ensures Ahead(Snapshot(), mysql.calls, old(Snapshot()), old(mysql.calls))
    {
      ResetWaitEvent();
      HandleState(p);
    }

    method Enqueue(q: QuerySession) returns (run: bool)
      requires Books() && q.Untouched() && q !in submitted
      modifies this`queryList, this`submitted, this`repr, this`jobs, q`ticket
      ensures Books() && repr == old(repr) + {q} && submitted == old(submitted) + [q]
      ensures queryList == old(queryList) + [q] && jobs == old(jobs) + [q.job]
      ensures q != inProcess && run == (state.ConnectionIdle? && inProcess == null)
      ensures MachineAt(state) == old(MachineAt(state)) && Snapshot() == old(Queued(q.job))
    {
      assert forall i :: 0 <= i < |finished| ==> submitted[i] == finished[i];
      assert inProcess != null ==> submitted[|finished|] == inProcess;
      assert forall i :: 0 <= i < |queryList| ==> submitted[|submitted| - |queryList| + i] == queryList[i];
      ghost var list, asked, known := queryList, jobs, repr;
      run := PushBack(q);
      LinedJoin(list, asked, [q], [q.job], known, repr);
      assert submitted == finished + (Current() + queryList);
    }

    /** The connection with one more session queued. */
    ghost function Queued(job: Job): Snap
      reads this`state, this`parked, this`mysqlRet, this`inProcess, this`resultRow, this`resultSet
      reads this`lastSelectedDb, this`log, this`jobs, this`scheduleClose, mysql, callbacks, inProcess
    {
      Snapshot().(world := TheWorld().(queue := jobs + [job]))
    }

    /** A new session joins the queue. */
    method Submit(q: QuerySession) returns (run: bool)
      requires Valid() && q.Untouched() && q !in submitted
      modifies this`queryList, this`submitted, this`repr, this`jobs, q`ticket
      ensures Valid() && submitted == old(submitted) + [q] && repr == old(repr) + {q}
      ensures queryList == old(queryList) + [q]
      ensures Snapshot() == old(Queued(q.job))
      ensures run == state.ConnectionIdle?
    {
      run := Enqueue(q);
    }

    /** The session is served after everything already queued; an idle connection starts at once. */
    method StartQuery(q: QuerySession, ghost p: Snap -> bool)
      requires Valid() && AtRest() && q.Untouched() && q !in submitted
      requires StepClosed(Config(), p) && p(Queued(q.job))
      modifies this, mysql, callbacks, repr, q
      ensures Valid() && AtRest() && NotStalled() && p(Snapshot())
      ensures old(state.ConnectionIdle?) ==> state.Waiting() || Finished(Snapshot())
      ensures old(submitted) + [q] <= submitted && old(finished) <= finished
      ensures !old(state.ConnectionIdle?) ==> submitted == old(submitted) + [q] && queryList == old(queryList) + [q]
      ensures forall x :: x in repr ==> x in old(repr) || x == q || fresh(x)
    {
      var run := Submit(q);
      if run {
        HandleState(p);
      }
    }

    /** At rest with nothing pending and no task posted. */
    predicate Quiet()
      reads this`posted, this`state
    {
      posted == 0 && !state.Waiting()
    }

    /** `Connect`: the machine will start once the loop runs the posted task. */
    method Connect()
      requires Valid() && AtRest() && Quiet()
      modifies this`state, this`posted, this`parked
      ensures Valid() && AtRest() && posted == 1
      ensures Snapshot() == old(Snapshot()).(state := ConnectStart, parked := false)
    {
      state := ConnectStart;
      posted := posted + 1;
      parked := false;
    }

    /** A connect, blocking or not, keeps the calling rules exactly if the connection is not waiting. */
    lemma ConnectNeedsQuiet(waited: bool)
      requires Valid()
      ensures Allows(Pending(mysql.trace), Call.Start(OpConnect, waited)) <==> !state.Waiting()
      ensures Allows(Pending(mysql.trace), Blocking(OpConnect)) <==> !state.Waiting()
    {
    }

    method RunPosted(ghost p: Snap -> bool)
      requires Valid() && AtRest() && posted == 1
      requires StepClosed(Config(), p) && p(Snapshot())
      modifies this, mysql, callbacks, repr
      ensures Valid() && AtRest() && NotStalled() && Grows() && p(Snapshot())
      ensures state.Waiting() || Finished(Snapshot())
    {
      posted := 0;
      HandleState(p);
    }

    /** `Close` only sets a flag: in no reachable state does its guard start the machine. */
    method Close()
      requires Valid() && AtRest()
      modifies this`scheduleClose
      ensures Valid() && AtRest()
      ensures Snapshot() == old(Snapshot()).(world := old(TheWorld()).(closing := true))
    {
      var run := RequestClose();
      assert !run;
    }

    method SyncConnectCall() returns (ok: bool)
      requires Valid() && AtRest() && Quiet()
      modifies this`mysqlRet, mysql
      ensures Valid() && AtRest() && mysql.live.None? && Pending(mysql.trace).None?
      ensures mysql.history == old(mysql.history) + [Request.Connect(dbname)]
      ensures ok == mysql.server.connects(mysql.history)
    {
      ok := mysql.RealConnect(dbname);
      mysqlRet := ok;
    }

    method GoIdle()
      requires Valid() && AtRest() && Quiet() && mysql.live.None? && Pending(mysql.trace).None?
      modifies this`ready, this`state, this`parked
      ensures Valid() && AtRest() && state.ConnectionIdle? && !parked
    {
      ready := true;
      state := ConnectionIdle;
      parked := false;
    }

    /** A blocking connect does not disturb the cache. */
    predicate CacheFits()
      reads this`lastSelectedDb
    {
      lastSelectedDb == "" || lastSelectedDb == dbname
    }

    /** The cached name is not reset. The connection stalls exactly if sessions were queued before, and
        its queries keep running in the right database exactly if the cache names nothing or the
        configured database. */
    method SyncConnect() returns (ok: bool)
      requires Valid() && AtRest() && Quiet()
      modifies this`mysqlRet, this`ready, this`state, this`parked, mysql
      ensures Valid() && AtRest() && Quiet() && ok == mysql.server.connects(mysql.history)
      ensures mysql.history == old(mysql.history) + [Request.Connect(dbname)]
      ensures ok ==> state.ConnectionIdle? && (NotStalled() <==> queryList == [])
      ensures !ok ==> state == old(state) && parked == old(parked) && (old(Sound()) ==> Sound())
      ensures ok ==> (Sound() <==> WellTargeted(mysql.server, old(mysql.history)) && CacheFits())
    {
      ghost var s := Snapshot();
      ok := SyncConnectCall();
      if ok {
        GoIdle();
        ConnectDecides(Config(), Snapshot(), s.world.history);
      } else {
        FailedConnectKeepsSound(Config(), s, Snapshot());
      }
    }

    /** Everything is told off; the library handle is closed with a blocking call. */
    method Shut()
      requires Books() && mysql.Valid() && inProcess == null && queryList == [] && Disarmed() && posted <= 1
      modifies this`ready, this`state, this`parked, mysql
      ensures Valid() && AtRest() && state.CloseDone? && parked == (posted == 0)
      ensures TheWorld() == old(TheWorld()).Send(Request.Close)
    {
      ready := false;
      mysql.BlockingClose();
      state := CloseDone;
      parked := posted == 0;
    }

    /** The blocking close at any time: everybody is told "closed", in order, and nothing stays armed. */
    method SyncClose()
      requires Valid() && AtRest() && Calm()
      modifies this, mysql, callbacks, repr
      ensures Valid() && AtRest() && state.CloseDone? && parked == (posted == 0) && posted == old(posted)
      ensures queryList == [] && finished == submitted && Grows()
      ensures TheWorld() == old(CleanedUp()).Send(Request.Close)
    {
      CleanUp();
      Shut();
    }

    /** The destructor: by the end of the connection's life every session handed in has been completed,
        once and in order. */
    method Destroy()
      requires Valid() && AtRest() && Calm()
      modifies this, callbacks, repr
      ensures Ledger([]) && finished == submitted && old(submitted) <= submitted
    {
      CloseSessions();
    }

    /** A clean-up starts the machine from inside only on an idle connection whose callbacks submit. */
    method IsCalm() returns (calm: bool)
      requires Valid()
      ensures calm == Calm()
    {
      var list := queryList;
      var queue := seq(|list|, i requires 0 <= i < |list| => list[i].job);
      assert queue == jobs;
      calm := !state.ConnectionIdle? ||
        !DrainSubmits(Setting(mysql.server, dbname, callbacks.react),
                      World(mysql.history, lastSelectedDb, log, queue, callbacks.budget, scheduleClose));
    }

    /** The clean-up is at place `i` of an idle connection's queue, and a callback to come submits. */
    ghost predicate Loud(i: nat, front: QuerySession)
      reads this`state, this`inProcess, this`lastSelectedDb, this`scheduleClose, mysql, callbacks
      reads this`queryList, this`jobs, this`submitted, this`repr, this`finished, this`log, repr
    {
      && inProcess == null && state.ConnectionIdle? && OpenFrom(i) && !CalmFrom(i)
      && queryList != [] && queryList[0] == front && (i > 0 ==> front in finished)
    }

    /** The session at place `i`, when told "closed", submits another. */
    ghost predicate Submits(i: nat)
      requires i < |jobs|
      reads this`lastSelectedDb, this`log, this`jobs, this`scheduleClose, mysql, callbacks
    {
      Complete(Config(), TheWorld(), jobs[i], CLOSED).budget < callbacks.budget
    }

    /** There is a session at place `i`, and it is known whether it submits. */
    ghost predicate AskedAt(i: nat, front: QuerySession, submits: bool)
      reads this`state, this`inProcess, this`lastSelectedDb, this`scheduleClose, mysql, callbacks
      reads this`queryList, this`jobs, this`submitted, this`repr, this`finished, this`log, repr
    {
      Loud(i, front) && i < |queryList| && submits == Submits(i)
    }

    lemma EndIsCalm(i: nat)
      requires OpenFrom(i) && i == |queryList|
      ensures CalmFrom(i)
    {
      assert jobs[i..] == [];
    }

    method WouldSubmit(i: nat, ghost front: QuerySession) returns (submits: bool)
      requires Loud(i, front)
      ensures AskedAt(i, front, submits)
    {
      if i == |queryList| {
        EndIsCalm(i);
        assert false;
      }
      var job := queryList[i].job;
      submits := job.notify && Allowed(callbacks.react(log + [Done(job, CLOSED)]), callbacks.budget) != [];
    }

    /** The session at place `i` is told "closed" and its callback submits: that starts the machine. */
    method CloseAndSubmit(i: nat, ghost front: QuerySession) returns (run: bool)
      requires AskedAt(i, front, true)
      modifies this`queryList, this`submitted, this`repr, this`jobs, this`log, queryList[i]
      ensures run && |queryList| == |jobs| > 0 && queryList[0] == front && front.Told()
      ensures i == 0 ==> front.CallingBack()
    {
      var q := queryList[i];
      ghost var rest, asked := queryList[i + 1..], jobs[i + 1..];
      assert queryList[i..] == [q] + rest;
      LinedSlice(queryList, jobs, repr, i + 1);
      TellClosed(q, rest, asked);
      var fire := BeginDone(q, rest, asked);
      var more := new QuerySession(Allowed(callbacks.react(log), callbacks.budget)[0]);
      run := PushBack(more);
    }

    /** The session at place `i` is told "closed" and its callback does not submit: a later one will. */
    method CloseQuietly(i: nat, ghost front: QuerySession) returns (submits: bool)
      requires AskedAt(i, front, false)
      modifies this`queryList, this`submitted, this`repr, this`jobs, this`finished, this`log, this`scheduleClose
      modifies callbacks`budget, queryList[i]
      ensures AskedAt(i + 1, front, submits) && Grows()
      ensures callbacks.budget + |queryList| == old(callbacks.budget + |queryList|)
    {
      LoudDrainStep(Config(), TheWorld(), i);
      CloseQueued(i);
      submits := WouldSubmit(i + 1, front);
    }

    method AskFirst() returns (submits: bool)
      requires Valid() && !Calm()
      ensures queryList != [] && AskedAt(0, queryList[0], submits)
    {
      assert queryList[0..] == queryList == Current() + queryList && jobs[0..] == jobs;
      submits := WouldSubmit(0, queryList[0]);
    }

    /** On every connection that is not calm, a clean-up starts the machine from inside a callback, while the
        front of its queue is a session that was told "closed" already. */
    method CleanUpReenters() returns (run: bool)
      requires Valid() && !Calm()
      modifies this`queryList, this`submitted, this`repr, this`jobs, this`finished, this`log, this`scheduleClose
      modifies callbacks`budget, repr
      ensures run && state.ConnectionIdle? && inProcess == null
      ensures old(queryList) != [] && |queryList| == |jobs| > 0
      ensures queryList[0] == old(queryList)[0] && queryList[0].Told()
      ensures old(|jobs| > 0 && Submits(0)) ==> queryList[0].CallingBack()
    {
      var i := 0;
      var submits := AskFirst();
      ghost var front, first := queryList[0], submits;
      while !submits
        invariant first ==> i == 0 && submits
        invariant AskedAt(i, front, submits) && Grows()
        decreases callbacks.budget + |queryList| - i
      {
        submits := CloseQuietly(i, front);
        i := i + 1;
      }
      run := CloseAndSubmit(i, front);
    }

    /** What the machine does when it is started so, if that session has an empty text and needs no other database:
        the session is told again, and its callback, if it is still installed, is called again. */
    method TellAgain() returns (fire: bool)
      requires state.ConnectionIdle? && inProcess == null && |queryList| == |jobs| > 0 && queryList[0].Told()
      requires queryList[0].job.sql == "" && !NeedsSelect(lastSelectedDb, queryList[0].job)
      modifies this`inProcess, this`queryList, this`jobs, this`state, queryList[0]
      ensures var q := old(queryList)[0];
              && inProcess == q && q.code == -9999 && q.doneCalls == 2
              && (fire <==> old(queryList[0].armed)) && q.fired == old(queryList[0].fired) + (if fire then 1 else 0)
    {
      TakeFront();
      state := QueryStart;
      TellOutcome(inProcess, -9999, "empty query");
      fire := inProcess.CallBack();
    }

    // ---------------------------------------------------------------- progress

    ghost function RestingLoop(): Loop
      reads this`state, this`parked, this`mysqlRet, this`inProcess, this`resultRow, this`resultSet
      reads this`lastSelectedDb, this`log, this`jobs, this`scheduleClose, mysql, callbacks, inProcess
    {
      Loop(Snapshot(), false, mysql.LastStatus().Arms())
    }

    /** No session is open, no operation is under way and no close is due. */
    predicate AllDone()
      reads this`queryList, this`inProcess, this`state, this`scheduleClose
    {
      queryList == [] && inProcess == null && !state.Waiting() && !(state.ConnectionIdle? && scheduleClose)
    }

    /** At rest, either all is done, or an event is armed, or a task is posted, except exactly if the connection
        is idle with the close flag set or with a queue, or waits for nothing but the exception bit, or is not
        connected and has a queue. */
    lemma ProgressExactly()
      requires Valid() && AtRest()
      ensures AllDone() || Armed() || posted == 1 <==> !Stuck(RestingLoop())
      ensures Stuck(RestingLoop()) <==>
              || (state.ConnectionIdle? && (queryList != [] || scheduleClose))
              || (state.Waiting() && var b := mysql.LastStatus(); !b.read && !b.write && !b.timeout)
              || (parked && queryList != [])
    {
    }

    /** Whatever the library's waits and however many events come: an idle connection that is given a session
        and settles has done exactly what the blocking client does with the queue. */
    method ServeOut(q: QuerySession, events: nat)
      requires Valid() && AtRest() && state.ConnectionIdle? && q.Untouched() && q !in submitted
      modifies this, mysql, callbacks, repr, q
      ensures Valid() && AtRest() && NotStalled()
      ensures state.Waiting() || Finished(Snapshot())
      ensures forall x :: x in repr ==> x in old(repr) || x == q || fresh(x)
      ensures Settled(Snapshot()) ==> Final(TheWorld(), !parked) == RunAll(Config(), old(Queued(q.job)).world)
    {
      ghost var goal := RunAll(Config(), Queued(q.job).world);
      HeadsForIsStepClosed(Config(), goal);
      ghost var p := HeadsFor(Config(), goal);
      StartQuery(q, p);
      for n := 0 to events
        invariant Valid() && AtRest() && NotStalled() && p(Snapshot())
        invariant state.Waiting() || Finished(Snapshot())
        invariant forall x :: x in repr ==> x in old(repr) || x == q || fresh(x)
      {
        if Armed() {
          OnEvent(p);
        }
      }
    }

    /** No operation of the library waits forever, and every wait asks for something that is armed. */
    ghost predicate Reliable() {
      Fair(mysql.waits) && Wakes(mysql.waits)
    }

    lemma WaitingIsArmed()
      requires AtRest() && state.Waiting() && Reliable()
      ensures Armed() && mysql.calls > 0 && !mysql.waits(mysql.calls - 1).Zero()
    {
      assert mysql.waits(mysql.calls - 1).Zero() || mysql.waits(mysql.calls - 1).Arms();
    }

    /** At rest, waiting for events or finished, with the property kept; call `m` will not wait. */
    ghost predicate Awaits(p: Snap -> bool, m: nat)
      reads this, mysql, callbacks, inProcess, repr
    {
      && Valid() && AtRest() && NotStalled() && (state.Waiting() || Finished(Snapshot()))
      && StepClosed(Config(), p) && p(Snapshot()) && Reliable() && EndsAfter(mysql.waits, mysql.calls, m)
    }

    /** The event of a waiting connection comes. */
    method Await(ghost p: Snap -> bool, ghost m: nat) returns (ghost n: nat)
      requires Awaits(p, m) && state.Waiting()
      modifies this, mysql, callbacks, repr
      ensures Awaits(p, n) && Grows()
      ensures Below(Snapshot(), old(Snapshot())) ||
              (Snapshot() == old(Snapshot()) && n - mysql.calls < m - old(mysql.calls))
    {
      ghost var s := Snapshot();
      WaitingIsArmed();
      OnEvent(p);
      if Below(Snapshot(), s) {
        assert EndsFrom(mysql.waits, mysql.calls);
        n :| EndsAfter(mysql.waits, mysql.calls, n);
      } else {
        WaitingIsArmed();
        n := m;
      }
    }

    /** The events of a waiting connection come, one after the other, until it waits no more; and that happens. */
    method RunOut(ghost p: Snap -> bool)
      requires Valid() && AtRest() && NotStalled() && (state.Waiting() || Finished(Snapshot()))
      requires StepClosed(Config(), p) && p(Snapshot()) && Reliable()
      modifies this, mysql, callbacks, repr
      ensures Valid() && AtRest() && NotStalled() && Grows() && p(Snapshot()) && Finished(Snapshot())
    {
      assert EndsFrom(mysql.waits, mysql.calls);
      ghost var m: nat :| EndsAfter(mysql.waits, mysql.calls, m);
      while state.Waiting()
        invariant Awaits(p, m) && Grows()
        decreases !parked, PhaseRank(Snapshot()), Work(Snapshot()), StageRank(Snapshot()), RowRank(Snapshot()),
                  m - mysql.calls
      {
        m := Await(p, m);
      }
    }

    /** With a reliable library: an idle connection that is given a session ends, with no session left, having
        done exactly what the blocking client does with the queue. */
    method ServeFully(q: QuerySession)
      requires Valid() && AtRest() && state.ConnectionIdle? && q.Untouched() && q !in submitted && Reliable()
      modifies this, mysql, callbacks, repr, q
      ensures Valid() && AtRest() && queryList == [] && Finished(Snapshot()) && !state.Waiting()
      ensures forall x :: x in repr ==> x in old(repr) || x == q || fresh(x)
      ensures Final(TheWorld(), !parked) == RunAll(Config(), old(Queued(q.job)).world)
    {
      ghost var goal := RunAll(Config(), Queued(q.job).world);
      HeadsForIsStepClosed(Config(), goal);
      ghost var p := HeadsFor(Config(), goal);
      StartQuery(q, p);
      RunOut(p);
    }

    /** The posted task and then the events come. */
    method RunPostedOut(ghost p: Snap -> bool)
      requires Valid() && AtRest() && posted == 1
      requires StepClosed(Config(), p) && p(Snapshot()) && Reliable()
      modifies this, mysql, callbacks, repr
      ensures Valid() && AtRest() && Grows() && p(Snapshot()) && Finished(Snapshot())
    {
      RunPosted(p);
      RunOut(p);
    }

    /** With a reliable library: whatever was queued before a connect is served, or told "closed", exactly as
        the blocking client does after its connect. */
    method ConnectFully()
      requires Valid() && AtRest() && Quiet() && Reliable()
      modifies this, mysql, callbacks, repr
      ensures Valid() && AtRest() && queryList == [] && Finished(Snapshot()) && !state.Waiting()
      ensures var w := old(TheWorld()).Send(Request.Connect(dbname));
              Final(TheWorld(), !parked) == Connected(Config(), w, mysql.server.connects(w.history))
    {
      ghost var w := TheWorld().Send(Request.Connect(dbname));
      ghost var goal := Connected(Config(), w, mysql.server.connects(w.history));
      HeadsForIsStepClosed(Config(), goal);
      Connect();
      assert Future(Config(), Snapshot()) == goal;
      RunPostedOut(HeadsFor(Config(), goal));
    }

    // ---------------------------------------------------------------- whole lives

    /** What every action keeps. */
    twostate predicate Acted()
      reads this, mysql, callbacks, inProcess, repr
    {
      Valid() && AtRest() && Grows()
    }

    method SubmitSoundly(q: QuerySession)
      requires Valid() && AtRest() && q.Untouched() && q !in submitted
      modifies this, mysql, callbacks, repr, q
      ensures Valid() && AtRest() && NotStalled() && (old(Sound()) ==> Sound())
      ensures old(submitted) <= submitted && old(finished) <= finished
      ensures forall x :: x in repr ==> x in old(repr) || x == q || fresh(x)
    {
      StaysSoundIsStepClosed(Config(), Sound());
      QueueKeepsSound(Config(), Snapshot(), jobs + [q.job]);
      StartQuery(q, StaysSound(Config(), Sound()));
    }

    method ActSubmit(job: Job)
      requires Valid() && AtRest()
      modifies this, mysql, callbacks, repr
      ensures Acted() && NotStalled() && (old(Sound()) ==> Sound())
    {
      var q := new QuerySession(job);
      SubmitSoundly(q);
    }

    method ActEvent()
      requires Valid() && AtRest()
      modifies this, mysql, callbacks, repr
      ensures Acted() && (old(NotStalled()) ==> NotStalled()) && (old(Sound()) ==> Sound())
    {
      if Armed() {
        StaysSoundIsStepClosed(Config(), Sound());
        OnEvent(StaysSound(Config(), Sound()));
      }
    }

    method ActTask()
      requires Valid() && AtRest()
      modifies this, mysql, callbacks, repr
      ensures Acted() && (old(NotStalled()) ==> NotStalled()) && (old(Sound()) ==> Sound())
    {
      if posted == 1 {
        StaysSoundIsStepClosed(Config(), Sound());
        RunPosted(StaysSound(Config(), Sound()));
      }
    }

    method ActConnect()
      requires Valid() && AtRest()
      modifies this`state, this`posted, this`parked
      ensures Acted() && (old(NotStalled()) ==> NotStalled()) && (old(Sound()) ==> Sound())
    {
      if Quiet() {
        Connect();
      }
    }

    /** `fits`: if this connected, the cache named nothing or the configured database. */
    method ActSyncConnect() returns (fits: bool)
      requires Valid() && AtRest()
      modifies this`mysqlRet, this`ready, this`state, this`parked, mysql
      ensures Acted() && (old(NotStalled()) && queryList == [] ==> NotStalled())
      ensures CacheFits() ==> fits
      ensures old(Sound()) && fits ==> Sound()
    {
      fits := true;
      if Quiet() {
        var ok := SyncConnect();
        fits := ok ==> CacheFits();
      }
    }

    method ActClose()
      requires Valid() && AtRest()
      modifies this`scheduleClose
      ensures Acted() && (old(NotStalled()) ==> NotStalled()) && (old(Sound()) ==> Sound())
    {
      Close();
    }

    lemma CleaningSendsNothing()
      ensures CleanedUp().history == mysql.history
    {
      DrainKeepsHistory(Config(),
                        if inProcess == null then TheWorld()
                        else Complete(Config(), TheWorld(), inProcess.job, ToldClosed(inProcess.View())));
    }

    method ActSyncClose()
      requires Valid() && AtRest() && Calm()
      modifies this, mysql, callbacks, repr
      ensures Acted() && NotStalled() && (old(Sound()) ==> Sound())
    {
      ghost var h := mysql.history;
      CleaningSendsNothing();
      WellTargetedSnoc(mysql.server, h, Request.Close);
      SyncClose();
      assert mysql.history == TheWorld().history == h + [Request.Close];
    }

    method Act(action: Action) returns (fits: bool)
      requires Valid() && AtRest() && (action.CallSyncClose? ==> Calm())
      modifies this, mysql, callbacks, repr
      ensures Acted()
      ensures old(NotStalled()) && (action.CallSyncConnect? ==> old(queryList) == []) ==> NotStalled()
      ensures !action.CallSyncConnect? || old(CacheFits()) ==> fits
      ensures old(Sound()) && fits ==> Sound()
    {
      fits := true;
      match action {
        case Submission(job) => ActSubmit(job);
        case Event => ActEvent();
        case PostedTask => ActTask();
        case CallConnect => ActConnect();
        case CallSyncConnect => fits := ActSyncConnect();
        case CallClose => ActClose();
        case CallSyncClose => ActSyncClose();
      }
    }

    /** A blocking connect is made at most once, before everything else. */
    static predicate ConnectsFirst(actions: seq<Action>) {
      forall k :: 0 < k < |actions| ==> !actions[k].CallSyncConnect?
    }

    /** An action, unless it is a blocking close on a connection that is not calm. */
    method Try(action: Action) returns (ok: bool, fits: bool)
      requires Valid() && AtRest()
      modifies this, mysql, callbacks, repr
      ensures Acted()
      ensures !ok ==> action.CallSyncClose? && !Calm() && !old(NotStalled())
      ensures old(NotStalled()) && (action.CallSyncConnect? ==> old(queryList) == []) ==> NotStalled()
      ensures !action.CallSyncConnect? || old(CacheFits()) ==> fits
      ensures old(Sound()) && fits ==> Sound()
    {
      ok, fits := true, true;
      if action.CallSyncClose? {
        ok := IsCalm();
      }
      if ok {
        fits := Act(action);
      }
    }

    /** Whatever happens, in whatever order. It stops short of a blocking close on a connection that is not
        calm, which only a blocking connect after submissions brings about. */
    method Live(actions: seq<Action>) returns (done: nat, fits: bool)
      requires Valid() && AtRest()
      modifies this, mysql, callbacks, repr
      ensures Acted() && done <= |actions|
      ensures done < |actions| ==> actions[done].CallSyncClose? && !Calm()
      ensures old(Sound()) && fits ==> Sound()
      ensures ConnectsFirst(actions) && old(CacheFits()) ==> fits
      ensures ConnectsFirst(actions) && old(queryList) == [] ==> done == |actions| && NotStalled()
    {
      done, fits := 0, true;
      while done < |actions|
        invariant Acted() && done <= |actions|
        invariant old(Sound()) && fits ==> Sound()
        invariant ConnectsFirst(actions) && old(CacheFits()) ==> fits && (done == 0 ==> CacheFits())
        invariant ConnectsFirst(actions) && old(queryList) == [] ==> NotStalled() && (done == 0 ==> queryList == [])
        decreases |actions| - done
      {
        var ok, fit := Try(actions[done]);
        fits := fits && fit;
        if !ok {
          return;
        }
        done := done + 1;
      }
    }

    /** A whole life, whatever happens in it: the library is called by its rules, and every session handed in
        is completed exactly once, in order, unless a blocking close or the destructor comes when the connection
        is not calm. If a blocking connect is only made when fresh, that never happens, and every query runs in
        the database it asked for. */
    method Life(actions: seq<Action>) returns (whole: bool)
      requires Valid() && AtRest()
      modifies this, mysql, callbacks, repr
      ensures Disciplined(mysql.trace)
      ensures whole ==> Ledger([]) && finished == submitted && old(submitted) <= submitted
      ensures !whole ==> Valid() && !Calm()
      ensures ConnectsFirst(actions) && old(queryList) == [] ==> whole
      ensures ConnectsFirst(actions) && old(CacheFits()) && old(Sound()) ==> WellTargeted(mysql.server, mysql.history)
    {
      var done, fits := Live(actions);
      whole := done == |actions|;
      if whole {
        whole := IsCalm();
      }
      if whole {
        Destroy();
      }
    }
  }
}

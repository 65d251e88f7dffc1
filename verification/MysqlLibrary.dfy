/** The client library's handle, as its non-blocking interface promises it. */
module MysqlLibrary {
  import opened Options
  import opened MysqlTypes
  import opened MysqlMachine

  datatype Op = OpConnect | OpSelectDb | OpQuery | OpFetchRow | OpClose

  /** One non-blocking call: whether it returned with something to wait for, and whether it was the
      first call of its activation; or a blocking connect or close. */
  datatype Call =
    | Start(op: Op, waited: bool)
    | Cont(op: Op, waited: bool, first: bool)
    | Blocking(op: Op)

  /** The operation that the last call left unfinished. */
  function Pending(trace: seq<Call>): Option<Op> {
    if trace == [] then None else
    var last := trace[|trace| - 1];
    if !last.Blocking? && last.waited then Some(last.op) else None
  }

  /** The calling rules: a `_cont` only, and first thing, for the operation left unfinished by the
      call before it; a `_start` or a blocking connect only when nothing is unfinished. */
  predicate Allows(pending: Option<Op>, call: Call) {
    match call
    case Start(_, _) => pending.None?
    case Cont(op, _, first) => pending == Some(op) && first
    case Blocking(op) => pending.None? || op.OpClose?
  }

  predicate Disciplined(trace: seq<Call>) {
    trace == [] ||
    var before := trace[..|trace| - 1];
    Disciplined(before) && Allows(Pending(before), trace[|trace| - 1])
  }

  lemma DisciplinedSnoc(trace: seq<Call>, call: Call)
    requires Disciplined(trace) && Allows(Pending(trace), call)
    ensures Disciplined(trace + [call])
  {
    assert (trace + [call])[..|trace|] == trace;
  }

  /** In a disciplined trace every call, not only the last, follows the rules. */
  lemma {:induction false} DisciplinedEverywhere(trace: seq<Call>, i: nat)
    requires Disciplined(trace) && i < |trace|
    ensures Allows(Pending(trace[..i]), trace[i])
  {
    if i < |trace| - 1 {
      var before := trace[..|trace| - 1];
      DisciplinedEverywhere(before, i);
      assert before[..i] == trace[..i];
    }
  }

  /** The rules, call by call: a start or a blocking connect comes first of all, or after a call that left nothing
      to wait for; a continuation comes first in its activation, after a call of its own operation that did. */
  lemma RulesExactly(trace: seq<Call>, i: nat)
    requires Disciplined(trace) && i < |trace|
    ensures match trace[i]
            case Start(_, _) => i == 0 || trace[i - 1].Blocking? || !trace[i - 1].waited
            case Cont(op, _, first) =>
              first && i > 0 && !trace[i - 1].Blocking? && trace[i - 1].waited && trace[i - 1].op == op
            case Blocking(op) => op == OpConnect ==> i == 0 || trace[i - 1].Blocking? || !trace[i - 1].waited
  {
    DisciplinedEverywhere(trace, i);
  }

  class Mysql {
    const server: Server
    /** The wait status of the n-th non-blocking call. */
    const waits: nat -> Wait
    var calls: nat

    var history: seq<Request>
    var errno: int
    var error: string
    var live: Option<Live>

    ghost var trace: seq<Call>
    ghost var activationCalls: nat
    ghost var produced: nat
    ghost var freed: nat
    ghost var leaked: nat

    ghost predicate Valid()
      reads this
    {
      && Disciplined(trace)
      && produced == freed + leaked + (if live.Some? then 1 else 0)
    }

    constructor (server: Server, waits: nat -> Wait)
      ensures Valid() && this.server == server && this.waits == waits
      ensures history == [] && trace == [] && live == None && errno == 0 && error == "" && produced == 0
    {
      this.server, this.waits, calls := server, waits, 0;
      history, errno, error, live := [], 0, "", None;
      trace, activationCalls, produced, freed, leaked := [], 0, 0, 0, 0;
    }

    /** What the last non-blocking call returned. */
    ghost function LastStatus(): Wait
      reads this`calls
    {
      if calls == 0 then Wait(false, false, false, false) else waits(calls - 1)
    }

    method NextStatus() returns (status: Wait)
      modifies this`calls
      ensures status == LastStatus()
      ensures calls == old(calls) + 1
    {
      status := waits(calls);
      calls := calls + 1;
    }

    ghost method RecordStart(op: Op, status: Wait)
      requires Valid() && Pending(trace).None?
      modifies this`trace, this`activationCalls
      ensures Valid() && trace == old(trace) + [Start(op, !status.Zero())]
              && activationCalls == old(activationCalls) + 1
    {
      DisciplinedSnoc(trace, Start(op, !status.Zero()));
      trace, activationCalls := trace + [Start(op, !status.Zero())], activationCalls + 1;
    }

    ghost method RecordCont(op: Op, status: Wait)
      requires Valid() && Pending(trace) == Some(op) && activationCalls == 0
      modifies this`trace, this`activationCalls
      ensures Valid() && trace == old(trace) + [Cont(op, !status.Zero(), true)] && activationCalls == 1
    {
      DisciplinedSnoc(trace, Cont(op, !status.Zero(), true));
      trace, activationCalls := trace + [Cont(op, !status.Zero(), true)], activationCalls + 1;
    }

    // ---- connect ----

    method RealConnectStart(db: string) returns (status: Wait, ret: bool)
      requires Valid() && Pending(trace).None? && live.None?
      modifies this
      ensures Valid() && history == old(history) + [Connect(db)] && live == old(live)
      ensures Pending(trace) == if status.Zero() then None else Some(OpConnect)
      ensures status == LastStatus()
      ensures calls == old(calls) + 1
      ensures status.Zero() ==> ret == server.connects(history)
    {
      status := NextStatus();
      history := history + [Connect(db)];
      ret := server.connects(history);
      RecordStart(OpConnect, status);
    }

    method RealConnectCont() returns (status: Wait, ret: bool)
      requires Valid() && Pending(trace) == Some(OpConnect) && activationCalls == 0
      modifies this
      ensures Valid() && history == old(history) && live == old(live)
      ensures Pending(trace) == if status.Zero() then None else Some(OpConnect)
      ensures status == LastStatus()
      ensures calls == old(calls) + 1
      ensures status.Zero() ==> ret == server.connects(history)
    {
      status := NextStatus();
      ret := server.connects(history);
      RecordCont(OpConnect, status);
    }

    method RealConnect(db: string) returns (ret: bool)
      requires Valid() && Pending(trace).None? && live.None?
      modifies this
      ensures Valid() && history == old(history) + [Connect(db)] && live == old(live)
      ensures Pending(trace).None? && ret == server.connects(history)
    {
      history := history + [Connect(db)];
      ret := server.connects(history);
      DisciplinedSnoc(trace, Blocking(OpConnect));
      trace := trace + [Blocking(OpConnect)];
    }

    // ---- select a database ----

    method SelectDbStart(db: string) returns (err: int, status: Wait)
      requires Valid() && Pending(trace).None? && live.None?
      modifies this
      ensures Valid() && history == old(history) + [SelectDb(db)] && live == old(live)
      ensures Pending(trace) == if status.Zero() then None else Some(OpSelectDb)
      ensures status == LastStatus()
      ensures calls == old(calls) + 1
      ensures var a := server.selects(history);
              if status.Zero() then err == errno == a.code && error == a.message else err == 0
    {
      status := NextStatus();
      history := history + [SelectDb(db)];
      err := SelectResult(status);
      RecordStart(OpSelectDb, status);
    }

    method SelectDbCont() returns (err: int, status: Wait)
      requires Valid() && Pending(trace) == Some(OpSelectDb) && activationCalls == 0
      modifies this
      ensures Valid() && history == old(history) && live == old(live)
      ensures Pending(trace) == if status.Zero() then None else Some(OpSelectDb)
      ensures status == LastStatus()
      ensures calls == old(calls) + 1
      ensures var a := server.selects(history);
              if status.Zero() then err == errno == a.code && error == a.message else err == 0
    {
      status := NextStatus();
      err := SelectResult(status);
      RecordCont(OpSelectDb, status);
    }

    method SelectResult(status: Wait) returns (err: int)
      modifies this`errno, this`error
      ensures var a := server.selects(history);
              if status.Zero() then err == errno == a.code && error == a.message else err == 0
    {
      var a := server.selects(history);
      if status.Zero() {
        errno, error, err := a.code, a.message, a.code;
      } else {
        err := 0;
      }
    }

    // ---- query ----

    method RealQueryStart(sql: string, db: string) returns (err: int, status: Wait)
      requires Valid() && Pending(trace).None? && live.None?
      modifies this
      ensures Valid() && history == old(history) + [Query(sql, db)] && live == old(live)
      ensures Pending(trace) == if status.Zero() then None else Some(OpQuery)
      ensures status == LastStatus()
      ensures calls == old(calls) + 1
      ensures var a := server.queries(history);
              if status.Zero() && a.QueryFailed? then err == errno == a.code && error == a.message else err == 0
    {
      status := NextStatus();
      history := history + [Query(sql, db)];
      err := QueryResult(status);
      RecordStart(OpQuery, status);
    }

    method RealQueryCont() returns (err: int, status: Wait)
      requires Valid() && Pending(trace) == Some(OpQuery) && activationCalls == 0
      modifies this
      ensures Valid() && history == old(history) && live == old(live)
      ensures Pending(trace) == if status.Zero() then None else Some(OpQuery)
      ensures status == LastStatus()
      ensures calls == old(calls) + 1
      ensures var a := server.queries(history);
              if status.Zero() && a.QueryFailed? then err == errno == a.code && error == a.message else err == 0
    {
      status := NextStatus();
      err := QueryResult(status);
      RecordCont(OpQuery, status);
    }

    method QueryResult(status: Wait) returns (err: int)
      modifies this`errno, this`error
      ensures var a := server.queries(history);
              if status.Zero() && a.QueryFailed? then err == errno == a.code && error == a.message else err == 0
    {
      var a := server.queries(history);
      if status.Zero() && a.QueryFailed? {
        errno, error, err := a.code, a.message, a.code;
      } else {
        errno, error, err := 0, "", 0;
      }
    }

    /** `mysql_use_result`: a result set becomes live; otherwise null, and the error number says why. */
    method UseResult() returns (some: bool)
      requires Valid() && Pending(trace).None? && live.None?
      modifies this`live, this`errno, this`error, this`produced
      ensures Valid()
      ensures match server.queries(history)
              case ResultSet(fields, rows, code, message) => some && live == Some(Live(fields, rows, code, message, 0))
              case QueryFailed(code, message) => !some && live.None? && errno == code && error == message
              case NoResult(code, message) => !some && live.None? && errno == code && error == message
    {
      match server.queries(history) {
        case ResultSet(fields, rows, code, message) =>
          some, live, produced := true, Some(Live(fields, rows, code, message, 0)), produced + 1;
        case QueryFailed(code, message) =>
          some, errno, error := false, code, message;
        case NoResult(code, message) =>
          some, errno, error := false, code, message;
      }
    }

    // ---- fetch a row ----

    method FetchRowStart() returns (status: Wait, row: Option<Row>)
      requires Valid() && Pending(trace).None? && live.Some?
      modifies this
      ensures Valid() && history == old(history)
      ensures Pending(trace) == if status.Zero() then None else Some(OpFetchRow)
      ensures status == LastStatus()
      ensures calls == old(calls) + 1
      ensures Fetched(status, row, old(live.value))
    {
      status := NextStatus();
      RecordStart(OpFetchRow, status);
      row := FetchResult(status);
    }

    method FetchRowCont() returns (status: Wait, row: Option<Row>)
      requires Valid() && Pending(trace) == Some(OpFetchRow) && live.Some? && activationCalls == 0
      modifies this
      ensures Valid() && history == old(history)
      ensures Pending(trace) == if status.Zero() then None else Some(OpFetchRow)
      ensures status == LastStatus()
      ensures calls == old(calls) + 1
      ensures Fetched(status, row, old(live.value))
    {
      status := NextStatus();
      RecordCont(OpFetchRow, status);
      row := FetchResult(status);
    }

    /** A completed fetch yields the next row, or null at the end with the error number telling how it ended. */
    ghost predicate Fetched(status: Wait, row: Option<Row>, before: Live)
      reads this`live, this`errno, this`error
    {
      && live.Some?
      && if !status.Zero() then live.value == before
         else if before.rows == [] then
           row.None? && live.value == before && errno == before.endCode && error == before.endMessage
         else
           && row == Some(before.rows[0])
           && live.value == before.(rows := before.rows[1..], fetched := before.fetched + 1)
    }

    method FetchResult(status: Wait) returns (row: Option<Row>)
      requires Valid() && live.Some?
      modifies this`live, this`errno, this`error
      ensures Valid() && Fetched(status, row, old(live.value))
    {
      row := None;
      if status.Zero() {
        if live.value.rows == [] {
          errno, error := live.value.endCode, live.value.endMessage;
        } else {
          row := Some(live.value.rows[0]);
          live := Some(live.value.(rows := live.value.rows[1..], fetched := live.value.fetched + 1));
        }
      }
    }

    method FreeResult()
      requires Valid() && live.Some?
      modifies this`live, this`freed
      ensures Valid() && live.None? && freed == old(freed) + 1
    {
      live, freed := None, freed + 1;
    }

    // ---- close ----

    method CloseStart() returns (status: Wait)
      requires Valid() && Pending(trace).None? && live.None?
      modifies this
      ensures Valid() && history == old(history) + [Request.Close] && live == old(live)
      ensures Pending(trace) == if status.Zero() then None else Some(OpClose)
      ensures status == LastStatus()
      ensures calls == old(calls) + 1
    {
      status := NextStatus();
      history := history + [Request.Close];
      RecordStart(OpClose, status);
    }

    method CloseCont() returns (status: Wait)
      requires Valid() && Pending(trace) == Some(OpClose) && activationCalls == 0
      modifies this
      ensures Valid() && history == old(history) && live == old(live)
      ensures Pending(trace) == if status.Zero() then None else Some(OpClose)
      ensures status == LastStatus()
      ensures calls == old(calls) + 1
    {
      status := NextStatus();
      RecordCont(OpClose, status);
    }

    /** The blocking close drops whatever is unfinished; a live result is never freed. */
    method BlockingClose()
      requires Valid()
      modifies this
      ensures Valid() && history == old(history) + [Request.Close] && live.None? && Pending(trace).None?
      ensures leaked == old(leaked) + (if old(live).Some? then 1 else 0)
    {
      history := history + [Request.Close];
      leaked := leaked + (if live.Some? then 1 else 0);
      live := None;
      DisciplinedSnoc(trace, Blocking(OpClose));
      trace := trace + [Blocking(OpClose)];
    }

    function AffectedRows(): int
      reads this
    {
      server.affected(history)
    }
  }
}

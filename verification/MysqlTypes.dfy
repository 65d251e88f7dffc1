/** The values that the callers, the client library and the connection engine exchange. */
module MysqlTypes {
  import opened Options

  /** `MysqlAsyncConnect::State`. */
  datatype State =
    | StateNone | ConnectInit | ConnectStart | ConnectWait | ConnectDone
    | ConnectionIdle
    | SelectDbStart | SelectDbWait | SelectDbDone
    | QueryStart | QueryWait | QueryResultReady
    | FetchRowStart | FetchRowWait | FetchRowResultReady
    | CloseStart | CloseWait | CloseDone
  {
    predicate Waiting() {
      ConnectWait? || SelectDbWait? || QueryWait? || FetchRowWait? || CloseWait?
    }

    /** The states in which a session is being served. */
    predicate Serving() {
      Selecting() || QueryStart? || QueryWait? || QueryResultReady? || Fetching()
    }

    predicate Selecting() {
      SelectDbStart? || SelectDbWait? || SelectDbDone?
    }

    predicate Fetching() {
      FetchRowStart? || FetchRowWait? || FetchRowResultReady?
    }

    /** The states from which a queued session can still be served without connecting again. */
    predicate Established() {
      ConnectionIdle? || Serving()
    }

    predicate Closing() {
      CloseStart? || CloseWait? || CloseDone?
    }
  }

  /** The wait bits a non-blocking call returns; all clear means that the call has completed. */
  datatype Wait = Wait(read: bool, write: bool, except: bool, timeout: bool) {
    predicate Zero() {
      !read && !write && !except && !timeout
    }

    /** Something will end the wait: the connection does not arm anything for the exception bit. */
    predicate Arms() {
      read || write || timeout
    }
  }

  /** One row as the library hands it out: a null cell is `None`. */
  type Row = seq<Option<string>>
  type TextRow = seq<string>

  /** What a caller asks of a session; `notify` says whether a completion callback was given. */
  datatype Job = Job(db: string, sql: string, notify: bool)

  /** What a caller reads off a session. */
  datatype Outcome = Outcome(
    code: int, message: string, headers: seq<string>, rows: seq<TextRow>, resultRows: int, affectedRows: int)

  datatype Done = Done(job: Job, outcome: Outcome)

  /** What a completion callback does to the connection. */
  datatype Reaction = Reaction(submits: seq<Job>, close: bool)

  /** The requests a server receives. `db` of a query is the database its session asked for: it is
      not transmitted, but kept here so that a history can be judged. */
  datatype Request = Connect(db: string) | SelectDb(db: string) | Query(sql: string, db: string) | Close

  datatype DbAnswer = DbAnswer(code: nat, message: string)

  datatype RawAnswer =
    | QueryFailed(code: nat, message: string)
    | NoResult(code: nat, message: string)
    | ResultSet(fields: seq<string>, rows: seq<Row>, endCode: nat, endMessage: string)

  /** The library's contract: a failed query has an error number. */
  type QueryAnswer = a: RawAnswer | a.QueryFailed? ==> a.code != 0 witness NoResult(0, "")

  /** A server: its answer to a request may depend on every request before it. */
  datatype Server = Server(
    connects: seq<Request> -> bool,
    selects: seq<Request> -> DbAnswer,
    queries: seq<Request> -> QueryAnswer,
    affected: seq<Request> -> int)

  const CR_UNKNOWN_ERROR := 2000
  const CR_SERVER_GONE_ERROR := 2006
  const CR_OUT_OF_MEMORY := 2008
  const CR_SERVER_LOST := 2013

  predicate IsFatalError(code: int) {
    code == CR_SERVER_LOST || code == CR_UNKNOWN_ERROR || code == CR_OUT_OF_MEMORY || code == CR_SERVER_GONE_ERROR
  }

  /** The library's 64-bit counters are kept in 32-bit signed fields. */
  function ToInt32(n: int): (r: int)
    ensures -0x8000_0000 <= r < 0x8000_0000 && (n - r) % 0x1_0000_0000 == 0
  {
    (n + 0x8000_0000) % 0x1_0000_0000 - 0x8000_0000
  }

  function CellText(cell: Option<string>): string {
    if cell.Some? then cell.value else "NULL"
  }

  function RowText(row: Row): TextRow {
    seq(|row|, i requires 0 <= i < |row| => CellText(row[i]))
  }

  function RowsText(rows: seq<Row>): seq<TextRow> {
    seq(|rows|, i requires 0 <= i < |rows| => RowText(rows[i]))
  }

  /** The database the server has selected after a history. A query does not change it, and neither does a
      connect that fails, be it for want of a server or because the handle is connected already. */
  function SelectedDb(server: Server, h: seq<Request>): string {
    if h == [] then "" else
    var before := SelectedDb(server, h[..|h| - 1]);
    match h[|h| - 1]
    case Connect(db) => if server.connects(h) then db else before
    case SelectDb(db) => if server.selects(h).code == 0 then db else before
    case Query(_, _) => before
    case Close => ""
  }

  /** Every query of the history ran in the database its session asked for. */
  ghost predicate WellTargeted(server: Server, h: seq<Request>) {
    forall i :: 0 <= i < |h| && h[i].Query? && h[i].db != "" ==> SelectedDb(server, h[..i]) == h[i].db
  }

  lemma WellTargetedSnoc(server: Server, h: seq<Request>, r: Request)
    ensures WellTargeted(server, h + [r]) <==>
            WellTargeted(server, h) && (r.Query? && r.db != "" ==> SelectedDb(server, h) == r.db)
  {
    var g := h + [r];
    assert forall i :: 0 <= i < |h| ==> g[i] == h[i] && g[..i] == h[..i];
    assert g[|h|] == r && g[..|h|] == h;
  }

  lemma SelectedDbSnoc(server: Server, h: seq<Request>, r: Request)
    ensures var g := h + [r];
            SelectedDb(server, g) ==
            match r
            case Connect(db) => if server.connects(g) then db else SelectedDb(server, h)
            case SelectDb(db) => if server.selects(g).code == 0 then db else SelectedDb(server, h)
            case Query(_, _) => SelectedDb(server, h)
            case Close => ""
  {
    var g := h + [r];
    assert g[..|g| - 1] == h;
  }
}

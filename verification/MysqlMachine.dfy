/** The connection's state machine on values: one step, what a step keeps, and what it leads to. */
module MysqlMachine {
  import opened Options
  import opened MysqlTypes
  import opened BlockingExecutor

  /** A live result: the rows still to come, how reading them ends, and how many were read. */
  datatype Live = Live(fields: seq<string>, rows: seq<Row>, endCode: nat, endMessage: string, fetched: nat)

  /** A connection between two steps. `parked` means that nothing will run it; `connected` is what
      the last finished connect returned; `row` is the row fetched last. */
  datatype Snap = Snap(
    state: State, world: World, parked: bool, connected: bool,
    job: Option<Job>, rows: seq<TextRow>, row: Option<Row>, live: Option<Live>)
  {
    /** A fetched row that is not yet in the session. */
    predicate Holding() {
      state.FetchRowResultReady? && row.Some?
    }

    predicate Ok() {
      Shaped(state, parked, job.Some?, rows, row, live)
    }
  }

  /** There is a current session exactly in the states that serve one, a live result exactly in those that
      fetch, and the rows fetched are those that the session has, or the one that it is about to get. */
  predicate Shaped(
    state: State, parked: bool, busy: bool, rows: seq<TextRow>, row: Option<Row>, live: Option<Live>)
  {
    && (state.StateNone? || state.ConnectInit? ==> parked)
    && (busy <==> state.Serving())
    && (live.Some? <==> state.Fetching())
    && (!state.Fetching() ==> rows == [])
    && (state.Fetching() ==>
          && live.value.fetched == |rows| + (if state.FetchRowResultReady? && row.Some? then 1 else 0)
          && (state.FetchRowResultReady? && row.None? ==> live.value.rows == []))
  }

  // ---------------------------------------------------------------- one step, state by state

  /** The request that a state sends, if it makes a `_start` call. */
  function Sends(c: Setting, s: Snap): Option<Request>
    requires s.state.SelectDbStart? || s.state.QueryStart? ==> s.job.Some?
  {
    match s.state
    case ConnectStart => Some(Request.Connect(c.dbname))
    case SelectDbStart => Some(Request.SelectDb(s.job.value.db))
    case QueryStart => if s.job.value.sql == "" then None else Some(Request.Query(s.job.value.sql, s.job.value.db))
    case CloseStart => Some(Request.Close)
    case _ => None
  }

  function Sent(c: Setting, s: Snap): (n: Snap)
    requires s.state.SelectDbStart? || s.state.QueryStart? ==> s.job.Some?
    ensures n == s.(world := n.world)
  {
    var r := Sends(c, s);
    if r.Some? then s.(world := s.world.Send(r.value)) else s
  }

  /** The current session completes and the machine moves on. */
  function Completed(c: Setting, s: Snap, outcome: Outcome, next: State): (n: Snap)
    requires s.job.Some? && (next.ConnectionIdle? || next.CloseStart?)
    ensures n.Ok()
  {
    s.(state := next, world := Complete(c, s.world, s.job.value, outcome), job := None, rows := [], live := None)
  }

  function Failed(c: Setting, s: Snap, code: int, message: string): (n: Snap)
    requires s.job.Some?
    ensures n.Ok()
  {
    Completed(c, s, Plain(code, message, Affected(c, s.world)),
              if IsFatalError(code) then CloseStart else ConnectionIdle)
  }

  function ConnectProgress(c: Setting, s: Snap, waited: bool): (n: Snap)
    ensures s.job.None? && s.live.None? && s.rows == [] ==> n.Ok()
  {
    if waited then s.(state := ConnectWait)
    else s.(state := ConnectDone, connected := c.server.connects(s.world.history))
  }

  function ConnectEnd(c: Setting, s: Snap): (n: Snap)
    requires s.job.None? && s.live.None? && s.rows == []
    ensures n.Ok()
  {
    if s.connected then s.(state := ConnectionIdle, world := s.world.(cache := c.dbname))
    else s.(state := CloseStart)
  }

  function SelectProgress(c: Setting, s: Snap, waited: bool): (n: Snap)
    requires s.job.Some? && s.live.None? && s.rows == []
    ensures n.Ok()
  {
    var a := c.server.selects(s.world.history);
    if waited then s.(state := SelectDbWait)
    else if a.code != 0 then Failed(c, s, a.code, a.message)
    else s.(state := SelectDbDone)
  }

  function SelectDone(c: Setting, s: Snap): (n: Snap)
    requires s.job.Some? && s.live.None? && s.rows == []
    ensures n.Ok()
  {
    var s := s.(world := s.world.(cache := s.job.value.db));
    if s.job.value.sql == "" then Completed(c, s, Plain(0, "", Affected(c, s.world)), ConnectionIdle)
    else s.(state := QueryStart)
  }

  /** An error that is known when the query call returns is taken at once; one that a wait delayed is
      found at `QUERY_RESULT_READY`. */
  function QueryProgress(c: Setting, s: Snap, waited: bool): (n: Snap)
    requires s.job.Some? && s.live.None? && s.rows == []
    ensures n.Ok()
  {
    var a := c.server.queries(s.world.history);
    if waited then s.(state := QueryWait)
    else if a.QueryFailed? then Failed(c, s, a.code, a.message)
    else s.(state := QueryResultReady)
  }

  function QueryBegin(c: Setting, s: Snap, waited: bool): (n: Snap)
    requires s.job.Some? && s.live.None? && s.rows == []
    ensures n.Ok()
  {
    if s.job.value.sql == "" then
      Completed(c, s, Plain(-9999, "empty query", Affected(c, s.world)), ConnectionIdle)
    else
      QueryProgress(c, Sent(c, s), waited)
  }

  function QueryResult(c: Setting, s: Snap): (n: Snap)
    requires s.job.Some? && s.live.None? && s.rows == []
    ensures n.Ok()
  {
    match c.server.queries(s.world.history)
    case ResultSet(fields, rows, code, message) =>
      s.(state := FetchRowStart, live := Some(Live(fields, rows, code, message, 0)))
    case QueryFailed(code, message) => Failed(c, s, code, message)
    case NoResult(code, message) => Failed(c, s, code, message)
  }

  function FetchProgress(s: Snap, waited: bool): (n: Snap)
    requires s.job.Some? && s.live.Some? && s.live.value.fetched == |s.rows|
    ensures n.Ok()
  {
    var l := s.live.value;
    if waited then s.(state := FetchRowWait)
    else if l.rows == [] then s.(state := FetchRowResultReady, row := None)
    else s.(state := FetchRowResultReady, row := Some(l.rows[0]),
            live := Some(l.(rows := l.rows[1..], fetched := l.fetched + 1)))
  }

  /** The error number at the end of a result does not close the connection, fatal or not. */
  function RowReady(c: Setting, s: Snap): (n: Snap)
    requires s.Ok() && s.state.FetchRowResultReady?
    ensures n.Ok()
  {
    var l := s.live.value;
    if s.row.None? then
      Completed(c, s, Collected(l.fields, s.rows, l.endCode, l.endMessage, Affected(c, s.world)), ConnectionIdle)
    else
      s.(state := FetchRowStart, rows := s.rows + [RowText(s.row.value)])
  }

  function Idle(s: Snap): (n: Snap)
    requires s.Ok() && s.state.ConnectionIdle?
    ensures n.Ok()
  {
    if s.world.queue == [] then
      if s.world.closing then s.(state := CloseStart) else s
    else
      var job := s.world.queue[0];
      s.(world := s.world.(queue := s.world.queue[1..]), job := Some(job),
         state := if NeedsSelect(s.world.cache, job) then SelectDbStart else QueryStart)
  }

  function CloseProgress(s: Snap, waited: bool): (n: Snap)
    ensures s.job.None? && s.live.None? && s.rows == [] ==> n.Ok()
  {
    s.(state := if waited then CloseWait else CloseDone)
  }

  function CloseEnd(c: Setting, s: Snap): (n: Snap)
    requires s.job.None? && s.live.None? && s.rows == []
    ensures n.Ok()
  {
    s.(state := ConnectDone, world := Drain(c, s.world), parked := true)
  }

  function NextConnect(c: Setting, s: Snap, waited: bool): (n: Snap)
    requires s.Ok() && !s.state.Serving()
    ensures n.Ok()
  {
    match s.state
    case ConnectStart | ConnectWait => ConnectProgress(c, Sent(c, s), waited)
    case ConnectDone => ConnectEnd(c, s)
    case CloseStart | CloseWait => CloseProgress(Sent(c, s), waited)
    case CloseDone => CloseEnd(c, s)
    case _ => s
  }

  function NextSelectDb(c: Setting, s: Snap, waited: bool): (n: Snap)
    requires s.Ok() && s.state.Serving() && !s.state.Fetching()
    ensures n.Ok()
  {
    if s.state.SelectDbDone? then SelectDone(c, s) else SelectProgress(c, Sent(c, s), waited)
  }

  function NextQuery(c: Setting, s: Snap, waited: bool): (n: Snap)
    requires s.Ok() && s.state.Serving() && !s.state.Fetching()
    ensures n.Ok()
  {
    if s.state.QueryStart? then QueryBegin(c, s, waited)
    else if s.state.QueryWait? then s.(state := if waited then QueryWait else QueryResultReady)
    else QueryResult(c, s)
  }

  function NextFetchRow(c: Setting, s: Snap, waited: bool): (n: Snap)
    requires s.Ok() && s.state.Fetching()
    ensures n.Ok()
  {
    if s.state.FetchRowResultReady? then RowReady(c, s) else FetchProgress(s, waited)
  }

  function NextServing(c: Setting, s: Snap, waited: bool): (n: Snap)
    requires s.Ok() && s.state.Serving()
    ensures n.Ok()
  {
    if s.state.Fetching() then NextFetchRow(c, s, waited)
    else if s.state.Selecting() then NextSelectDb(c, s, waited)
    else NextQuery(c, s, waited)
  }

  /** One turn of the loop in `HandleState`; `waited` says whether the library call it makes, if any,
      returns with something to wait for. */
  function Next(c: Setting, s: Snap, waited: bool): (n: Snap)
    requires s.Ok()
    ensures n.Ok()
  {
    if s.state.ConnectionIdle? then Idle(s)
    else if s.state.Serving() then NextServing(c, s, waited)
    else NextConnect(c, s, waited)
  }

  // ---------------------------------------------------------------- where it leads

  /** The rows of the current session once its result has been read to the end. */
  function AllRows(s: Snap): seq<TextRow>
    requires s.live.Some?
  {
    s.rows + (if s.Holding() then [RowText(s.row.value)] else []) + RowsText(s.live.value.rows)
  }

  /** How serving the current session will end. */
  function ServedFrom(c: Setting, s: Snap): Served
    requires s.Ok() && s.state.Serving()
  {
    var job := s.job.value;
    match s.state
    case SelectDbStart => SelectAnswered(c, s.world.Send(Request.SelectDb(job.db)), job)
    case SelectDbWait => SelectAnswered(c, s.world, job)
    case SelectDbDone => DbSelected(c, s.world, job)
    case QueryStart => RunQuery(c, s.world, job)
    case QueryWait | QueryResultReady => QueryAnswered(c, s.world, job)
    case FetchRowStart | FetchRowWait | FetchRowResultReady =>
      var l := s.live.value;
      var outcome := Collected(l.fields, AllRows(s), l.endCode, l.endMessage, Affected(c, s.world));
      Served(Complete(c, s.world, job, outcome), false)
  }

  /** Everything that will have happened once the connection has served what it was given. */
  function Future(c: Setting, s: Snap): Final
    requires s.Ok()
  {
    if s.parked then Final(s.world, false)
    else if s.state.Serving() then Continue(c, ServedFrom(c, s))
    else match s.state
      case ConnectStart =>
        var w := s.world.Send(Request.Connect(c.dbname));
        Connected(c, w, c.server.connects(w.history))
      case ConnectWait => Connected(c, s.world, c.server.connects(s.world.history))
      case ConnectDone => Connected(c, s.world, s.connected)
      case ConnectionIdle => RunAll(c, s.world)
      case CloseStart => CloseAll(c, s.world)
      case CloseWait | CloseDone => Final(Drain(c, s.world), false)
      case _ => Final(s.world, false)
  }

  /** A step within a session: either the session will still end the same way, or it has ended so. */
  ghost predicate Faithful(c: Setting, s: Snap, n: Snap)
    requires s.Ok() && s.state.Serving() && n.Ok()
  {
    && n.parked == s.parked
    && if n.state.Serving() then ServedFrom(c, n) == ServedFrom(c, s)
       else
         && n.state == (if ServedFrom(c, s).fatal then CloseStart else ConnectionIdle)
         && n.world == ServedFrom(c, s).world
  }

  lemma SelectFaithful(c: Setting, s: Snap, waited: bool)
    requires s.Ok() && s.state.SelectDbStart?
    ensures Faithful(c, s, Next(c, s, waited))
  {
  }

  lemma SelectWaitFaithful(c: Setting, s: Snap, waited: bool)
    requires s.Ok() && s.state.SelectDbWait?
    ensures Faithful(c, s, Next(c, s, waited))
  {
  }

  lemma SelectDoneFaithful(c: Setting, s: Snap, waited: bool)
    requires s.Ok() && s.state.SelectDbDone?
    ensures Faithful(c, s, Next(c, s, waited))
  {
  }

  lemma QueryFaithful(c: Setting, s: Snap, waited: bool)
    requires s.Ok() && s.state.QueryStart?
    ensures Faithful(c, s, Next(c, s, waited))
  {
  }

  lemma QueryWaitFaithful(c: Setting, s: Snap, waited: bool)
    requires s.Ok() && s.state.QueryWait?
    ensures Faithful(c, s, Next(c, s, waited))
  {
  }

  lemma ResultFaithful(c: Setting, s: Snap, waited: bool)
    requires s.Ok() && s.state.QueryResultReady?
    ensures Faithful(c, s, Next(c, s, waited))
  {
    var a := c.server.queries(s.world.history);
    if a.ResultSet? {
      assert AllRows(Next(c, s, waited)) == RowsText(a.rows);
    }
  }

  lemma FetchKeepsRows(s: Snap, waited: bool)
    requires s.Ok() && (s.state.FetchRowStart? || s.state.FetchRowWait?)
    ensures AllRows(FetchProgress(s, waited)) == AllRows(s)
  {
    var l := s.live.value;
    if !waited && l.rows != [] {
      assert RowsText(l.rows) == [RowText(l.rows[0])] + RowsText(l.rows[1..]);
    }
  }

  lemma FetchFaithful(c: Setting, s: Snap, waited: bool)
    requires s.Ok() && (s.state.FetchRowStart? || s.state.FetchRowWait?)
    ensures Faithful(c, s, Next(c, s, waited))
  {
    FetchKeepsRows(s, waited);
  }

  lemma RowFaithful(c: Setting, s: Snap, waited: bool)
    requires s.Ok() && s.state.FetchRowResultReady?
    ensures Faithful(c, s, Next(c, s, waited))
  {
    if s.row.Some? {
      assert AllRows(Next(c, s, waited)) == AllRows(s);
    } else {
      assert AllRows(s) == s.rows;
    }
  }

  lemma ServingFaithful(c: Setting, s: Snap, waited: bool)
    requires s.Ok() && s.state.Serving()
    ensures Faithful(c, s, Next(c, s, waited))
  {
    match s.state {
      case SelectDbStart => SelectFaithful(c, s, waited);
      case SelectDbWait => SelectWaitFaithful(c, s, waited);
      case SelectDbDone => SelectDoneFaithful(c, s, waited);
      case QueryStart => QueryFaithful(c, s, waited);
      case QueryWait => QueryWaitFaithful(c, s, waited);
      case QueryResultReady => ResultFaithful(c, s, waited);
      case FetchRowStart | FetchRowWait => FetchFaithful(c, s, waited);
      case FetchRowResultReady => RowFaithful(c, s, waited);
    }
  }

  lemma IdleKeepsFuture(c: Setting, s: Snap)
    requires s.Ok() && !s.parked && s.state.ConnectionIdle?
    ensures Future(c, Idle(s)) == Future(c, s)
  {
  }

  lemma ConnectKeepsFuture(c: Setting, s: Snap, waited: bool)
    requires s.Ok() && !s.parked && (s.state.ConnectStart? || s.state.ConnectWait? || s.state.ConnectDone?)
    ensures Future(c, Next(c, s, waited)) == Future(c, s)
  {
  }

  lemma CloseKeepsFuture(c: Setting, s: Snap, waited: bool)
    requires s.Ok() && !s.parked && s.state.Closing()
    ensures Future(c, Next(c, s, waited)) == Future(c, s)
  {
  }

  lemma ServingKeepsFuture(c: Setting, s: Snap, waited: bool)
    requires s.Ok() && !s.parked && s.state.Serving()
    ensures Future(c, Next(c, s, waited)) == Future(c, s)
  {
    ServingFaithful(c, s, waited);
  }

  /** No step changes where the connection is heading, whether or not its library call had to wait. */
  lemma NextKeepsFuture(c: Setting, s: Snap, waited: bool)
    requires s.Ok() && !s.parked
    ensures Future(c, Next(c, s, waited)) == Future(c, s)
  {
    if s.state.Serving() {
      ServingKeepsFuture(c, s, waited);
    } else if s.state.ConnectionIdle? {
      IdleKeepsFuture(c, s);
    } else if s.state.Closing() {
      CloseKeepsFuture(c, s, waited);
    } else {
      ConnectKeepsFuture(c, s, waited);
    }
  }
}

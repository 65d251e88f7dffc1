/** What serving a session comes to, written out in terms of the session and the server's answers alone. */
module ServeMeaning {
  import opened Options
  import opened MysqlTypes
  import opened BlockingExecutor
  import opened ExecutorLaws

  // ---------------------------------------------------------------- values

  lemma RowTextExactly(row: Row)
    ensures var text := RowText(row);
            && |text| == |row|
            && forall i :: 0 <= i < |row| ==>
                 && (row[i].Some? ==> text[i] == row[i].value)
                 && (row[i].None? ==> text[i] == "NULL")
  {
  }

  /** The text of all the rows, cell by cell; a null cell reads NULL. */
  ghost predicate TextsOf(texts: seq<TextRow>, rows: seq<Row>) {
    && |texts| == |rows|
    && (forall r :: 0 <= r < |rows| ==> |texts[r]| == |rows[r]|)
    && (forall r, i :: 0 <= r < |rows| && 0 <= i < |rows[r]| ==>
          && (rows[r][i].Some? ==> texts[r][i] == rows[r][i].value)
          && (rows[r][i].None? ==> texts[r][i] == "NULL"))
  }

  /** A library count as a signed 32-bit field shows it. */
  predicate Shows(field: int, count: int) {
    -0x8000_0000 <= field < 0x8000_0000 && (count - field) % 0x1_0000_0000 == 0
  }

  /** The errors after which the connection is given up. */
  predicate Fatal(code: int) {
    code == 2000 || code == 2006 || code == 2008 || code == 2013
  }

  // ---------------------------------------------------------------- requests

  /** The session's database is asked for exactly if it names one and the cache does not name it already. */
  predicate Selects(w: World, job: Job) {
    !(job.db == "" || job.db == w.cache)
  }

  predicate SelectRefused(c: Setting, w: World, job: Job) {
    Selects(w, job) && c.server.selects(w.history + [Request.SelectDb(job.db)]).code != 0
  }

  /** The text is sent unless it is empty or the database was refused. */
  predicate Queries(c: Setting, w: World, job: Job) {
    job.sql != "" && !SelectRefused(c, w, job)
  }

  /** The requests that a session sends are these, in this order, and no others; the cache then names the
      database that was selected for it. */
  lemma RequestsExactly(c: Setting, w: World, job: Job)
    ensures var n := Serve(c, w, job).world;
            && n.history == w.history
                            + (if Selects(w, job) then [Request.SelectDb(job.db)] else [])
                            + (if Queries(c, w, job) then [Request.Query(job.sql, job.db)] else [])
            && n.cache == (if Selects(w, job) && !SelectRefused(c, w, job) then job.db else w.cache)
  {
    var asked := w.Send(SelectDb(job.db));
    if Selects(w, job) {
      assert Serve(c, w, job) == SelectAnswered(c, asked, job);
    } else {
      assert Serve(c, w, job) == RunQuery(c, w, job);
    }
  }

  /** A session that names no database, or the cached one, sends its text and nothing else. */
  lemma NoNeedlessSelect(c: Setting, w: World, job: Job)
    requires job.db == "" || job.db == w.cache
    ensures Serve(c, w, job).world.history ==
            w.history + (if job.sql == "" then [] else [Request.Query(job.sql, job.db)])
  {
    RequestsExactly(c, w, job);
  }

  // ---------------------------------------------------------------- outcomes

  /** An outcome without rows; a message is kept only with an error code. */
  predicate Bare(o: Outcome, code: int, message: string) {
    && o.code == code && o.message == (if code != 0 then message else "")
    && o.headers == [] && o.rows == [] && o.resultRows == 0
  }

  /** The outcome of a session, by what the server answered to its last request. */
  ghost predicate Tells(c: Setting, w: World, job: Job, h: seq<Request>, o: Outcome) {
    if SelectRefused(c, w, job) then
      var a := c.server.selects(h);
      Bare(o, a.code, a.message)
    else if job.sql == "" then
      if Selects(w, job) then Bare(o, 0, "") else Bare(o, -9999, "empty query")
    else
      match c.server.queries(h)
      case QueryFailed(code, message) => Bare(o, code, message)
      case NoResult(code, message) => Bare(o, code, message)
      case ResultSet(fields, rows, code, message) =>
        && o.code == code && o.message == (if code != 0 then message else "")
        && o.headers == (if rows == [] then [] else fields)
        && TextsOf(o.rows, rows) && Shows(o.resultRows, |rows|)
  }

  lemma CompleteTells(c: Setting, w: World, job: Job, o: Outcome)
    ensures var n := Complete(c, w, job, o); n.log == w.log + [Done(job, o)] && n.history == w.history
  {
  }

  lemma AnswerTells(c: Setting, w: World, job: Job)
    ensures var n := QueryAnswered(c, w, job).world;
            && |n.log| == |w.log| + 1 && n.history == w.history
            && var o := n.log[|w.log|].outcome;
               && Shows(o.affectedRows, c.server.affected(n.history))
               && match c.server.queries(w.history)
                  case QueryFailed(code, message) => Bare(o, code, message)
                  case NoResult(code, message) => Bare(o, code, message)
                  case ResultSet(fields, rows, code, message) =>
                    && o.code == code && o.message == (if code != 0 then message else "")
                    && o.headers == (if rows == [] then [] else fields)
                    && TextsOf(o.rows, rows) && Shows(o.resultRows, |rows|)
  {
  }

  lemma RunQueryTells(c: Setting, w: World, v: World, job: Job)
    requires !SelectRefused(c, w, job) && v.log == w.log && (job.sql != "" || !Selects(w, job))
    ensures var n := RunQuery(c, v, job).world;
            && |n.log| == |w.log| + 1 && w.log <= n.log && n.log[|w.log|].job == job
            && Tells(c, w, job, n.history, n.log[|w.log|].outcome)
            && Shows(n.log[|w.log|].outcome.affectedRows, c.server.affected(n.history))
  {
    if job.sql != "" {
      AnswerTells(c, v.Send(Query(job.sql, job.db)), job);
    }
  }

  lemma SelectTells(c: Setting, w: World, job: Job)
    requires Selects(w, job)
    ensures var n := Serve(c, w, job).world;
            && |n.log| == |w.log| + 1 && w.log <= n.log && n.log[|w.log|].job == job
            && Tells(c, w, job, n.history, n.log[|w.log|].outcome)
            && Shows(n.log[|w.log|].outcome.affectedRows, c.server.affected(n.history))
  {
    var v := w.Send(SelectDb(job.db)).(cache := job.db);
    if !SelectRefused(c, w, job) && job.sql != "" {
      RunQueryTells(c, w, v, job);
    }
  }

  /** Every session is told, once, exactly what the server answered: code, message, headers, every row in order
      and cell by cell, and both counts. */
  lemma OutcomeExactly(c: Setting, w: World, job: Job)
    ensures var n := Serve(c, w, job).world;
            && |n.log| == |w.log| + 1 && w.log <= n.log && n.log[|w.log|].job == job
            && Tells(c, w, job, n.history, n.log[|w.log|].outcome)
            && Shows(n.log[|w.log|].outcome.affectedRows, c.server.affected(n.history))
  {
    if Selects(w, job) {
      SelectTells(c, w, job);
    } else {
      RunQueryTells(c, w, w, job);
    }
  }

  /** The connection is lost if and only if the session's code is 2000, 2006, 2008 or 2013 and no result set was
      read for it. */
  lemma LostExactly(c: Setting, w: World, job: Job)
    ensures var r := Serve(c, w, job);
            && |r.world.log| == |w.log| + 1
            && (r.fatal <==>
                  && Fatal(r.world.log[|w.log|].outcome.code)
                  && !(Queries(c, w, job) && c.server.queries(r.world.history).ResultSet?))
  {
    RequestsExactly(c, w, job);
    OutcomeExactly(c, w, job);
    FatalExactly(c, w, job);
  }

  // ---------------------------------------------------------------- callbacks

  /** What a completion does to the queue: nothing without a callback; with one, the callback sees the log with
      this completion in it, and its submissions join the end of the queue, as many as are still allowed. */
  lemma CallbackExactly(c: Setting, w: World, job: Job, o: Outcome)
    ensures var n := Complete(c, w, job, o);
            && n.log == w.log + [Done(job, o)] && n.history == w.history && n.cache == w.cache
            && if !job.notify then n.queue == w.queue && n.budget == w.budget && n.closing == w.closing
               else
                 var r := c.react(w.log + [Done(job, o)]);
                 && w.queue <= n.queue && n.queue[|w.queue|..] <= r.submits
                 && (n.queue[|w.queue|..] == r.submits || n.budget == 0)
                 && n.budget == w.budget - (|n.queue| - |w.queue|)
                 && n.closing == (w.closing || r.close)
  {
    if job.notify {
      var r := c.react(w.log + [Done(job, o)]);
      assert (w.queue + Allowed(r, w.budget))[|w.queue|..] == Allowed(r, w.budget);
    }
  }

  // ---------------------------------------------------------------- the end of the connection

  /** One "closed" for everybody in the queue, and for everybody their callbacks add. */
  lemma ClosedExactly(c: Setting, w: World)
    ensures var n := CloseAll(c, w).world;
            && n.history == w.history + [Request.Close] && n.queue == [] && w.log <= n.log
            && (forall i :: |w.log| <= i < |n.log| ==> n.log[i].outcome == Outcome(-1, "closed", [], [], 0, 0))
            && CompletesInOrder(n.log, |w.log|, w.queue)
  {
    DrainTellsClosed(c, w.Send(Close));
    DrainLogs(c, w.Send(Close));
    DrainSendsNothing(c, w.Send(Close));
  }

  lemma {:induction false} DrainSendsNothing(c: Setting, w: World)
    ensures Drain(c, w).history == w.history
    decreases w.budget + |w.queue|
  {
    if w.queue != [] {
      DrainSendsNothing(c, Complete(c, w.(queue := w.queue[1..]), w.queue[0], CLOSED));
    }
  }

  /** From w to f: open with nothing left to do, or closed by one request, the last. */
  ghost predicate Ends(w: World, f: Final) {
    && w.history <= f.world.history && f.world.queue == []
    && if f.open then !f.world.closing && ClosesIn(f.world.history, |w.history|) == 0
       else
         && |f.world.history| > |w.history| && f.world.history[|f.world.history| - 1] == Request.Close
         && ClosesIn(f.world.history, |w.history|) == 1
  }

  ghost predicate SendsNoClose(w: World, v: World) {
    w.history <= v.history && forall i :: |w.history| <= i < |v.history| ==> v.history[i] != Request.Close
  }

  lemma ServeSendsNoClose(c: Setting, w: World, job: Job)
    ensures SendsNoClose(w, Serve(c, w, job).world)
  {
    RequestsExactly(c, w, job);
  }

  lemma EndsLater(w: World, v: World, f: Final)
    requires SendsNoClose(w, v) && Ends(v, f)
    ensures Ends(w, f)
  {
    SkipNoClose(f.world.history, |w.history|, |v.history|);
  }

  lemma CloseEnds(c: Setting, w: World)
    ensures Ends(w, CloseAll(c, w))
  {
    ClosedExactly(c, w);
    NoCloses(w.history);
  }

  /** Serving a queue leaves the connection open with nothing to do and no close asked for, or ends with one close
      request, the last that is sent. */
  lemma {:induction false} OpenExactly(c: Setting, w: World)
    ensures Ends(w, RunAll(c, w))
    decreases w.budget + |w.queue|
  {
    if w.queue == [] {
      CloseEnds(c, w);
      NoCloses(w.history);
    } else {
      var r := Serve(c, w.(queue := w.queue[1..]), w.queue[0]);
      ServeSendsNoClose(c, w.(queue := w.queue[1..]), w.queue[0]);
      if r.fatal {
        CloseEnds(c, r.world);
      } else {
        OpenExactly(c, r.world);
      }
      EndsLater(w, r.world, Continue(c, r));
    }
  }

  /** How many close requests a history holds from a place on. */
  function ClosesIn(h: seq<Request>, from: nat): nat
    requires from <= |h|
    decreases |h| - from
  {
    if from == |h| then 0 else (if h[from] == Request.Close then 1 else 0) + ClosesIn(h, from + 1)
  }

  lemma NoCloses(h: seq<Request>)
    ensures ClosesIn(h, |h|) == 0 && ClosesIn(h + [Request.Close], |h|) == 1
  {
    assert (h + [Request.Close])[|h|] == Request.Close;
    assert ClosesIn(h + [Request.Close], |h| + 1) == 0;
  }

  lemma {:induction false} SkipNoClose(h: seq<Request>, from: nat, to: nat)
    requires from <= to <= |h| && forall i :: from <= i < to ==> h[i] != Request.Close
    ensures ClosesIn(h, from) == ClosesIn(h, to)
    decreases |h| - from
  {
    if from < to {
      SkipNoClose(h, from + 1, to);
    }
  }

  /** The session at the front of the queue lost the connection. */
  ghost predicate FrontLoses(c: Setting, w: World)
    requires w.queue != []
  {
    var job := w.queue[0];
    var n := Serve(c, w.(queue := w.queue[1..]), job).world;
    && |n.log| > |w.log| && Fatal(n.log[|w.log|].outcome.code)
    && !(Queries(c, w, job) && c.server.queries(n.history).ResultSet?)
  }

  /** When the front session loses the connection, one close request follows and everybody else is told "closed";
      otherwise the rest of the queue is served from where that session left the connection. */
  lemma FrontDecides(c: Setting, w: World)
    requires w.queue != []
    ensures var n := Serve(c, w.(queue := w.queue[1..]), w.queue[0]).world;
            var f := RunAll(c, w);
            if FrontLoses(c, w) then
              && !f.open && f.world.history == n.history + [Request.Close] && n.log <= f.world.log
              && (forall i :: |w.log| < i < |f.world.log| ==>
                    f.world.log[i].outcome == Outcome(-1, "closed", [], [], 0, 0))
            else
              f == RunAll(c, n)
  {
    var rest := w.(queue := w.queue[1..]);
    var r := Serve(c, rest, w.queue[0]);
    LostExactly(c, rest, w.queue[0]);
    assert RunAll(c, w) == Continue(c, r);
    if r.fatal {
      ClosedExactly(c, r.world);
    }
  }

  /** Nothing queued: the connection is kept, or closed if that was asked for. */
  lemma EmptyDecides(c: Setting, w: World)
    requires w.queue == []
    ensures var f := RunAll(c, w);
            && f.open == !w.closing
            && f.world == (if w.closing then w.(history := w.history + [Request.Close]) else w)
  {
  }

  /** A connect that succeeds serves the queue with the configured database in the cache; one that fails tells
      everybody "closed". */
  lemma ConnectExactly(c: Setting, w: World, success: bool)
    ensures var f := Connected(c, w, success);
            if success then f == RunAll(c, World(w.history, c.dbname, w.log, w.queue, w.budget, w.closing))
            else
              && !f.open && f.world.history == w.history + [Request.Close] && f.world.cache == w.cache
              && (forall i :: |w.log| <= i < |f.world.log| ==>
                    f.world.log[i].outcome == Outcome(-1, "closed", [], [], 0, 0))
  {
    ClosedExactly(c, w);
    DrainKeepsCache(c, w.Send(Close));
  }

  lemma {:induction false} DrainKeepsCache(c: Setting, w: World)
    ensures Drain(c, w).cache == w.cache
    decreases w.budget + |w.queue|
  {
    if w.queue != [] {
      DrainKeepsCache(c, Complete(c, w.(queue := w.queue[1..]), w.queue[0], CLOSED));
    }
  }
}

/** The reference: a client that serves one session after the other with blocking calls. */
module BlockingExecutor {
  import opened MysqlTypes

  /** The server, the configured database and the client's callbacks: a callback may look at
      everything completed so far. */
  datatype Setting = Setting(server: Server, dbname: string, react: seq<Done> -> Reaction)

  /** `budget` bounds the submissions that callbacks still make. */
  datatype World = World(
    history: seq<Request>, cache: string, log: seq<Done>, queue: seq<Job>, budget: nat, closing: bool)
  {
    function Send(r: Request): World {
      this.(history := history + [r])
    }
  }

  /** Where serving everything ends: still connected, or closed. */
  datatype Final = Final(world: World, open: bool)

  datatype Served = Served(world: World, fatal: bool)

  function Affected(c: Setting, w: World): int {
    ToInt32(c.server.affected(w.history))
  }

  function Plain(code: int, message: string, affected: int): Outcome {
    Outcome(code, if code != 0 then message else "", [], [], 0, affected)
  }

  /** A result set that was read to its end; the headers are known once a row has been seen. */
  function Collected(fields: seq<string>, rows: seq<TextRow>, code: int, message: string, affected: int): Outcome {
    Outcome(code, if code != 0 then message else "", if rows == [] then [] else fields, rows, ToInt32(|rows|), affected)
  }

  const CLOSED := Outcome(-1, "closed", [], [], 0, 0)

  /** A session keeps whatever rows it has when it is told "closed". */
  function ToldClosed(v: Outcome): Outcome {
    v.(code := -1, message := "closed")
  }

  function Min(a: nat, b: nat): nat {
    if a < b then a else b
  }

  /** The part of a reaction that the remaining submissions allow. */
  function Allowed(r: Reaction, budget: nat): seq<Job> {
    r.submits[..Min(|r.submits|, budget)]
  }

  /** A session completes and its callback, if it has one, reacts. */
  function Complete(c: Setting, w: World, job: Job, outcome: Outcome): (r: World)
    ensures r.budget + |r.queue| == w.budget + |w.queue|
    ensures r.history == w.history && r.cache == w.cache
    ensures r.log == w.log + [Done(job, outcome)] && w.queue <= r.queue
  {
    var log := w.log + [Done(job, outcome)];
    if !job.notify then w.(log := log) else
    var reaction := c.react(log);
    var more := Allowed(reaction, w.budget);
    w.(log := log, queue := w.queue + more, budget := w.budget - |more|, closing := w.closing || reaction.close)
  }

  function QueryAnswered(c: Setting, w: World, job: Job): (r: Served)
    ensures r.world.budget + |r.world.queue| == w.budget + |w.queue|
  {
    match c.server.queries(w.history)
    case QueryFailed(code, message) =>
      Served(Complete(c, w, job, Plain(code, message, Affected(c, w))), IsFatalError(code))
    case NoResult(code, message) =>
      Served(Complete(c, w, job, Plain(code, message, Affected(c, w))), IsFatalError(code))
    case ResultSet(fields, rows, code, message) =>
      Served(Complete(c, w, job, Collected(fields, RowsText(rows), code, message, Affected(c, w))), false)
  }

  function RunQuery(c: Setting, w: World, job: Job): (r: Served)
    ensures r.world.budget + |r.world.queue| == w.budget + |w.queue|
  {
    if job.sql == "" then
      Served(Complete(c, w, job, Plain(-9999, "empty query", Affected(c, w))), false)
    else
      QueryAnswered(c, w.Send(Query(job.sql, job.db)), job)
  }

  function DbSelected(c: Setting, w: World, job: Job): (r: Served)
    ensures r.world.budget + |r.world.queue| == w.budget + |w.queue|
  {
    var w := w.(cache := job.db);
    if job.sql == "" then
      Served(Complete(c, w, job, Plain(0, "", Affected(c, w))), false)
    else
      RunQuery(c, w, job)
  }

  function SelectAnswered(c: Setting, w: World, job: Job): (r: Served)
    ensures r.world.budget + |r.world.queue| == w.budget + |w.queue|
  {
    var a := c.server.selects(w.history);
    if a.code != 0 then
      Served(Complete(c, w, job, Plain(a.code, a.message, Affected(c, w))), IsFatalError(a.code))
    else
      DbSelected(c, w, job)
  }

  predicate NeedsSelect(cache: string, job: Job) {
    job.db != "" && job.db != cache
  }

  /** Serve one session from start to completion. */
  function Serve(c: Setting, w: World, job: Job): (r: Served)
    ensures r.world.budget + |r.world.queue| == w.budget + |w.queue|
  {
    if NeedsSelect(w.cache, job) then
      SelectAnswered(c, w.Send(SelectDb(job.db)), job)
    else
      RunQuery(c, w, job)
  }

  /** Complete whatever is queued, and whatever is queued meanwhile, as closed. */
  function Drain(c: Setting, w: World): World
    decreases w.budget + |w.queue|
  {
    if w.queue == [] then w
    else Drain(c, Complete(c, w.(queue := w.queue[1..]), w.queue[0], CLOSED))
  }

  function CloseAll(c: Setting, w: World): Final {
    Final(Drain(c, w.Send(Close)), false)
  }

  /** Serve the queue in order until it is empty or the connection is lost. */
  function RunAll(c: Setting, w: World): Final
    decreases w.budget + |w.queue|
  {
    if w.queue == [] then
      if w.closing then CloseAll(c, w) else Final(w, true)
    else
      var served := Serve(c, w.(queue := w.queue[1..]), w.queue[0]);
      if served.fatal then CloseAll(c, served.world) else RunAll(c, served.world)
  }

  function Continue(c: Setting, served: Served): Final {
    if served.fatal then CloseAll(c, served.world) else RunAll(c, served.world)
  }

  function Connected(c: Setting, w: World, success: bool): Final {
    if success then RunAll(c, w.(cache := c.dbname)) else CloseAll(c, w)
  }
}

/** The cached database name and the database the server has selected. */
module MysqlDatabase {
  import opened MysqlTypes
  import opened BlockingExecutor
  import opened MysqlMachine
  import opened MysqlRuns

  /** The cache names nothing, or the selected database. */
  ghost predicate CacheOk(c: Setting, cache: string, h: seq<Request>) {
    cache != "" ==> SelectedDb(c.server, h) == cache
  }

  /** What the state says about the database beyond the history. */
  ghost predicate Tracks(c: Setting, s: Snap)
    requires s.Ok()
  {
    var h := s.world.history;
    var cache := s.world.cache;
    s.parked ||
    match s.state
    case QueryStart => CacheOk(c, cache, h) && (s.job.value.db != "" ==> SelectedDb(c.server, h) == s.job.value.db)
    case SelectDbWait => |h| > 0 && h[|h| - 1] == Request.SelectDb(s.job.value.db) && CacheOk(c, cache, h[..|h| - 1])
    case SelectDbDone => SelectedDb(c.server, h) == s.job.value.db
    case ConnectWait => |h| > 0 && h[|h| - 1] == Request.Connect(c.dbname)
    case ConnectDone => s.connected ==> SelectedDb(c.server, h) == c.dbname
    case ConnectStart | CloseStart | CloseWait | CloseDone | StateNone | ConnectInit => true
    case _ => CacheOk(c, cache, h)
  }

  /** Every query so far ran in the database its session asked for, and the state keeps it so. */
  ghost predicate DbSound(c: Setting, s: Snap)
    requires s.Ok()
  {
    WellTargeted(c.server, s.world.history) && Tracks(c, s)
  }

  lemma LastRequest(c: Setting, h: seq<Request>)
    requires |h| > 0
    ensures SelectedDb(c.server, h) ==
            match h[|h| - 1]
            case Connect(db) => if c.server.connects(h) then db else SelectedDb(c.server, h[..|h| - 1])
            case SelectDb(db) => if c.server.selects(h).code == 0 then db else SelectedDb(c.server, h[..|h| - 1])
            case Query(_, _) => SelectedDb(c.server, h[..|h| - 1])
            case Close => ""
  {
  }

  lemma SelectTracks(c: Setting, s: Snap, waited: bool)
    requires s.Ok() && !s.parked && Tracks(c, s) && (s.state.SelectDbStart? || s.state.SelectDbWait?)
    ensures Tracks(c, Next(c, s, waited))
  {
    var h := s.world.history;
    if s.state.SelectDbStart? {
      var r := Request.SelectDb(s.job.value.db);
      SelectedDbSnoc(c.server, h, r);
      assert (h + [r])[..|h|] == h;
    } else {
      LastRequest(c, h);
    }
  }

  lemma QueryTracks(c: Setting, s: Snap, waited: bool)
    requires s.Ok() && !s.parked && Tracks(c, s) && s.state.QueryStart?
    ensures Tracks(c, Next(c, s, waited))
  {
    SelectedDbSnoc(c.server, s.world.history, Request.Query(s.job.value.sql, s.job.value.db));
  }

  lemma ConnectTracks(c: Setting, s: Snap, waited: bool)
    requires s.Ok() && !s.parked && Tracks(c, s) && (s.state.ConnectStart? || s.state.ConnectWait?)
    ensures Tracks(c, Next(c, s, waited))
  {
    SelectedDbSnoc(c.server, s.world.history, Request.Connect(c.dbname));
    if s.state.ConnectWait? {
      LastRequest(c, s.world.history);
    }
  }

  lemma AnswerTracks(c: Setting, s: Snap, waited: bool)
    requires s.Ok() && !s.parked && Tracks(c, s)
    requires s.state.SelectDbDone? || s.state.QueryWait? || s.state.QueryResultReady? || s.state.Fetching()
    ensures Tracks(c, Next(c, s, waited))
  {
  }

  lemma NextTracks(c: Setting, s: Snap, waited: bool)
    requires s.Ok() && !s.parked && Tracks(c, s)
    ensures Tracks(c, Next(c, s, waited))
  {
    match s.state {
      case SelectDbStart | SelectDbWait => SelectTracks(c, s, waited);
      case QueryStart => QueryTracks(c, s, waited);
      case SelectDbDone | QueryWait | QueryResultReady => AnswerTracks(c, s, waited);
      case FetchRowStart | FetchRowWait | FetchRowResultReady => AnswerTracks(c, s, waited);
      case ConnectStart | ConnectWait => ConnectTracks(c, s, waited);
      case _ =>
    }
  }

  lemma {:induction false} DrainKeepsHistory(c: Setting, w: World)
    ensures Drain(c, w).history == w.history
    decreases w.budget + |w.queue|
  {
    if w.queue != [] {
      DrainKeepsHistory(c, Complete(c, w.(queue := w.queue[1..]), w.queue[0], CLOSED));
    }
  }

  /** A step sends the request of its state, and nothing else. */
  ghost predicate HasSent(c: Setting, s: Snap, n: Snap)
    requires s.Ok()
  {
    n.world.history == Sent(c, s).world.history
  }

  lemma QuerySends(c: Setting, s: Snap, waited: bool)
    requires s.Ok() && (s.state.QueryStart? || s.state.QueryWait? || s.state.QueryResultReady?)
    ensures HasSent(c, s, Next(c, s, waited))
  {
  }

  lemma SelectSends(c: Setting, s: Snap, waited: bool)
    requires s.Ok() && (s.state.SelectDbStart? || s.state.SelectDbWait? || s.state.SelectDbDone?)
    ensures HasSent(c, s, Next(c, s, waited))
  {
  }

  lemma NextSends(c: Setting, s: Snap, waited: bool)
    requires s.Ok()
    ensures HasSent(c, s, Next(c, s, waited))
  {
    match s.state {
      case SelectDbStart | SelectDbWait | SelectDbDone => SelectSends(c, s, waited);
      case QueryStart | QueryWait | QueryResultReady => QuerySends(c, s, waited);
      case CloseDone => DrainKeepsHistory(c, s.world);
      case _ =>
    }
  }

  lemma NextKeepsSound(c: Setting, s: Snap, waited: bool)
    requires s.Ok() && !s.parked && DbSound(c, s)
    ensures DbSound(c, Next(c, s, waited))
  {
    NextTracks(c, s, waited);
    NextTargets(c, s, waited);
  }

  lemma NextTargets(c: Setting, s: Snap, waited: bool)
    requires s.Ok() && !s.parked && DbSound(c, s)
    ensures WellTargeted(c.server, Next(c, s, waited).world.history)
  {
    NextSends(c, s, waited);
    if Sends(c, s).Some? {
      WellTargetedSnoc(c.server, s.world.history, Sends(c, s).value);
    }
  }

  /** In every run, under every pattern of waits, every query runs in the database its session asked for. */
  lemma RunsStayTargeted(c: Setting, s: Snap, waits: nat -> bool, n: nat)
    requires s.Ok() && DbSound(c, s)
    ensures DbSound(c, Run(c, s, waits, n))
  {
    var p := (r: Snap) => r.Ok() && DbSound(c, r);
    forall r: Snap, waited | r.Ok() && p(r) ensures p(Step(c, r, waited)) {
      if !Settled(r) {
        NextKeepsSound(c, r, waited);
      }
    }
    RunInvariant(c, s, waits, n, p);
  }

  /** A connection that is idle right after a connect is sound exactly if its cache names nothing or the
      configured database. */
  lemma ConnectDecides(c: Setting, s: Snap, h: seq<Request>)
    requires s.Ok() && !s.parked && s.state.ConnectionIdle?
    requires s.world.history == h + [Request.Connect(c.dbname)] && c.server.connects(s.world.history)
    ensures DbSound(c, s) <==> WellTargeted(c.server, h) && (s.world.cache == "" || s.world.cache == c.dbname)
  {
    WellTargetedSnoc(c.server, h, Request.Connect(c.dbname));
    SelectedDbSnoc(c.server, h, Request.Connect(c.dbname));
  }

  /** The property of being sound, if the connection has been so far. */
  ghost function StaysSound(c: Setting, sound: bool): Snap -> bool {
    (s: Snap) => sound ==> s.Ok() && DbSound(c, s)
  }

  lemma StaysSoundIsStepClosed(c: Setting, sound: bool)
    ensures StepClosed(c, StaysSound(c, sound))
  {
    forall s: Snap, waited: bool | s.Ok() && !s.parked && sound && DbSound(c, s)
      ensures DbSound(c, Next(c, s, waited))
    {
      NextKeepsSound(c, s, waited);
    }
  }

  /** What is queued does not matter to the database. */
  lemma QueueKeepsSound(c: Setting, s: Snap, queue: seq<Job>)
    requires s.Ok()
    ensures var n := s.(world := s.world.(queue := queue));
            n.Ok() && (DbSound(c, n) <==> DbSound(c, s))
  {
  }

  /** A blocking connect that fails changes nothing else. */
  lemma FailedConnectKeepsSound(c: Setting, s: Snap, n: Snap)
    requires s.Ok() && (s.parked || s.state.ConnectionIdle?)
    requires n == s.(world := s.world.Send(Request.Connect(c.dbname)), connected := n.connected)
    requires !c.server.connects(n.world.history)
    ensures n.Ok() && (DbSound(c, s) ==> DbSound(c, n))
  {
    WellTargetedSnoc(c.server, s.world.history, Request.Connect(c.dbname));
    SelectedDbSnoc(c.server, s.world.history, Request.Connect(c.dbname));
  }

  /** The cache is safe for every session exactly if it is empty or names the selected database. */
  lemma CacheDecides(c: Setting, w: World)
    requires WellTargeted(c.server, w.history)
    ensures CacheOk(c, w.cache, w.history) <==>
            forall job: Job :: WellTargeted(c.server, Serve(c, w, job).world.history)
  {
    var h := w.history;
    if CacheOk(c, w.cache, h) {
      forall job: Job ensures WellTargeted(c.server, Serve(c, w, job).world.history) {
        ServeTargets(c, w, job);
      }
    } else {
      var job := Job(w.cache, "x", false);
      WellTargetedSnoc(c.server, h, Request.Query(job.sql, job.db));
      assert Serve(c, w, job).world.history == h + [Request.Query(job.sql, job.db)];
    }
  }

  lemma RunQueryTargets(c: Setting, w: World, job: Job)
    requires WellTargeted(c.server, w.history) && (job.db != "" ==> SelectedDb(c.server, w.history) == job.db)
    ensures WellTargeted(c.server, RunQuery(c, w, job).world.history)
  {
    WellTargetedSnoc(c.server, w.history, Request.Query(job.sql, job.db));
  }

  lemma ServeTargets(c: Setting, w: World, job: Job)
    requires WellTargeted(c.server, w.history) && CacheOk(c, w.cache, w.history)
    ensures WellTargeted(c.server, Serve(c, w, job).world.history)
  {
    if NeedsSelect(w.cache, job) {
      var select := Request.SelectDb(job.db);
      WellTargetedSnoc(c.server, w.history, select);
      SelectedDbSnoc(c.server, w.history, select);
      var x := w.Send(select);
      if c.server.selects(x.history).code == 0 {
        RunQueryTargets(c, x.(cache := job.db), job);
      }
    } else {
      RunQueryTargets(c, w, job);
    }
  }
}

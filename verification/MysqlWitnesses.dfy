/** Uses of a connection that show where a promise ends. */
module MysqlWitnesses {
  import opened MysqlTypes
  import opened BlockingExecutor
  import opened MysqlMachine
  import opened MysqlLoop
  import opened MysqlDatabase
  import opened MysqlLibrary
  import opened QuerySessions
  import opened MysqlConnection

  /** A server that accepts everything and returns no rows. */
  function Obliging(): Server {
    Server(_ => true, _ => DbAnswer(0, ""), _ => NoResult(0, ""), _ => 0)
  }

  function NeverWaits(): nat -> Wait {
    _ => Wait(false, false, false, false)
  }

  method NewConnection(callbacks: Callbacks) returns (con: MysqlAsyncConnect)
    ensures fresh(con) && fresh(con.mysql) && con.callbacks == callbacks && con.dbname == "a"
    ensures con.mysql.server == Obliging() && con.mysql.waits == NeverWaits()
    ensures con.Valid() && con.AtRest() && con.Quiet() && con.state == ConnectInit && con.parked && con.repr == {}
    ensures con.TheWorld() == World([], "", [], [], callbacks.budget, false) && con.submitted == []
  {
    var mysql := new Mysql(Obliging(), NeverWaits());
    con := new MysqlAsyncConnect(mysql, callbacks, "a");
  }

  /** A connection that is closed while it is idle stays as it is: it has a close to do, and nothing is armed
      or posted that would do it. */
  method IdleCloseStalls() returns (con: MysqlAsyncConnect)
    ensures con.Valid() && con.AtRest() && con.NotStalled()
    ensures con.state.ConnectionIdle? && con.scheduleClose && con.queryList == []
    ensures !con.AllDone() && !con.Armed() && con.posted == 0
  {
    var callbacks := new Callbacks(_ => Reaction([], false), 0);
    con := NewConnection(callbacks);
    var ok := con.SyncConnect();
    con.Close();
    con.ProgressExactly();
  }

  /** A session that is handed to a connection that is closed, or was never connected, stays queued, and nothing
      is armed or posted that would reach it. */
  method ParkedQueueStalls(con: MysqlAsyncConnect, q: QuerySession)
    requires con.Valid() && con.AtRest() && con.parked && con.posted == 0 && q.Untouched() && q !in con.submitted
    modifies con, con.mysql, con.callbacks, con.repr, q
    ensures con.Valid() && con.AtRest() && con.parked && con.jobs == old(con.jobs) + [q.job]
    ensures con.queryList == old(con.queryList) + [q]
    ensures con.queryList != [] && !con.AllDone() && !con.Armed() && con.posted == 0
    ensures con.log == old(con.log) && con.callbacks.budget == old(con.callbacks.budget)
    ensures forall x :: x in con.repr ==> x in old(con.repr) || x == q || fresh(x)
  {
    ghost var target := con.Queued(q.job);
    con.StartQuery(q, (s: Snap) => s.parked && s == target);
    assert con.TheWorld() == target.world;
  }

  /** A blocking connect does not serve it. */
  method QueueThenConnect(con: MysqlAsyncConnect, q: QuerySession)
    requires con.Valid() && con.AtRest() && con.Quiet() && con.parked && con.submitted == [] && q.Untouched()
    requires con.jobs == [] && con.queryList == [] && con.mysql.server == Obliging()
    modifies con, con.mysql, con.callbacks, con.repr, q
    ensures con.Valid() && con.state.ConnectionIdle? && con.jobs == [q.job] && con.queryList == [q]
    ensures con.callbacks.budget == old(con.callbacks.budget)
    ensures forall x :: x in con.repr ==> x in old(con.repr) || x == q || fresh(x)
  {
    ParkedQueueStalls(con, q);
    var ok := con.SyncConnect();
  }

  method NewStalled() returns (con: MysqlAsyncConnect, q: QuerySession)
    ensures fresh(con) && fresh(con.callbacks) && fresh(con.repr) && con.Valid() && !con.Calm()
    ensures con.queryList == [q] && q.job == Job("", "", true) && |con.jobs| == 1 && con.Submits(0)
  {
    var callbacks := new Callbacks(_ => Reaction([Job("", "more", false)], false), 1);
    con := NewConnection(callbacks);
    q := new QuerySession(Job("", "", true));
    QueueThenConnect(con, q);
  }

  /** If its callback submits another session, a blocking close, or the destructor, starts the machine in the
      middle of the clean-up; the machine takes the first session of the queue, which is being told "closed" just
      then, and tells it again. Its callback is called twice. */
  method StalledCloseTellsTwice() returns (con: MysqlAsyncConnect, q: QuerySession)
    ensures q.doneCalls == 2 && q.fired == 2
  {
    con, q := NewStalled();
    var run := con.CleanUpReenters();
    var fire := con.TellAgain();
  }

  lemma OneSession(c: Setting, w: World, job: Job)
    requires c.server == Obliging() && w.queue == [] && !w.closing && !job.notify && job.sql != ""
    ensures var f := RunAll(c, w.(queue := [job]));
            && f.open && f.world.queue == [] && !f.world.closing
            && f.world.cache == (if NeedsSelect(w.cache, job) then job.db else w.cache)
            && f.world.history == w.history + (if NeedsSelect(w.cache, job) then [Request.SelectDb(job.db)] else [])
                                  + [Request.Query(job.sql, job.db)]
  {
    var v := w.(queue := [job]);
    assert v.queue[1..] == [] && v.(queue := []) == w;
    var r := Serve(c, w, job);
    assert RunAll(c, v) == RunAll(c, r.world);
  }

  /** An idle connection to such a server, at rest with nothing to do. */
  ghost predicate Serves(con: MysqlAsyncConnect)
    reads con, con.mysql, con.callbacks, con.inProcess, con.repr
  {
    && con.Valid() && con.AtRest() && con.state.ConnectionIdle? && !con.parked
    && con.queryList == [] && !con.scheduleClose && con.dbname == "a"
    && con.mysql.server == Obliging() && con.mysql.waits == NeverWaits()
  }

  lemma NeverWaitingIsReliable(con: MysqlAsyncConnect)
    requires con.mysql.waits == NeverWaits()
    ensures con.Reliable()
  {
    forall n: nat ensures EndsFrom(NeverWaits(), n) {
      assert EndsAfter(NeverWaits(), n, n);
    }
  }

  method ServeSession(con: MysqlAsyncConnect, q: QuerySession)
    requires Serves(con) && q.Untouched() && q !in con.submitted && q.job == Job("b", "q", false)
    modifies con, con.mysql, con.callbacks, con.repr, q
    ensures Serves(con) && con.lastSelectedDb == "b"
    ensures con.mysql.history == old(con.mysql.history)
            + (if old(con.lastSelectedDb) == "b" then [] else [Request.SelectDb("b")]) + [Request.Query("q", "b")]
    ensures forall x :: x in con.repr ==> x in old(con.repr) || x == q || fresh(x)
  {
    ghost var w := con.TheWorld();
    OneSession(con.Config(), w, q.job);
    assert con.Queued(q.job).world == w.(queue := [q.job]);
    NeverWaitingIsReliable(con);
    con.ServeFully(q);
    assert con.TheWorld() == RunAll(con.Config(), w.(queue := [q.job])).world;
  }

  /** Serve a session for database "b". */
  method ServeOne(con: MysqlAsyncConnect)
    requires Serves(con)
    modifies con, con.mysql, con.callbacks, con.repr
    ensures Serves(con) && con.lastSelectedDb == "b"
    ensures con.mysql.history == old(con.mysql.history)
            + (if old(con.lastSelectedDb) == "b" then [] else [Request.SelectDb("b")]) + [Request.Query("q", "b")]
    ensures forall x :: x in con.repr ==> x in old(con.repr) || fresh(x)
  {
    var q := new QuerySession(Job("b", "q", false));
    ServeSession(con, q);
  }

  method Disconnect(con: MysqlAsyncConnect)
    requires Serves(con)
    modifies con, con.mysql, con.callbacks, con.repr
    ensures con.Valid() && con.AtRest() && con.Quiet() && con.parked && con.queryList == [] && !con.scheduleClose
    ensures con.lastSelectedDb == old(con.lastSelectedDb)
    ensures con.mysql.history == old(con.mysql.history) + [Request.Close]
    ensures forall x :: x in con.repr ==> x in old(con.repr) || fresh(x)
  {
    assert con.CleanedUp() == con.TheWorld();
    con.SyncClose();
    assert con.TheWorld().history == con.mysql.history;
  }

  method BackToIdle(con: MysqlAsyncConnect)
    requires con.Valid() && con.AtRest() && con.Quiet() && con.queryList == [] && !con.scheduleClose
    requires con.dbname == "a" && con.mysql.server == Obliging() && con.mysql.waits == NeverWaits()
    modifies con, con.mysql
    ensures Serves(con) && con.repr == old(con.repr) && con.lastSelectedDb == old(con.lastSelectedDb)
    ensures con.mysql.history == old(con.mysql.history) + [Request.Connect("a")]
  {
    var ok := con.SyncConnect();
  }

  method Reconnect(con: MysqlAsyncConnect)
    requires Serves(con)
    modifies con, con.mysql, con.callbacks, con.repr
    ensures Serves(con) && con.lastSelectedDb == old(con.lastSelectedDb)
    ensures con.mysql.history == old(con.mysql.history) + [Request.Close, Request.Connect("a")]
    ensures forall x :: x in con.repr ==> x in old(con.repr) || fresh(x)
  {
    ghost var h := con.mysql.history;
    Disconnect(con);
    BackToIdle(con);
    assert h + [Request.Close] + [Request.Connect("a")] == h + [Request.Close, Request.Connect("a")];
  }

  /** It happens to a connection that was closed. */
  method ClosedConnectionStalls() returns (con: MysqlAsyncConnect, q: QuerySession)
    ensures con.Valid() && con.AtRest() && con.queryList != [] && !con.Armed() && con.posted == 0
  {
    con := NewServing();
    Disconnect(con);
    q := new QuerySession(Job("", "q", true));
    ParkedQueueStalls(con, q);
  }

  method NewServing() returns (con: MysqlAsyncConnect)
    ensures Serves(con) && fresh(con) && fresh(con.mysql) && fresh(con.callbacks) && con.repr == {}
  {
    var callbacks := new Callbacks(_ => Reaction([], false), 0);
    con := NewConnection(callbacks);
    BackToIdle(con);
  }

  method ServeElsewhere(con: MysqlAsyncConnect)
    requires Serves(con) && con.lastSelectedDb == "b"
    requires var h := con.mysql.history; h != [] && h[|h| - 1] == Request.Connect("a")
    modifies con, con.mysql, con.callbacks, con.repr
    ensures Serves(con) && !WellTargeted(con.mysql.server, con.mysql.history)
  {
    ghost var h := con.mysql.history;
    ServeOne(con);
    LastRequest(con.Config(), h);
    assert con.mysql.history == h + [Request.Query("q", "b")];
    WellTargetedSnoc(Obliging(), h, Request.Query("q", "b"));
  }

  /** Connect, use another database, close, and connect again, all blocking: the cache still names the other
      database, and the next query for it runs in the configured one. */
  method BlockingReconnectMistargets() returns (con: MysqlAsyncConnect)
    ensures con.Valid() && !WellTargeted(con.mysql.server, con.mysql.history)
  {
    con := NewServing();
    ServeOne(con);
    Reconnect(con);
    ServeElsewhere(con);
  }
}

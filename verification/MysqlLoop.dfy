/** The state machine under its event loop: what wakes it, when it stops for good, and what closing does. */
module MysqlLoop {
  import opened Options
  import opened MysqlTypes
  import opened BlockingExecutor
  import opened ExecutorLaws
  import opened MysqlMachine
  import opened MysqlRuns

  // ---------------------------------------------------------------- waking

  /** `running`: in the middle of an activation. `armed`: the last wait armed an event. */
  datatype Loop = Loop(snap: Snap, running: bool, armed: bool)

  /** At rest with work to do, and nothing will wake it: the last wait asked for nothing that is armed; or the
      connection is idle, which only a submission activates; or it is closed, or was never connected, and has
      sessions queued, which only a connect, a blocking close or the destructor reaches. */
  predicate Stuck(l: Loop) {
    || (l.snap.parked && l.snap.world.queue != [])
    || (!l.running && !l.snap.parked &&
          (|| (l.snap.state.Waiting() && !l.armed)
           || (l.snap.state.ConnectionIdle? && (l.snap.world.queue != [] || l.snap.world.closing))))
  }

  /** The loop goes on, or an event or a posted task activates it. */
  predicate Moves(l: Loop) {
    !Settled(l.snap) && !Stuck(l)
  }

  /** One turn, which wakes the machine first if it is at rest; `status` is what its library call, if any,
      returns. */
  function Turn(c: Setting, l: Loop, status: Wait): (r: Loop)
    requires l.snap.Ok()
    ensures r.snap.Ok()
  {
    if !Moves(l) then l
    else
      var n := Next(c, l.snap, !status.Zero());
      Loop(n, !n.state.Waiting() && !Settled(n), status.Arms())
  }

  function Turns(c: Setting, l: Loop, waits: nat -> Wait, n: nat): (r: Loop)
    requires l.snap.Ok()
    ensures r.snap.Ok()
  {
    if n == 0 then l else Turn(c, Turns(c, l, waits, n - 1), waits(n - 1))
  }

  lemma TurnKeepsFuture(c: Setting, l: Loop, status: Wait)
    requires l.snap.Ok()
    ensures Future(c, Turn(c, l, status).snap) == Future(c, l.snap)
  {
    if Moves(l) {
      NextKeepsFuture(c, l.snap, !status.Zero());
    }
  }

  lemma {:induction false} TurnsKeepFuture(c: Setting, l: Loop, waits: nat -> Wait, n: nat)
    requires l.snap.Ok()
    ensures Future(c, Turns(c, l, waits, n).snap) == Future(c, l.snap)
  {
    if n > 0 {
      TurnsKeepFuture(c, l, waits, n - 1);
      TurnKeepsFuture(c, Turns(c, l, waits, n - 1), waits(n - 1));
    }
  }

  // ---------------------------------------------------------------- one step of a session

  /** A step within a session completes it or leaves the log alone, waits only in its library call, and goes
      to close only on a fatal code. */
  ghost predicate Progresses(s: Snap, n: Snap, waited: bool) {
    && n.parked == s.parked && (n.state.Waiting() ==> waited)
    && if n.state.Serving() then n.world.log == s.world.log
       else
         && (n.state.ConnectionIdle? || n.state.CloseStart?)
         && |n.world.log| == |s.world.log| + 1 && s.world.log <= n.world.log
         && var code := n.world.log[|s.world.log|].outcome.code;
            code != -1 && (n.state.CloseStart? ==> IsFatalError(code))
  }

  lemma SelectProgresses(c: Setting, s: Snap, waited: bool)
    requires s.Ok() && s.state.Selecting()
    ensures Progresses(s, Next(c, s, waited), waited)
  {
  }

  lemma QueryProgresses(c: Setting, s: Snap, waited: bool)
    requires s.Ok() && (s.state.QueryStart? || s.state.QueryWait?)
    ensures Progresses(s, Next(c, s, waited), waited)
  {
  }

  lemma ResultProgresses(c: Setting, s: Snap, waited: bool)
    requires s.Ok() && s.state.QueryResultReady?
    ensures Progresses(s, Next(c, s, waited), waited)
  {
  }

  lemma FetchProgresses(c: Setting, s: Snap, waited: bool)
    requires s.Ok() && s.state.Fetching()
    ensures Progresses(s, Next(c, s, waited), waited)
  {
  }

  lemma ServingProgresses(c: Setting, s: Snap, waited: bool)
    requires s.Ok() && s.state.Serving()
    ensures Progresses(s, Next(c, s, waited), waited)
  {
    if s.state.Fetching() {
      FetchProgresses(c, s, waited);
    } else if s.state.Selecting() {
      SelectProgresses(c, s, waited);
    } else if s.state.QueryResultReady? {
      ResultProgresses(c, s, waited);
    } else {
      QueryProgresses(c, s, waited);
    }
  }

  // ---------------------------------------------------------------- stopping for good

  predicate EndsAfter(waits: nat -> Wait, n: nat, m: nat) {
    n <= m && waits(m).Zero()
  }

  /** No operation waits forever. */
  ghost predicate Fair(waits: nat -> Wait) {
    forall n: nat :: EndsFrom(waits, n)
  }

  ghost predicate EndsFrom(waits: nat -> Wait, n: nat) {
    exists m: nat :: EndsAfter(waits, n, m)
  }

  /** Every wait asks for something that is armed. */
  ghost predicate Wakes(waits: nat -> Wait) {
    forall n: nat :: waits(n).Zero() || waits(n).Arms()
  }

  lemma TurnDescends(c: Setting, l: Loop, status: Wait)
    requires l.snap.Ok() && Moves(l)
    ensures var n := Turn(c, l, status);
            if l.snap.state.Waiting() && !status.Zero() then n.snap == l.snap else Below(n.snap, l.snap)
  {
    NextDescends(c, l.snap, !status.Zero());
  }

  /** A turn whose call does not wait, or makes none, does not end in a waiting state. */
  lemma OnlyWaitsWait(c: Setting, s: Snap)
    requires s.Ok()
    ensures !Next(c, s, false).state.Waiting()
  {
    if s.state.Serving() {
      ServingProgresses(c, s, false);
    }
  }

  /** Each turn goes down, or waits again. */
  ghost predicate GoesDown(run: nat -> Loop, waits: nat -> Wait) {
    forall k: nat :: Moves(run(k)) ==>
      Below(run(k + 1).snap, run(k).snap) || (run(k + 1).snap == run(k).snap && !waits(k).Zero())
  }

  lemma {:induction false} StopsAfter(run: nat -> Loop, waits: nat -> Wait, k: nat, r: Snap, m: nat) returns (n: nat)
    requires GoesDown(run, waits) && Fair(waits) && r == run(k).snap && EndsAfter(waits, k, m)
    ensures !Moves(run(n))
    decreases !r.parked, PhaseRank(r), Work(r), StageRank(r), RowRank(r), m - k
  {
    if !Moves(run(k)) {
      return k;
    }
    if Below(run(k + 1).snap, r) {
      assert EndsFrom(waits, k + 1);
      var m' :| EndsAfter(waits, k + 1, m');
      n := StopsAfter(run, waits, k + 1, run(k + 1).snap, m');
    } else {
      n := StopsAfter(run, waits, k + 1, r, m);
    }
  }

  lemma TurnsGoDown(c: Setting, l: Loop, waits: nat -> Wait)
    requires l.snap.Ok()
    ensures GoesDown((n: nat) => Turns(c, l, waits, n), waits)
  {
    forall k: nat | Moves(Turns(c, l, waits, k))
      ensures var s, n := Turns(c, l, waits, k).snap, Turns(c, l, waits, k + 1).snap;
              Below(n, s) || (n == s && !waits(k).Zero())
    {
      TurnDescends(c, Turns(c, l, waits, k), waits(k));
    }
  }

  lemma {:induction false} StuckStays(c: Setting, l: Loop, waits: nat -> Wait, n: nat)
    requires l.snap.Ok() && Stuck(l)
    ensures Turns(c, l, waits, n) == l
  {
    if n > 0 {
      StuckStays(c, l, waits, n - 1);
    }
  }

  /** A connection is parked with an empty queue. */
  lemma ParkedEmpty(c: Setting, l: Loop, status: Wait)
    requires l.snap.Ok() && !l.snap.parked && Turn(c, l, status).snap.parked
    ensures Turn(c, l, status).snap.world.queue == []
  {
    if l.snap.state.Serving() {
      ServingProgresses(c, l.snap, !status.Zero());
    }
    DrainLogs(c, l.snap.world);
  }

  lemma {:induction false} NeverStuck(c: Setting, l: Loop, waits: nat -> Wait, n: nat)
    requires l.snap.Ok() && !Stuck(l) && Wakes(waits)
    ensures !Stuck(Turns(c, l, waits, n))
  {
    if n > 0 {
      NeverStuck(c, l, waits, n - 1);
      var k := Turns(c, l, waits, n - 1);
      OnlyWaitsWait(c, k.snap);
      if !k.snap.parked && Turn(c, k, waits(n - 1)).snap.parked {
        ParkedEmpty(c, k, waits(n - 1));
      }
      assert waits(n - 1).Zero() || waits(n - 1).Arms();
    }
  }

  /** Nothing more to do, and no session left. */
  predicate Finished(s: Snap) {
    Settled(s) && s.world.queue == []
  }

  /** Some number of turns ends with no session left, and with exactly what the blocking client does. */
  ghost predicate EndsAsBlocking(c: Setting, l: Loop, waits: nat -> Wait)
    requires l.snap.Ok()
  {
    exists n: nat ::
      Finished(Turns(c, l, waits, n).snap) && Turns(c, l, waits, n).snap.world == Future(c, l.snap).world
  }

  lemma StuckNeverEnds(c: Setting, l: Loop, waits: nat -> Wait)
    requires l.snap.Ok() && Stuck(l)
    ensures !EndsAsBlocking(c, l, waits)
  {
    forall n: nat ensures !Finished(Turns(c, l, waits, n).snap) {
      StuckStays(c, l, waits, n);
    }
  }

  lemma SettledIsThere(c: Setting, l: Loop, r: Loop)
    requires l.snap.Ok() && r.snap.Ok() && !Moves(r) && !Stuck(r) && Future(c, r.snap) == Future(c, l.snap)
    ensures Finished(r.snap) && r.snap.world == Future(c, l.snap).world
  {
  }

  lemma UnstuckEnds(c: Setting, l: Loop, waits: nat -> Wait)
    requires l.snap.Ok() && Fair(waits) && Wakes(waits) && !Stuck(l)
    ensures EndsAsBlocking(c, l, waits)
  {
    assert EndsFrom(waits, 0);
    var m :| EndsAfter(waits, 0, m);
    TurnsGoDown(c, l, waits);
    var n := StopsAfter((n: nat) => Turns(c, l, waits, n), waits, 0, l.snap, m);
    NeverStuck(c, l, waits, n);
    TurnsKeepFuture(c, l, waits, n);
    SettledIsThere(c, l, Turns(c, l, waits, n));
  }

  /** If no operation waits forever and every wait can be woken, then, however long the queue and the results
      are and whatever the callbacks add, the connection ends as the blocking client does, with no
      session left, unless it is stuck; then it never does. */
  lemma FairRunsSettle(c: Setting, l: Loop, waits: nat -> Wait)
    requires l.snap.Ok() && Fair(waits) && Wakes(waits)
    ensures EndsAsBlocking(c, l, waits) <==> !Stuck(l)
  {
    if Stuck(l) {
      StuckNeverEnds(c, l, waits);
    } else {
      UnstuckEnds(c, l, waits);
    }
  }

  /** The state's library call may have to wait. */
  predicate Calls(s: Snap) {
    || s.state.Waiting() || s.state.ConnectStart? || s.state.SelectDbStart? || s.state.FetchRowStart?
    || s.state.CloseStart? || (s.state.QueryStart? && s.job.Some? && s.job.value.sql != "")
  }

  lemma WaitingCallWaits(c: Setting, s: Snap)
    requires s.Ok() && !s.parked && Calls(s)
    ensures Next(c, s, true).state.Waiting() && !Next(c, s, true).parked
  {
  }

  /** Any call that returns with nothing but the exception bit to wait for leaves the connection in that wait,
      whatever the library would say next. */
  lemma ExceptionBitStalls(c: Setting, l: Loop, waits: nat -> Wait, n: nat)
    requires l.snap.Ok() && Moves(l) && Calls(l.snap)
    ensures var r := Turn(c, l, Wait(false, false, true, false));
            r.snap.state.Waiting() && Stuck(r) && Turns(c, r, waits, n) == r
  {
    WaitingCallWaits(c, l.snap);
    StuckStays(c, Turn(c, l, Wait(false, false, true, false)), waits, n);
  }

  // ---------------------------------------------------------------- closing

  function Asked(s: Snap): Snap {
    s.(world := ToClose(s.world))
  }

  lemma SelectingIgnoresClosing(c: Setting, s: Snap)
    requires s.Ok() && s.state.Selecting()
    ensures ServedFrom(c, Asked(s)) == ServedToClose(ServedFrom(c, s))
  {
    var w, job := s.world, s.job.value;
    var select := Request.SelectDb(job.db);
    assert ToClose(w).Send(select) == ToClose(w.Send(select));
    assert ToClose(w).(cache := job.db) == ToClose(w.(cache := job.db));
    match s.state {
      case SelectDbStart => SelectIgnoresClosing(c, w.Send(select), job);
      case SelectDbWait => SelectIgnoresClosing(c, w, job);
      case SelectDbDone => RunQueryIgnoresClosing(c, w.(cache := job.db), job);
    }
  }

  lemma AnsweredIgnoresClosing(c: Setting, s: Snap)
    requires s.Ok() && (s.state.QueryWait? || s.state.QueryResultReady? || s.state.Fetching())
    ensures ServedFrom(c, Asked(s)) == ServedToClose(ServedFrom(c, s))
  {
  }

  lemma ServedIgnoresClosing(c: Setting, s: Snap)
    requires s.Ok() && s.state.Serving()
    ensures ServedFrom(c, Asked(s)) == ServedToClose(ServedFrom(c, s))
  {
    if s.state.Selecting() {
      SelectingIgnoresClosing(c, s);
    } else if s.state.QueryStart? {
      RunQueryIgnoresClosing(c, s.world, s.job.value);
    } else {
      AnsweredIgnoresClosing(c, s);
    }
  }

  /** A connection that is asked to close while it connects, serves or closes completes everything it has, and
      everything callbacks add, exactly as it would have, and then closes. One that is idle is not included: it
      has to be activated first. */
  lemma ClosingIsGraceful(c: Setting, s: Snap)
    requires s.Ok() && !s.parked && !s.state.ConnectionIdle?
    ensures Future(c, Asked(s)).world.log == Future(c, s).world.log
    ensures !Future(c, Asked(s)).open
  {
    if s.state.Serving() {
      ServedIgnoresClosing(c, s);
      ContinueIgnoresClosing(c, ServedFrom(c, s));
    } else if s.state.Closing() {
      CloseIgnoresClosing(c, s.world);
      DrainIgnoresClosing(c, s.world);
    } else {
      ConnectIgnoresClosing(c, s);
    }
  }

  lemma CloseIgnoresClosing(c: Setting, w: World)
    ensures CloseAll(c, ToClose(w)).world == ToClose(CloseAll(c, w).world)
  {
    assert ToClose(w).Send(Close) == ToClose(w.Send(Close));
    DrainIgnoresClosing(c, w.Send(Close));
  }

  lemma ContinueIgnoresClosing(c: Setting, r: Served)
    ensures Continue(c, ServedToClose(r)).world.log == Continue(c, r).world.log
    ensures !Continue(c, ServedToClose(r)).open
  {
    if r.fatal {
      CloseIgnoresClosing(c, r.world);
    } else {
      RunAllIgnoresClosing(c, r.world);
    }
  }

  lemma ConnectIgnoresClosing(c: Setting, s: Snap)
    requires s.Ok() && !s.parked && (s.state.ConnectStart? || s.state.ConnectWait? || s.state.ConnectDone?)
    ensures Future(c, Asked(s)).world.log == Future(c, s).world.log
    ensures !Future(c, Asked(s)).open
  {
    var w := Sent(c, s).world;
    assert Sent(c, Asked(s)).world == ToClose(w);
    assert ToClose(w).(cache := c.dbname) == ToClose(w.(cache := c.dbname));
    CloseIgnoresClosing(c, w);
    RunAllIgnoresClosing(c, w.(cache := c.dbname));
  }

  // ---------------------------------------------------------------- arrivals

  datatype Input = Turned(status: Wait) | Arrives(job: Job) | AsksClose

  /** `StartQuery` activates an idle connection; `Close` activates nothing. */
  function Handle(c: Setting, l: Loop, input: Input): (r: Loop)
    requires l.snap.Ok()
    ensures r.snap.Ok()
  {
    match input
    case Turned(status) => Turn(c, l, status)
    case Arrives(job) =>
      l.(snap := l.snap.(world := l.snap.world.(queue := l.snap.world.queue + [job])),
         running := l.running || l.snap.state.ConnectionIdle?)
    case AsksClose => l.(snap := Asked(l.snap))
  }

  /** An idle connection that was asked to close stays open until the next session arrives; it serves that
      session as usual, and then closes. */
  lemma NextSessionCloses(c: Setting, w: World, job: Job)
    requires w.closing && w.queue == []
    ensures var l := Loop(AtIdle(w), false, false);
            var n := Handle(c, l, Arrives(job));
            && Stuck(l) && !Stuck(n)
            && !Future(c, n.snap).open
            && Serve(c, w, job).world.log <= Future(c, n.snap).world.log
  {
    var v := w.(queue := [job]);
    assert w.queue + [job] == [job] && v.queue[1..] == [] && v.(queue := []) == w;
    assert ToClose(v) == v;
    RunAllIgnoresClosing(c, v);
    var r := Serve(c, w, job);
    if r.fatal {
      DrainLogs(c, r.world.Send(Close));
    } else {
      RunAllInOrder(c, r.world);
    }
  }

  /** What had been completed and what had been handed in when `CLOSE_START` was entered. */
  datatype Cut = Cut(completed: nat, submitted: nat)

  function Submitted(s: Snap): nat {
    |s.world.log| + (if s.job.Some? then 1 else 0) + |s.world.queue|
  }

  datatype Watched = Watched(loop: Loop, cut: Option<Cut>)

  function Cutting(cut: Option<Cut>, s: Snap): Option<Cut> {
    if cut.None? && s.state.CloseStart? then Some(Cut(|s.world.log|, Submitted(s))) else cut
  }

  function Watch(c: Setting, x: Watched, input: Input): (r: Watched)
    requires x.loop.snap.Ok()
    ensures r.loop.snap.Ok()
  {
    var l := Handle(c, x.loop, input);
    Watched(l, Cutting(x.cut, l.snap))
  }

  function WatchAll(c: Setting, x: Watched, inputs: seq<Input>): (r: Watched)
    requires x.loop.snap.Ok()
    ensures r.loop.snap.Ok()
  {
    if inputs == [] then x
    else Watch(c, WatchAll(c, x, inputs[..|inputs| - 1]), inputs[|inputs| - 1])
  }

  /** Since `from`, the sessions completed up to `to` were served, and those after it told "closed". */
  ghost predicate Split(log: seq<Done>, from: nat, to: nat) {
    && from <= to <= |log|
    && forall i :: from <= i < |log| ==> (log[i].outcome.code == -1 <==> to <= i)
  }

  /** The close began with everything served, or after a fatal error. */
  ghost predicate CutFits(log: seq<Done>, from: nat, cut: Cut) {
    || cut.completed == cut.submitted
    || (from < cut.completed <= |log| && IsFatalError(log[cut.completed - 1].outcome.code))
  }

  ghost predicate WatchInv(x: Watched, from: nat) {
    var s := x.loop.snap;
    match x.cut
    case None => s.state.Established() && !s.parked && Split(s.world.log, from, |s.world.log|)
    case Some(cut) =>
      && (s.state.Closing() || s.parked)
      && Split(s.world.log, from, cut.completed) && CutFits(s.world.log, from, cut)
  }

  lemma ProgressKeepsWatch(x: Watched, n: Loop, waited: bool, from: nat)
    requires WatchInv(x, from) && x.cut.None? && Progresses(x.loop.snap, n.snap, waited)
    ensures WatchInv(Watched(n, Cutting(x.cut, n.snap)), from)
  {
  }

  lemma ServingKeepsWatch(c: Setting, x: Watched, status: Wait, from: nat)
    requires x.loop.snap.Ok() && WatchInv(x, from) && Moves(x.loop) && x.loop.snap.state.Serving()
    ensures WatchInv(Watch(c, x, Turned(status)), from)
  {
    ServingProgresses(c, x.loop.snap, !status.Zero());
    ProgressKeepsWatch(x, Turn(c, x.loop, status), !status.Zero(), from);
  }

  lemma IdleKeepsWatch(c: Setting, x: Watched, status: Wait, from: nat)
    requires x.loop.snap.Ok() && WatchInv(x, from) && Moves(x.loop) && x.loop.snap.state.ConnectionIdle?
    ensures WatchInv(Watch(c, x, Turned(status)), from)
  {
  }

  lemma CloseKeepsWatch(c: Setting, x: Watched, status: Wait, from: nat)
    requires x.loop.snap.Ok() && WatchInv(x, from) && Moves(x.loop) && x.loop.snap.state.Closing()
    ensures WatchInv(Watch(c, x, Turned(status)), from)
  {
    DrainTellsClosed(c, x.loop.snap.world);
  }

  lemma TurnKeepsWatch(c: Setting, x: Watched, status: Wait, from: nat)
    requires x.loop.snap.Ok() && WatchInv(x, from)
    ensures WatchInv(Watch(c, x, Turned(status)), from)
  {
    if Moves(x.loop) {
      if x.loop.snap.state.Serving() {
        ServingKeepsWatch(c, x, status, from);
      } else if x.loop.snap.state.ConnectionIdle? {
        IdleKeepsWatch(c, x, status, from);
      } else {
        CloseKeepsWatch(c, x, status, from);
      }
    }
  }

  lemma {:induction false} WatchKeepsInv(c: Setting, x: Watched, inputs: seq<Input>, from: nat)
    requires x.loop.snap.Ok() && WatchInv(x, from)
    ensures WatchInv(WatchAll(c, x, inputs), from)
  {
    if inputs != [] {
      var k := |inputs| - 1;
      WatchKeepsInv(c, x, inputs[..k], from);
      if inputs[k].Turned? {
        TurnKeepsWatch(c, WatchAll(c, x, inputs[..k]), inputs[k].status, from);
      }
    }
  }

  /** The sessions that arrive, in order. */
  function Arrivals(inputs: seq<Input>): seq<Job> {
    if inputs == [] then []
    else
      var last := inputs[|inputs| - 1];
      Arrivals(inputs[..|inputs| - 1]) + (if last.Arrives? then [last.job] else [])
  }

  /** Once closed, a connection completes nothing any more; what arrives stays in the queue. */
  lemma {:induction false} ClosedKeepsQueue(c: Setting, x: Watched, inputs: seq<Input>)
    requires x.loop.snap.Ok() && x.loop.snap.parked
    ensures var s, n := x.loop.snap, WatchAll(c, x, inputs).loop.snap;
            n.parked && n.world.log == s.world.log && n.world.queue == s.world.queue + Arrivals(inputs)
  {
    if inputs != [] {
      ClosedKeepsQueue(c, x, inputs[..|inputs| - 1]);
    }
  }

  /** What reaches such sessions is a connect: it serves them, or tells them "closed", all in order. */
  lemma ConnectReachesQueue(c: Setting, s: Snap)
    requires s.Ok() && s.parked && !s.state.Serving()
    ensures var n := s.(state := ConnectStart, parked := false);
            && n.Ok() && (forall running, armed :: !Stuck(Loop(n, running, armed)))
            && Future(c, n).world.queue == []
            && CompletesInOrder(Future(c, n).world.log, |s.world.log|, s.world.queue)
  {
    var w := s.world.Send(Request.Connect(c.dbname));
    RunAllInOrder(c, w.(cache := c.dbname));
    DrainLogs(c, w.Send(Close));
  }

  /** On an established connection, whatever arrives and whenever it is asked to close: exactly the sessions
      not completed when `CLOSE_START` is entered are told "closed"; and unless a fatal error caused the close,
      everything handed in before that point had been completed, so only later arrivals are. Those that arrive
      once the connection is closed are told nothing: see `ClosedKeepsQueue`. */
  lemma OnlyLateAreClosed(c: Setting, l: Loop, inputs: seq<Input>)
    requires l.snap.Ok() && l.snap.state.Established() && !l.snap.parked
    ensures var from := |l.snap.world.log|;
            var x := WatchAll(c, Watched(l, None), inputs);
            var log := x.loop.snap.world.log;
            && Split(log, from, if x.cut.Some? then x.cut.value.completed else |log|)
            && (x.cut.Some? ==> CutFits(log, from, x.cut.value))
  {
    WatchKeepsInv(c, Watched(l, None), inputs, |l.snap.world.log|);
  }
}

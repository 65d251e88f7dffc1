/** Whole runs of the connection's state machine while it is activated, under every pattern of waits. */
module MysqlRuns {
  import opened Options
  import opened MysqlTypes
  import opened BlockingExecutor
  import opened MysqlMachine

  // ---------------------------------------------------------------- runs

  /** An activated machine has nothing more to do: closed, never started, or idle with an empty queue. */
  predicate Settled(s: Snap) {
    s.parked || (s.state.ConnectionIdle? && s.world.queue == [] && !s.world.closing)
  }

  function Step(c: Setting, s: Snap, waited: bool): (n: Snap)
    requires s.Ok()
    ensures n.Ok()
  {
    if Settled(s) then s else Next(c, s, waited)
  }

  /** The connection after n steps; `waits(i)` says whether the library call of step i has to wait. */
  function Run(c: Setting, s: Snap, waits: nat -> bool, n: nat): (r: Snap)
    requires s.Ok()
    ensures r.Ok()
  {
    if n == 0 then s else Step(c, Run(c, s, waits, n - 1), waits(n - 1))
  }

  lemma StepKeepsFuture(c: Setting, s: Snap, waited: bool)
    requires s.Ok()
    ensures Future(c, Step(c, s, waited)) == Future(c, s)
  {
    if !Settled(s) {
      NextKeepsFuture(c, s, waited);
    }
  }

  /** What every step keeps holds after every run. */
  lemma {:induction false} RunInvariant(c: Setting, s: Snap, waits: nat -> bool, n: nat, p: Snap -> bool)
    requires s.Ok() && p(s)
    requires forall r: Snap, waited :: r.Ok() && p(r) ==> p(Step(c, r, waited))
    ensures p(Run(c, s, waits, n))
  {
    if n > 0 {
      RunInvariant(c, s, waits, n - 1, p);
    }
  }

  lemma RunKeepsFuture(c: Setting, s: Snap, waits: nat -> bool, n: nat)
    requires s.Ok()
    ensures Future(c, Run(c, s, waits, n)) == Future(c, s)
  {
    var f := Future(c, s);
    var p := (r: Snap) => r.Ok() && Future(c, r) == f;
    forall r: Snap, waited | r.Ok() && p(r) ensures p(Step(c, r, waited)) {
      StepKeepsFuture(c, r, waited);
    }
    RunInvariant(c, s, waits, n, p);
  }

  /** Whatever the pattern of waits, a connection that has settled has completed exactly the sessions,
      with exactly the outcomes, and sent exactly the requests, that it was heading for. */
  lemma SettledRunsAgree(c: Setting, s: Snap, waits: nat -> bool, n: nat)
    requires s.Ok() && Settled(Run(c, s, waits, n))
    ensures Run(c, s, waits, n).world == Future(c, s).world
  {
    RunKeepsFuture(c, s, waits, n);
  }

  /** An established connection with nothing in progress. */
  function AtIdle(w: World): (s: Snap)
    ensures s.Ok()
  {
    Snap(ConnectionIdle, w, false, true, None, [], None, None)
  }

  /** Serving a queue without blocking is serving it with blocking calls, one session after the other. */
  lemma ScheduleIndependence(c: Setting, w: World, waits: nat -> bool, n: nat)
    requires Settled(Run(c, AtIdle(w), waits, n))
    ensures Run(c, AtIdle(w), waits, n).world == RunAll(c, w).world
  {
    SettledRunsAgree(c, AtIdle(w), waits, n);
  }

  // ---------------------------------------------------------------- every step descends

  function PhaseRank(s: Snap): nat {
    if s.state.Established() then 1 else if s.state.Closing() then 0 else 2
  }

  function Work(s: Snap): nat {
    s.world.budget + |s.world.queue| + (if s.job.Some? then 1 else 0)
  }

  function StageRank(s: Snap): nat {
    match s.state
    case ConnectionIdle => 8
    case SelectDbStart => 7
    case SelectDbWait => 6
    case SelectDbDone => 5
    case QueryStart => 4
    case QueryWait => 3
    case QueryResultReady => 2
    case FetchRowStart | FetchRowWait | FetchRowResultReady => 1
    case ConnectStart | CloseStart => 3
    case ConnectWait | CloseWait => 2
    case _ => 1
  }

  function RowRank(s: Snap): nat {
    if s.live.None? then 0
    else if s.state.FetchRowResultReady? then (if s.row.Some? then 3 * |s.live.value.rows| + 3 else 0)
    else 3 * |s.live.value.rows| + (if s.state.FetchRowStart? then 2 else 1)
  }

  /** The measure of the loop: connection phase, sessions to come, query stage, rows to come. */
  predicate Below(n: Snap, s: Snap) {
    || (!s.parked && n.parked)
    || (n.parked == s.parked && PhaseRank(n) < PhaseRank(s))
    || (n.parked == s.parked && PhaseRank(n) == PhaseRank(s) && Work(n) < Work(s))
    || (n.parked == s.parked && PhaseRank(n) == PhaseRank(s) && Work(n) == Work(s) && StageRank(n) < StageRank(s))
    || (n.parked == s.parked && PhaseRank(n) == PhaseRank(s) && Work(n) == Work(s) &&
        StageRank(n) == StageRank(s) && RowRank(n) < RowRank(s))
  }

  /** The connection is nearer to its end, or it waits again after one call. */
  predicate Ahead(n: Snap, calls: nat, s: Snap, made: nat) {
    Below(n, s) || (n == s && (s.state.Waiting() ==> calls == made + 1))
  }

  lemma AheadAgain(n: Snap, calls: nat, m: Snap, made: nat, s: Snap, first: nat)
    requires Ahead(n, calls, m, made)
    requires Below(m, s) || (m == s && made == first)
    ensures Ahead(n, calls, s, first) && (Below(n, m) ==> Below(n, s))
  {
  }

  predicate Moved(s: Snap, n: Snap, waited: bool) {
    if s.state.Waiting() && waited then n == s else Below(n, s)
  }

  lemma SelectDescends(c: Setting, s: Snap, waited: bool)
    requires s.Ok() && !s.parked && (s.state.SelectDbStart? || s.state.SelectDbWait? || s.state.SelectDbDone?)
    ensures Moved(s, Next(c, s, waited), waited)
  {
  }

  lemma QueryDescends(c: Setting, s: Snap, waited: bool)
    requires s.Ok() && !s.parked && (s.state.QueryStart? || s.state.QueryWait? || s.state.QueryResultReady?)
    ensures Moved(s, Next(c, s, waited), waited)
  {
  }

  lemma FetchDescends(c: Setting, s: Snap, waited: bool)
    requires s.Ok() && !s.parked && s.state.Fetching()
    ensures Moved(s, Next(c, s, waited), waited)
  {
  }

  /** Every step descends, except an operation that waits again and changes nothing. */
  lemma NextDescends(c: Setting, s: Snap, waited: bool)
    requires s.Ok() && !Settled(s)
    ensures Moved(s, Next(c, s, waited), waited)
  {
    match s.state {
      case SelectDbStart | SelectDbWait | SelectDbDone => SelectDescends(c, s, waited);
      case QueryStart | QueryWait | QueryResultReady => QueryDescends(c, s, waited);
      case FetchRowStart | FetchRowWait | FetchRowResultReady => FetchDescends(c, s, waited);
      case _ =>
    }
  }

  /** A property that every step keeps. */
  ghost predicate StepClosed(c: Setting, p: Snap -> bool) {
    forall s: Snap, waited: bool :: s.Ok() && !s.parked && p(s) ==> p(Next(c, s, waited))
  }

  /** The property of heading for `goal`. */
  ghost function HeadsFor(c: Setting, goal: Final): Snap -> bool {
    (s: Snap) => s.Ok() && Future(c, s) == goal
  }

  lemma HeadsForIsStepClosed(c: Setting, goal: Final)
    ensures StepClosed(c, HeadsFor(c, goal))
  {
    forall s: Snap, waited: bool | s.Ok() && !s.parked && Future(c, s) == goal
      ensures Future(c, Next(c, s, waited)) == goal
    {
      NextKeepsFuture(c, s, waited);
    }
  }
}

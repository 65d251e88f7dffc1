/** What serving a queue guarantees: order, graceful closing, and who is told "closed". */
module ExecutorLaws {
  import opened MysqlTypes
  import opened BlockingExecutor

  /** What a completion adds to the queue does not depend on how much of it is already done. */
  lemma CompleteTail(c: Setting, w: World, k: nat, job: Job, outcome: Outcome)
    requires k <= |w.queue|
    ensures Complete(c, w.(queue := w.queue[k..]), job, outcome) ==
            Complete(c, w, job, outcome).(queue := Complete(c, w, job, outcome).queue[k..])
  {
  }

  /** Draining from place i is completing the session there and draining from the next. */
  lemma DrainFrom(c: Setting, w: World, i: nat)
    requires i < |w.queue|
    ensures var v := Complete(c, w, w.queue[i], CLOSED);
            Drain(c, w.(queue := w.queue[i..])) == Drain(c, v.(queue := v.queue[i + 1..]))
  {
    CompleteTail(c, w, i + 1, w.queue[i], CLOSED);
    assert w.queue[i..][1..] == w.queue[i + 1..];
  }

  /** From `at` on, the log shows these jobs completed, in this order. */
  ghost predicate CompletesInOrder(log: seq<Done>, at: nat, jobs: seq<Job>) {
    at + |jobs| <= |log| && forall i :: 0 <= i < |jobs| ==> log[at + i].job == jobs[i]
  }

  /** One completion was added, the job's own; it is not "closed", and is fatal if the connection is lost. */
  ghost predicate LogsOnce(w: World, job: Job, r: Served) {
    && |r.world.log| == |w.log| + 1 && w.log <= r.world.log && w.queue <= r.world.queue
    && var d := r.world.log[|w.log|];
       d.job == job && d.outcome.code != -1 && (r.fatal ==> IsFatalError(d.outcome.code))
  }

  lemma QueryLogsOnce(c: Setting, w: World, job: Job)
    ensures LogsOnce(w, job, QueryAnswered(c, w, job))
  {
  }

  lemma RunQueryLogsOnce(c: Setting, w: World, job: Job)
    ensures LogsOnce(w, job, RunQuery(c, w, job))
  {
    QueryLogsOnce(c, w.Send(Query(job.sql, job.db)), job);
  }

  lemma SelectLogsOnce(c: Setting, w: World, job: Job)
    ensures LogsOnce(w, job, SelectAnswered(c, w, job))
  {
    RunQueryLogsOnce(c, w.(cache := job.db), job);
  }

  lemma ServeLogsOnce(c: Setting, w: World, job: Job)
    ensures LogsOnce(w, job, Serve(c, w, job))
  {
    SelectLogsOnce(c, w.Send(SelectDb(job.db)), job);
    RunQueryLogsOnce(c, w, job);
  }

  /** The session's query was sent and answered with rows. */
  predicate ReadRows(c: Setting, w: World, r: Served) {
    var h := r.world.history;
    |h| > |w.history| && h[|h| - 1].Query? && c.server.queries(h).ResultSet?
  }

  /** The connection is lost exactly on a fatal code that is not the code at the end of a result set. */
  ghost predicate LosesExactly(c: Setting, w: World, r: Served) {
    && |r.world.log| > |w.log|
    && (r.fatal <==> IsFatalError(r.world.log[|w.log|].outcome.code) && !ReadRows(c, w, r))
  }

  lemma RunQueryLosesExactly(c: Setting, w: World, job: Job)
    ensures LosesExactly(c, w, RunQuery(c, w, job))
  {
  }

  lemma SelectLosesExactly(c: Setting, w: World, job: Job)
    requires NeedsSelect(w.cache, job)
    ensures LosesExactly(c, w, Serve(c, w, job))
  {
    RunQueryLosesExactly(c, w.Send(SelectDb(job.db)).(cache := job.db), job);
  }

  /** A session loses the connection if and only if its code is fatal and it is not the code at the end of
      a result set. */
  lemma FatalExactly(c: Setting, w: World, job: Job)
    ensures LosesExactly(c, w, Serve(c, w, job))
  {
    if NeedsSelect(w.cache, job) {
      SelectLosesExactly(c, w, job);
    } else {
      RunQueryLosesExactly(c, w, job);
    }
  }

  /** A server that is lost while rows are read. */
  function LosesRows(): Server {
    Server(_ => true, _ => DbAnswer(0, ""), _ => ResultSet([], [], CR_SERVER_LOST, "lost"), _ => 0)
  }

  /** The server is lost while rows are read: the session ends with a fatal code, and the next one is still
      sent over the same connection. */
  lemma LostRowsKeepConnection(react: seq<Done> -> Reaction)
    ensures var c := Setting(LosesRows(), "", react);
            var job := Job("", "q", false);
            var f := RunAll(c, World([], "", [], [job, job], 0, false));
            && f.open && f.world.history == [Query("q", ""), Query("q", "")]
            && |f.world.log| == 2 && IsFatalError(f.world.log[0].outcome.code)
  {
    var c := Setting(LosesRows(), "", react);
    var job := Job("", "q", false);
    var w := World([], "", [], [job, job], 0, false);
    var first := Serve(c, w.(queue := [job]), job).world;
    assert w.queue[1..] == [job] && first.queue == [job];
    assert RunAll(c, w) == RunAll(c, first);
    var second := Serve(c, first.(queue := []), job).world;
    assert first.queue[1..] == [] && second.queue == [];
    assert RunAll(c, first) == RunAll(c, second);
  }

  lemma {:induction false} DrainLogs(c: Setting, w: World)
    ensures w.log <= Drain(c, w).log && Drain(c, w).queue == []
    ensures CompletesInOrder(Drain(c, w).log, |w.log|, w.queue)
    decreases w.budget + |w.queue|
  {
    if w.queue != [] {
      var v := Complete(c, w.(queue := w.queue[1..]), w.queue[0], CLOSED);
      DrainLogs(c, v);
      OrderFromRest(Drain(c, v).log, |w.log|, w.queue, v.queue);
    }
  }

  lemma OrderFromRest(log: seq<Done>, at: nat, jobs: seq<Job>, after: seq<Job>)
    requires |jobs| > 0 && at < |log| && log[at].job == jobs[0]
    requires jobs[1..] <= after && CompletesInOrder(log, at + 1, after)
    ensures CompletesInOrder(log, at, jobs)
  {
    assert forall i :: 0 < i < |jobs| ==> jobs[i] == after[i - 1] && log[at + 1 + (i - 1)].job == after[i - 1];
  }

  /** From w to f everything queued was completed, in order. */
  ghost predicate InOrder(w: World, f: World) {
    w.log <= f.log && f.queue == [] && CompletesInOrder(f.log, |w.log|, w.queue)
  }

  lemma InOrderFromRest(w: World, job: Job, r: Served, f: World)
    requires w.queue != [] && w.queue[0] == job && LogsOnce(w.(queue := w.queue[1..]), job, r) && InOrder(r.world, f)
    ensures InOrder(w, f)
  {
    OrderFromRest(f.log, |w.log|, w.queue, r.world.queue);
  }

  /** Queued sessions complete in the order they were queued, before anything a callback adds. */
  lemma {:induction false} RunAllInOrder(c: Setting, w: World)
    ensures InOrder(w, RunAll(c, w).world)
    decreases w.budget + |w.queue|
  {
    if w.queue == [] {
      DrainLogs(c, w.Send(Close));
    } else {
      var rest := w.(queue := w.queue[1..]);
      var r := Serve(c, rest, w.queue[0]);
      ServeLogsOnce(c, rest, w.queue[0]);
      if r.fatal {
        DrainLogs(c, r.world.Send(Close));
      } else {
        RunAllInOrder(c, r.world);
      }
      InOrderFromRest(w, w.queue[0], r, Continue(c, r).world);
    }
  }

  lemma {:induction false} DrainSpends(c: Setting, w: World)
    ensures Drain(c, w).budget <= w.budget
    decreases w.budget + |w.queue|
  {
    if w.queue != [] {
      DrainSpends(c, Complete(c, w.(queue := w.queue[1..]), w.queue[0], CLOSED));
    }
  }

  /** Some callback that runs while the queue is drained submits a session. */
  predicate DrainSubmits(c: Setting, w: World)
    decreases w.budget + |w.queue|
  {
    w.queue != [] &&
    var v := Complete(c, w.(queue := w.queue[1..]), w.queue[0], CLOSED);
    v.budget < w.budget || DrainSubmits(c, v)
  }

  lemma {:induction false} DrainSubmitsExactly(c: Setting, w: World)
    ensures DrainSubmits(c, w) <==> Drain(c, w).budget < w.budget
    decreases w.budget + |w.queue|
  {
    if w.queue != [] {
      var v := Complete(c, w.(queue := w.queue[1..]), w.queue[0], CLOSED);
      DrainSpends(c, v);
      DrainSubmitsExactly(c, v);
    }
  }

  /** If no callback submits, then neither does the next one. */
  lemma QuietDrainStep(c: Setting, w: World, i: nat)
    requires i < |w.queue| && !DrainSubmits(c, w.(queue := w.queue[i..]))
    ensures var v := Complete(c, w, w.queue[i], CLOSED);
            v.budget == w.budget && !DrainSubmits(c, v.(queue := v.queue[i + 1..]))
  {
    CompleteTail(c, w, i + 1, w.queue[i], CLOSED);
    assert w.queue[i..][1..] == w.queue[i + 1..];
  }

  /** If some callback submits and the next one does not, then a later one does. */
  lemma LoudDrainStep(c: Setting, w: World, i: nat)
    requires i < |w.queue| && DrainSubmits(c, w.(queue := w.queue[i..]))
    requires Complete(c, w, w.queue[i], CLOSED).budget == w.budget
    ensures var v := Complete(c, w, w.queue[i], CLOSED);
            DrainSubmits(c, v.(queue := v.queue[i + 1..]))
  {
    CompleteTail(c, w, i + 1, w.queue[i], CLOSED);
    assert w.queue[i..][1..] == w.queue[i + 1..];
  }

  /** Draining tells everybody "closed". */
  lemma {:induction false} DrainTellsClosed(c: Setting, w: World)
    ensures w.log <= Drain(c, w).log
    ensures forall i :: |w.log| <= i < |Drain(c, w).log| ==> Drain(c, w).log[i].outcome == CLOSED
    decreases w.budget + |w.queue|
  {
    if w.queue != [] {
      var v := Complete(c, w.(queue := w.queue[1..]), w.queue[0], CLOSED);
      DrainTellsClosed(c, v);
      assert Drain(c, w).log[|w.log|] == v.log[|w.log|];
    }
  }

  /** "closed" is only ever reported after an earlier completion with a fatal error. */
  ghost predicate ClosedOnlyAfterFatal(log: seq<Done>, from: nat) {
    forall i :: from <= i < |log| && log[i].outcome.code == -1 ==>
      exists j :: from <= j < i && IsFatalError(log[j].outcome.code)
  }

  /** Without a fatal error every queued session is served, even when the connection is to close. */
  lemma {:induction false} ClosedNeedsFatal(c: Setting, w: World)
    ensures ClosedOnlyAfterFatal(RunAll(c, w).world.log, |w.log|)
    decreases w.budget + |w.queue|
  {
    RunAllInOrder(c, w);
    if w.queue != [] {
      var rest := w.(queue := w.queue[1..]);
      var r := Serve(c, rest, w.queue[0]);
      ServeLogsOnce(c, rest, w.queue[0]);
      if r.fatal {
        DrainLogs(c, r.world.Send(Close));
      } else {
        RunAllInOrder(c, r.world);
        ClosedNeedsFatal(c, r.world);
      }
      var log := RunAll(c, w).world.log;
      assert log[|w.log|] == r.world.log[|w.log|];
    }
  }

  function ToClose(w: World): World {
    w.(closing := true)
  }

  function ServedToClose(r: Served): Served {
    Served(ToClose(r.world), r.fatal)
  }

  lemma RunQueryIgnoresClosing(c: Setting, w: World, job: Job)
    ensures RunQuery(c, ToClose(w), job) == ServedToClose(RunQuery(c, w, job))
  {
    assert ToClose(w).Send(Query(job.sql, job.db)) == ToClose(w.Send(Query(job.sql, job.db)));
  }

  lemma SelectIgnoresClosing(c: Setting, w: World, job: Job)
    ensures SelectAnswered(c, ToClose(w), job) == ServedToClose(SelectAnswered(c, w, job))
  {
    RunQueryIgnoresClosing(c, w.(cache := job.db), job);
    assert ToClose(w).(cache := job.db) == ToClose(w.(cache := job.db));
  }

  lemma ServeIgnoresClosing(c: Setting, w: World, job: Job)
    ensures Serve(c, ToClose(w), job) == ServedToClose(Serve(c, w, job))
  {
    RunQueryIgnoresClosing(c, w, job);
    SelectIgnoresClosing(c, w.Send(SelectDb(job.db)), job);
    assert ToClose(w).Send(SelectDb(job.db)) == ToClose(w.Send(SelectDb(job.db)));
  }

  lemma {:induction false} DrainIgnoresClosing(c: Setting, w: World)
    ensures Drain(c, ToClose(w)) == ToClose(Drain(c, w))
    decreases w.budget + |w.queue|
  {
    if w.queue != [] {
      DrainIgnoresClosing(c, Complete(c, w.(queue := w.queue[1..]), w.queue[0], CLOSED));
    }
  }

  /** For the blocking client, asking to close changes no outcome: every session already queued, and every
      one its callbacks add, completes as it would have; only then is the connection closed. */
  lemma {:induction false} RunAllIgnoresClosing(c: Setting, w: World)
    ensures RunAll(c, ToClose(w)).world.log == RunAll(c, w).world.log
    ensures !RunAll(c, ToClose(w)).open
    decreases w.budget + |w.queue|
  {
    if w.queue == [] {
    } else {
      var rest := w.(queue := w.queue[1..]);
      var r := Serve(c, rest, w.queue[0]);
      ServeIgnoresClosing(c, rest, w.queue[0]);
      assert ToClose(w).(queue := w.queue[1..]) == ToClose(rest);
      if r.fatal {
        DrainIgnoresClosing(c, r.world.Send(Close));
        assert ToClose(r.world).Send(Close) == ToClose(r.world.Send(Close));
      } else {
        RunAllIgnoresClosing(c, r.world);
      }
    }
  }
}

/** The fork and join of boot and cleanup tasks. */
module BootTasks {

  /** `ExcRunType`; a value outside the enumeration falls into the empty default branch. */
  datatype RunType = SequenceType | AsyncRunType | AsyncCoroType | Unknown

  datatype BootTask = BootTask(runType: RunType, succeeds: bool)

  predicate Runs(tasks: seq<BootTask>, i: nat) {
    i < |tasks| && !tasks[i].runType.Unknown?
  }

  predicate Async(tasks: seq<BootTask>, i: nat) {
    i < |tasks| && (tasks[i].runType.AsyncRunType? || tasks[i].runType.AsyncCoroType?)
  }

  predicate InSequence(tasks: seq<BootTask>, i: nat) {
    i < |tasks| && tasks[i].runType.SequenceType?
  }

  predicate Fails(tasks: seq<BootTask>, i: nat) {
    i < |tasks| && !tasks[i].succeeds
  }

  /** No task ran twice. */
  ghost predicate Once(ran: seq<nat>) {
    forall a, b :: 0 <= a < b < |ran| ==> ran[a] != ran[b]
  }

  /** The tasks that run in sequence ran in the order of registration. */
  ghost predicate InOrder(tasks: seq<BootTask>, ran: seq<nat>) {
    forall a, b :: 0 <= a < b < |ran| && InSequence(tasks, ran[a]) && InSequence(tasks, ran[b]) ==> ran[a] < ran[b]
  }

  /** Exactly the tasks that have run and failed are on the failure list. */
  ghost predicate Noted(tasks: seq<BootTask>, ran: seq<nat>, failed: seq<nat>) {
    forall i: nat :: i in failed <==> i in ran && Fails(tasks, i)
  }

  lemma RanSnoc(tasks: seq<BootTask>, ran: seq<nat>, failed: seq<nat>, i: nat)
    requires Once(ran) && InOrder(tasks, ran) && Noted(tasks, ran, failed) && i !in ran
    requires InSequence(tasks, i) ==> forall k :: k in ran && InSequence(tasks, k) ==> k < i
    ensures Once(ran + [i]) && InOrder(tasks, ran + [i])
    ensures Noted(tasks, ran + [i], if Fails(tasks, i) then failed + [i] else failed)
  {
  }

  /** One run of `RunBootupTask` or `RunCleanupTask`: the launch loop on one side, the bodies of the
      asynchronous tasks on the other. */
  class TaskRun {
    const tasks: seq<BootTask>

    /** Tasks the launch loop has passed. */
    var launched: nat
    /** The count of the wait group. */
    var waiting: nat
    /** The failure list, which lives on the stack of the run. */
    var failed: seq<nat>
    /** Bodies that were posted but have not begun. */
    var posted: set<nat>
    /** Bodies that have run their task and noted a failure, but have not called `Done`. */
    var finishing: set<nat>
    /** The tasks in the order in which they ran. */
    var ran: seq<nat>

    /** The wait group counts the bodies that are not done. */
    ghost predicate Counts()
      reads this
    {
      && posted !! finishing && waiting == |posted| + |finishing|
      && (forall i: nat :: i in posted || i in finishing ==> i < launched && Async(tasks, i))
    }

    ghost predicate Records()
      reads this
    {
      && (forall i: nat :: i in ran <==> i < launched && Runs(tasks, i) && i !in posted)
      && Once(ran) && InOrder(tasks, ran) && Noted(tasks, ran, failed)
    }

    ghost predicate Valid()
      reads this
    {
      launched <= |tasks| && Counts() && Records()
    }

    constructor (tasks: seq<BootTask>)
      ensures Valid() && this.tasks == tasks && launched == 0 && posted == {} && finishing == {} && ran == []
    {
      this.tasks := tasks;
      launched, waiting, failed, posted, finishing, ran := 0, 0, [], {}, {}, [];
    }

    /** Run a task and note its failure: the only place that touches the failure list. */
    method RunTask(i: nat)
      requires i < |tasks| && i !in ran && Once(ran) && InOrder(tasks, ran) && Noted(tasks, ran, failed)
      requires InSequence(tasks, i) ==> forall k :: k in ran && InSequence(tasks, k) ==> k < i
      modifies this`ran, this`failed
      ensures ran == old(ran) + [i] && Once(ran) && InOrder(tasks, ran) && Noted(tasks, ran, failed)
    {
      RanSnoc(tasks, ran, failed, i);
      ran := ran + [i];
      if !tasks[i].succeeds {
        failed := failed + [i];
      }
    }

    /** One turn of the launch loop. */
    method LaunchNext()
      requires Valid() && launched < |tasks|
      modifies this
      ensures Valid() && launched == old(launched) + 1 && finishing == old(finishing)
      ensures posted == if Async(tasks, old(launched)) then old(posted) + {old(launched)} else old(posted)
      ensures match tasks[old(launched)].runType
              case SequenceType => ran == old(ran) + [old(launched)] && posted == old(posted)
              case AsyncRunType | AsyncCoroType => ran == old(ran) && posted == old(posted) + {old(launched)}
              case Unknown => ran == old(ran) && posted == old(posted)
    {
      var i := launched;
      match tasks[i].runType {
        case SequenceType =>
          RunTask(i);
        case AsyncRunType | AsyncCoroType =>
          waiting := waiting + 1;
          posted := posted + {i};
        case Unknown =>
      }
      launched := launched + 1;
    }

    /** The loop or a coroutine runs the body of a posted task. */
    method BodyRuns(i: nat)
      requires Valid() && i in posted
      modifies this`posted, this`finishing, this`ran, this`failed
      ensures Valid() && posted == old(posted) - {i} && finishing == old(finishing) + {i}
    {
      RunTask(i);
      posted := posted - {i};
      finishing := finishing + {i};
    }

    method BodyDone(i: nat)
      requires Valid() && i in finishing
      modifies this`finishing, this`waiting
      ensures Valid() && finishing == old(finishing) - {i}
    {
      finishing := finishing - {i};
      waiting := waiting - 1;
    }

    ghost function Remaining(): nat
      requires launched <= |tasks|
      reads this
    {
      3 * (|tasks| - launched) + 2 * |posted| + |finishing|
    }

    /** Something moves: the body that `choice` names if it can, else the launch loop, else any body. */
    method Move(choice: nat)
      requires Valid() && (launched < |tasks| || waiting > 0)
      modifies this
      ensures Valid() && Remaining() < old(Remaining())
    {
      if choice in posted {
        BodyRuns(choice);
      } else if choice in finishing {
        BodyDone(choice);
      } else if launched < |tasks| {
        LaunchNext();
      } else if finishing != {} {
        var i :| i in finishing;
        BodyDone(i);
      } else {
        assert posted != {};
        var i :| i in posted;
        BodyRuns(i);
      }
    }

    /** The whole run, under every interleaving of the bodies with the launch loop: when `Wait` returns no
        body is left that could touch the failure list, every task of a known type has run exactly once,
        those in sequence in the order of registration, and the result tells whether all succeeded. */
    method RunAll(choices: nat -> nat) returns (success: bool)
      requires Valid() && launched == 0 && posted == {} && finishing == {} && ran == []
      modifies this
      ensures posted == {} && finishing == {}
      ensures (forall i: nat :: i in ran <==> Runs(tasks, i)) && Once(ran) && InOrder(tasks, ran)
      ensures success <==> forall i: nat :: Runs(tasks, i) ==> !Fails(tasks, i)
    {
      var tick := 0;
      while launched < |tasks| || waiting > 0
        invariant Valid()
        decreases Remaining()
      {
        Move(choices(tick));
        tick := tick + 1;
      }
      success := failed == [];
      if !success {
        assert failed[0] in failed;
      }
    }
  }
}

/** The handshake of `LockContext` and `ResumeContext`, in atomic steps under a spin lock. */
module Wakeup {

  /** Where the waiting coroutine is in `Wait`: outside, holding the lock before and after it installs
      its resumer, unlocked, returned at once, or yielded. */
  datatype Waiter = Outside | Locked | Installed | Unlocked | Returned | Yielded

  /** Where a completion is in `ResumeContext`; `found`: it looked after the waiter had installed its resumer. */
  datatype Resumer = Idle | SuccessSet | DoneSet | Holding | Checked(found: bool) | Finished(found: bool) {
    /** The look at the installed resumer is behind it. */
    predicate Looked() {
      Checked? || Finished?
    }

    predicate Found() {
      (Checked? || Finished?) && found
    }

    predicate Stored() {
      !Idle? && !SuccessSet?
    }
  }

  datatype Holder = Free | ByWaiter | ByResumer(index: nat)

  /** `wakes` counts how often the installed resumer was invoked; `stored`: a result was stored. */
  datatype System = System(
    waiter: Waiter, resumers: seq<Resumer>, lock: Holder, installed: bool, stored: bool, done: bool,
    wakes: nat)

  function Initial(completions: nat): System {
    System(Outside, seq(completions, _ => Idle), Free, false, false, false, 0)
  }

  /** One atomic step of the waiter, if it can make one. */
  function WaiterStep(s: System): System {
    match s.waiter
    case Outside => if s.lock.Free? then s.(waiter := Locked, lock := ByWaiter) else s
    case Locked => s.(waiter := Installed, installed := true)
    case Installed => s.(waiter := Unlocked, lock := Free)
    case Unlocked => s.(waiter := if s.done then Returned else Yielded)
    case Returned => s
    case Yielded => s
  }

  /** One atomic step of completion i, if it can make one. */
  function ResumerStep(s: System, i: nat): System
    requires i < |s.resumers|
  {
    match s.resumers[i]
    case Idle => s.(resumers := s.resumers[i := SuccessSet], stored := true)
    case SuccessSet => s.(resumers := s.resumers[i := DoneSet], done := true)
    case DoneSet => if s.lock.Free? then s.(resumers := s.resumers[i := Holding], lock := ByResumer(i)) else s
    case Holding =>
      s.(resumers := s.resumers[i := Checked(s.installed)], wakes := if s.installed then s.wakes + 1 else s.wakes)
    case Checked(found) => s.(resumers := s.resumers[i := Finished(found)], lock := Free)
    case Finished(_) => s
  }

  /** `who` is 0 for the waiter and i + 1 for completion i. */
  function Step(s: System, who: nat): System {
    if who == 0 then WaiterStep(s)
    else if who <= |s.resumers| then ResumerStep(s, who - 1)
    else s
  }

  function Run(s: System, schedule: seq<nat>): System
    decreases |schedule|
  {
    if schedule == [] then s else Run(Step(s, schedule[0]), schedule[1..])
  }

  ghost predicate Excludes(s: System) {
    && (s.lock.ByWaiter? <==> s.waiter.Locked? || s.waiter.Installed?)
    && (forall i :: 0 <= i < |s.resumers| ==>
          (s.lock == ByResumer(i) <==> s.resumers[i].Holding? || s.resumers[i].Checked?))
  }

  /** A waiter that goes to sleep saw no completion, so each completion looks for its resumer later. */
  ghost predicate Inv(s: System) {
    && Excludes(s)
    && (s.installed <==> !s.waiter.Outside? && !s.waiter.Locked?)
    && (forall i :: 0 <= i < |s.resumers| && s.resumers[i].Stored() ==> s.done)
    && (s.waiter.Returned? || s.wakes > 0 ==> s.done)
    && (s.done ==> s.stored) && (forall i :: 0 <= i < |s.resumers| && !s.resumers[i].Idle? ==> s.stored)
    && (s.waiter.Yielded? ==> forall i :: 0 <= i < |s.resumers| && s.resumers[i].Looked() ==> s.wakes > 0)
  }

  lemma WaiterKeepsInv(s: System)
    requires Inv(s)
    ensures Inv(WaiterStep(s))
  {
  }

  lemma ResumerKeepsInv(s: System, i: nat)
    requires Inv(s) && i < |s.resumers|
    ensures Inv(ResumerStep(s, i))
  {
  }

  lemma {:induction false} RunKeepsInv(s: System, schedule: seq<nat>)
    requires Inv(s)
    ensures Inv(Run(s, schedule)) && |Run(s, schedule).resumers| == |s.resumers|
    decreases |schedule|
  {
    if schedule != [] {
      var who := schedule[0];
      if who == 0 {
        WaiterKeepsInv(s);
      } else if who <= |s.resumers| {
        ResumerKeepsInv(s, who - 1);
      }
      RunKeepsInv(Step(s, who), schedule[1..]);
    }
  }

  /** No wakeup is lost: in every interleaving with any number of completions, once one of them has
      finished, a waiter that went to sleep has been woken, and any other finds the context done and
      returns at once. */
  lemma NoLostWakeup(completions: nat, schedule: seq<nat>, i: nat)
    requires i < completions
    ensures var s := Run(Initial(completions), schedule);
            |s.resumers| == completions &&
            (s.resumers[i].Finished? ==> if s.waiter.Yielded? then s.wakes > 0 else s.done)
  {
    RunKeepsInv(Initial(completions), schedule);
  }

  /** Nobody is woken, and nobody returns at once, before a completion has stored its result. */
  lemma NoEarlyWakeup(completions: nat, schedule: seq<nat>)
    ensures var s := Run(Initial(completions), schedule);
            s.waiter.Returned? || s.wakes > 0 ==> s.stored && s.done
  {
    RunKeepsInv(Initial(completions), schedule);
  }

  // ---------------------------------------------------------------- how often

  function Finders(resumers: seq<Resumer>): (n: nat)
    ensures n <= |resumers|
  {
    if resumers == [] then 0
    else Finders(resumers[..|resumers| - 1]) + (if resumers[|resumers| - 1].Found() then 1 else 0)
  }

  lemma {:induction false} FindersPut(resumers: seq<Resumer>, i: nat, r: Resumer)
    requires i < |resumers|
    ensures Finders(resumers[i := r]) ==
            Finders(resumers) - (if resumers[i].Found() then 1 else 0) + (if r.Found() then 1 else 0)
  {
    var n := |resumers| - 1;
    if i < n {
      FindersPut(resumers[..n], i, r);
      assert resumers[i := r][..n] == resumers[..n][i := r];
    } else {
      assert resumers[i := r][..n] == resumers[..n];
    }
  }

  lemma {:induction false} NobodyFinds(resumers: seq<Resumer>)
    requires forall i :: 0 <= i < |resumers| ==> resumers[i].Idle?
    ensures Finders(resumers) == 0
  {
    if resumers != [] {
      NobodyFinds(resumers[..|resumers| - 1]);
    }
  }

  lemma LookCountsWakes(s: System, i: nat)
    requires i < |s.resumers| && s.resumers[i].Holding? && s.wakes == Finders(s.resumers)
    ensures ResumerStep(s, i).wakes == Finders(ResumerStep(s, i).resumers)
  {
    FindersPut(s.resumers, i, Checked(s.installed));
  }

  lemma ResumerCountsWakes(s: System, i: nat)
    requires i < |s.resumers| && s.wakes == Finders(s.resumers)
    ensures ResumerStep(s, i).wakes == Finders(ResumerStep(s, i).resumers)
  {
    match s.resumers[i]
    case Idle => FindersPut(s.resumers, i, SuccessSet);
    case SuccessSet => FindersPut(s.resumers, i, DoneSet);
    case DoneSet => FindersPut(s.resumers, i, Holding);
    case Holding => LookCountsWakes(s, i);
    case Checked(found) => FindersPut(s.resumers, i, Finished(found));
    case Finished(_) =>
  }

  lemma StepCountsWakes(s: System, who: nat)
    requires s.wakes == Finders(s.resumers)
    ensures Step(s, who).wakes == Finders(Step(s, who).resumers)
  {
    if 0 < who <= |s.resumers| {
      ResumerCountsWakes(s, who - 1);
    }
  }

  lemma {:induction false} RunCountsWakes(s: System, schedule: seq<nat>)
    requires s.wakes == Finders(s.resumers)
    ensures Run(s, schedule).wakes == Finders(Run(s, schedule).resumers)
    decreases |schedule|
  {
    if schedule != [] {
      StepCountsWakes(s, schedule[0]);
      RunCountsWakes(Step(s, schedule[0]), schedule[1..]);
    }
  }

  lemma {:induction false} TwoFinders(resumers: seq<Resumer>, i: nat, j: nat)
    requires i < j < |resumers| && resumers[i].Found() && resumers[j].Found()
    ensures Finders(resumers) >= 2
  {
    var n := |resumers| - 1;
    if j < n {
      TwoFinders(resumers[..n], i, j);
    } else {
      OneFinder(resumers[..n], i);
    }
  }

  lemma {:induction false} OneFinder(resumers: seq<Resumer>, i: nat)
    requires i < |resumers| && resumers[i].Found()
    ensures Finders(resumers) >= 1
  {
    var n := |resumers| - 1;
    if i < n {
      OneFinder(resumers[..n], i);
    }
  }

  lemma {:induction false} SomeFinder(resumers: seq<Resumer>) returns (i: nat)
    requires Finders(resumers) >= 1
    ensures i < |resumers| && resumers[i].Found()
  {
    var n := |resumers| - 1;
    if resumers[n].Found() {
      i := n;
    } else {
      i := SomeFinder(resumers[..n]);
    }
  }

  lemma {:induction false} SomeTwoFinders(resumers: seq<Resumer>) returns (i: nat, j: nat)
    requires Finders(resumers) >= 2
    ensures i < j < |resumers| && resumers[i].Found() && resumers[j].Found()
  {
    var n := |resumers| - 1;
    if resumers[n].Found() {
      i := SomeFinder(resumers[..n]);
      j := n;
    } else {
      i, j := SomeTwoFinders(resumers[..n]);
    }
  }

  /** Nobody clears the installed resumer: it is invoked once by every completion that looks after it was
      installed, so more than once exactly if two of them do. */
  lemma WakesExactly(completions: nat, schedule: seq<nat>)
    ensures var s := Run(Initial(completions), schedule);
            && s.wakes == Finders(s.resumers)
            && (s.wakes > 1 <==>
                  exists i: nat, j: nat :: i < j < |s.resumers| && s.resumers[i].Found() && s.resumers[j].Found())
  {
    NobodyFinds(Initial(completions).resumers);
    RunCountsWakes(Initial(completions), schedule);
    var s := Run(Initial(completions), schedule);
    if s.wakes > 1 {
      var i, j := SomeTwoFinders(s.resumers);
    } else if i: nat, j: nat :| i < j < |s.resumers| && s.resumers[i].Found() && s.resumers[j].Found() {
      TwoFinders(s.resumers, i, j);
    }
  }
}

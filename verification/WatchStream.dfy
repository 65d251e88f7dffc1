/** A watch stream: the coroutines that create, read and stop it, against the callbacks of the stream. */
module WatchStream {
  import opened Options

  datatype Event = Event(deleted: bool, key: string, value: string)

  datatype Response = Response(watchId: int, canceled: bool, events: seq<Event>)

  /** `Start`: not called, asleep on the create request or its response, failed, or done. */
  datatype Starter = Unstarted | AwaitsCreateWrite(op: nat) | AwaitsCreateRead(op: nat) | StartFailed | Started

  /** `watch_change_loop`: not spawned, about to read, asleep on a read, or over. */
  datatype Reader = Unspawned | Reading | AwaitsRead(op: nat) | Ended

  /** `StopWatch`: not called or over, asleep on the cancel request, or on the half-close. */
  datatype Stopper = Inactive | AwaitsCancelWrite(op: nat) | AwaitsHalfClose(op: nat)

  datatype Who = TheStarter | TheReader | TheStopper

  /** A `CallContext`, as the coroutines use it. */
  datatype Context = Context(success: bool, canceled: bool, resumer: Option<Who>)

  /** A resume that the loop has yet to run: for which operation, how that ended, and what a read brought. */
  datatype Wake = Wake(op: nat, ok: bool, response: Response)

  /** What one of the reader's own reads brought. */
  datatype Seen = Seen(ok: bool, response: Response) {
    predicate Good() {
      ok && !response.canceled
    }
  }

  datatype System = System(
    starter: Starter, reader: Reader, stopper: Stopper,
    readCtx: Context, writeCtx: Context,
    readsOut: set<nat>, writesOut: set<nat>, nextOp: nat,
    wakes: map<Who, Wake>,
    watchId: int, response: Response,
    seen: seq<Seen>, accepted: seq<seq<Event>>, handled: seq<nat>, delivered: seq<(nat, Event)>)

  const NO_RESPONSE := Response(-1, false, [])

  function Initial(): System {
    System(Unstarted, Unspawned, Inactive, Context(false, false, None), Context(false, false, None),
           {}, {}, 0, map[], -1, NO_RESPONSE, [], [], [], [])
  }

  /** `LockContext`, `StartRead`, `CO_YIELD`. */
  function IssueRead(s: System, who: Who): System {
    s.(readCtx := s.readCtx.(resumer := Some(who)), readsOut := s.readsOut + {s.nextOp}, nextOp := s.nextOp + 1)
  }

  /** `LockContext`, `StartWrite` or `StartWritesDone`, `CO_YIELD`. */
  function IssueWrite(s: System, who: Who): System {
    s.(writeCtx := s.writeCtx.(resumer := Some(who)), writesOut := s.writesOut + {s.nextOp}, nextOp := s.nextOp + 1)
  }

  datatype Step =
    | CallStart | CallStop | ReaderRuns
    | Resume(who: Who)
    | ReadCompletes(rop: nat, ok: bool, response: Response)
    | WriteCompletes(wop: nat, ok: bool)
    | RpcDone
    | HandlerRuns(index: nat)

  function Woken(s: System, who: Who): System {
    s.(wakes := s.wakes - {who})
  }

  function StarterResumes(s: System): System {
    match s.starter
    case AwaitsCreateWrite(_) =>
      if !s.writeCtx.success then s.(starter := StartFailed)
      else IssueRead(s.(starter := AwaitsCreateRead(s.nextOp)), TheStarter)
    case AwaitsCreateRead(_) =>
      if !s.readCtx.success then s.(starter := StartFailed)
      else s.(starter := Started, watchId := s.response.watchId, reader := Reading)
    case _ => s
  }

  /** A good response is handed to a coroutine of its own; a bad or canceled one ends the loop. */
  function ReaderResumes(s: System): System {
    if !s.reader.AwaitsRead? then s
    else if !s.readCtx.success || s.response.canceled then s.(reader := Ended)
    else s.(accepted := s.accepted + [s.response.events], handled := s.handled + [0],
            reader := if s.readCtx.canceled then Ended else Reading)
  }

  function StopperResumes(s: System): System {
    match s.stopper
    case AwaitsCancelWrite(_) =>
      if !s.writeCtx.success then s.(stopper := Inactive)
      else IssueWrite(s.(readCtx := s.readCtx.(canceled := true), stopper := AwaitsHalfClose(s.nextOp)), TheStopper)
    case AwaitsHalfClose(_) => s.(stopper := Inactive)
    case Inactive => s
  }

  /** `ResumeContext`: the result is stored and the installed resumer schedules its coroutine. */
  function Resumed(ctx: Context, wakes: map<Who, Wake>, wake: Wake): map<Who, Wake> {
    if ctx.resumer.Some? then wakes[ctx.resumer.value := wake] else wakes
  }

  /** One step, if it can happen. */
  function Next(s: System, step: Step): System {
    match step
    case CallStart =>
      if !s.starter.Unstarted? then s
      else IssueWrite(s.(starter := AwaitsCreateWrite(s.nextOp)), TheStarter)
    case CallStop =>
      if !s.stopper.Inactive? || s.watchId <= 0 then s
      else IssueWrite(s.(stopper := AwaitsCancelWrite(s.nextOp)), TheStopper)
    case ReaderRuns =>
      if !s.reader.Reading? then s
      else IssueRead(s.(reader := AwaitsRead(s.nextOp)), TheReader)
    case Resume(who) =>
      if who !in s.wakes then s
      else
        var wake := s.wakes[who];
        var s := Woken(s, who);
        (match who
         case TheStarter => StarterResumes(s)
         case TheReader =>
           var seen := if s.reader.AwaitsRead? then s.seen + [Seen(wake.ok, wake.response)] else s.seen;
           ReaderResumes(s).(seen := seen)
         case TheStopper => StopperResumes(s))
    case ReadCompletes(op, ok, response) =>
      if op !in s.readsOut then s
      else
        var shown := if ok then response else s.response;
        s.(readsOut := s.readsOut - {op}, response := shown,
           readCtx := s.readCtx.(success := ok), wakes := Resumed(s.readCtx, s.wakes, Wake(op, ok, shown)))
    case WriteCompletes(op, ok) =>
      if op !in s.writesOut then s
      else s.(writesOut := s.writesOut - {op},
              writeCtx := s.writeCtx.(success := ok), wakes := Resumed(s.writeCtx, s.wakes, Wake(op, ok, NO_RESPONSE)))
    case RpcDone => s.(readCtx := s.readCtx.(canceled := true))
    case HandlerRuns(k) =>
      if k < |s.accepted| && k < |s.handled| && s.handled[k] < |s.accepted[k]| then
        s.(delivered := s.delivered + [(k, s.accepted[k][s.handled[k]])], handled := s.handled[k := s.handled[k] + 1])
      else s
  }

  function Run(s: System, steps: seq<Step>): System
    decreases |steps|
  {
    if steps == [] then s else Run(Next(s, steps[0]), steps[1..])
  }

  // ---------------------------------------------------------------- invariants

  /** Who sleeps on which read. */
  function ReadSleeper(s: System): Option<(Who, nat)> {
    if s.starter.AwaitsCreateRead? then Some((TheStarter, s.starter.op))
    else if s.reader.AwaitsRead? then Some((TheReader, s.reader.op))
    else None
  }

  function WriteSleeper(s: System): Option<(Who, nat)> {
    if s.starter.AwaitsCreateWrite? then Some((TheStarter, s.starter.op))
    else if s.stopper.AwaitsCancelWrite? || s.stopper.AwaitsHalfClose? then Some((TheStopper, s.stopper.op))
    else None
  }

  /** A sleeper's operation is the only one outstanding, or it has completed and its resume, which
      carries the result that the context shows, is under way. */
  predicate Handshake(
    sleeper: Option<(Who, nat)>, outstanding: set<nat>, ctx: Context, wakes: map<Who, Wake>, shown: Response)
  {
    if sleeper.None? then outstanding == {}
    else
      var (who, op) := sleeper.value;
      && ctx.resumer == Some(who)
      && (|| (outstanding == {op} && who !in wakes)
          || (outstanding == {} && who in wakes && wakes[who] == Wake(op, ctx.success, shown)))
  }

  predicate Phases(s: System) {
    && (!s.reader.Unspawned? ==> s.starter.Started?)
    && (s.watchId > 0 ==> s.starter.Started?)
    && (!s.stopper.Inactive? ==> s.watchId > 0)
  }

  /** Only sleepers are woken. */
  predicate Asleep(s: System) {
    && (TheStarter in s.wakes ==> s.starter.AwaitsCreateWrite? || s.starter.AwaitsCreateRead?)
    && (TheReader in s.wakes ==> s.reader.AwaitsRead?)
    && (TheStopper in s.wakes ==> !s.stopper.Inactive?)
  }

  predicate StreamInv(s: System) {
    && Phases(s) && Asleep(s)
    && Handshake(ReadSleeper(s), s.readsOut, s.readCtx, s.wakes, s.response)
    && Handshake(WriteSleeper(s), s.writesOut, s.writeCtx, s.wakes, NO_RESPONSE)
  }

  /** What the handler has been given of response k, in order. */
  function DeliveredOf(delivered: seq<(nat, Event)>, k: nat): seq<Event> {
    if delivered == [] then [] else
    var before := DeliveredOf(delivered[..|delivered| - 1], k);
    var (r, event) := delivered[|delivered| - 1];
    if r == k then before + [event] else before
  }

  ghost predicate DeliveryInv(s: System) {
    && |s.handled| == |s.accepted|
    && (forall k :: 0 <= k < |s.accepted| ==>
          s.handled[k] <= |s.accepted[k]| && DeliveredOf(s.delivered, k) == s.accepted[k][..s.handled[k]])
    && (forall i :: 0 <= i < |s.delivered| ==> s.delivered[i].0 < |s.accepted|)
  }

  lemma ResumeKeepsStream(s: System, who: Who)
    requires StreamInv(s)
    ensures StreamInv(Next(s, Resume(who)))
  {
  }

  lemma CompletionKeepsStream(s: System, step: Step)
    requires StreamInv(s) && (step.ReadCompletes? || step.WriteCompletes?)
    ensures StreamInv(Next(s, step))
  {
  }

  lemma NextKeepsStream(s: System, step: Step)
    requires StreamInv(s)
    ensures StreamInv(Next(s, step))
  {
    match step {
      case Resume(who) => ResumeKeepsStream(s, who);
      case ReadCompletes(_, _, _) => CompletionKeepsStream(s, step);
      case WriteCompletes(_, _) => CompletionKeepsStream(s, step);
      case _ =>
    }
  }

  lemma {:induction false} NothingDelivered(delivered: seq<(nat, Event)>, k: nat)
    requires forall i :: 0 <= i < |delivered| ==> delivered[i].0 < k
    ensures DeliveredOf(delivered, k) == []
  {
    if delivered != [] {
      NothingDelivered(delivered[..|delivered| - 1], k);
    }
  }

  lemma HandlerKeepsDelivery(s: System, k: nat)
    requires DeliveryInv(s)
    ensures DeliveryInv(Next(s, HandlerRuns(k)))
  {
    var n := Next(s, HandlerRuns(k));
    if n != s {
      assert n.delivered[..|n.delivered| - 1] == s.delivered;
    }
  }

  lemma NextKeepsDelivery(s: System, step: Step)
    requires DeliveryInv(s)
    ensures DeliveryInv(Next(s, step))
  {
    if step.HandlerRuns? {
      HandlerKeepsDelivery(s, step.index);
    } else {
      NothingDelivered(s.delivered, |s.accepted|);
    }
  }

  lemma {:induction false} RunKeepsInv(s: System, steps: seq<Step>)
    requires StreamInv(s) && DeliveryInv(s)
    ensures StreamInv(Run(s, steps)) && DeliveryInv(Run(s, steps))
    decreases |steps|
  {
    if steps != [] {
      NextKeepsStream(s, steps[0]);
      NextKeepsDelivery(s, steps[0]);
      RunKeepsInv(Next(s, steps[0]), steps[1..]);
    }
  }

  // ---------------------------------------------------------------- what a resume does, by what woke it

  /** The reader hands on a good response that is not canceled, and then reads again unless it was canceled; any
      other ends it. */
  lemma ReaderResumesExactly(s: System)
    requires StreamInv(s) && TheReader in s.wakes
    ensures var w, n := s.wakes[TheReader], Next(s, Resume(TheReader));
            && n.seen == s.seen + [Seen(w.ok, w.response)]
            && if w.ok && !w.response.canceled then
                 && n.accepted == s.accepted + [w.response.events] && n.handled == s.handled + [0]
                 && n.reader == (if s.readCtx.canceled then Ended else Reading)
               else n.accepted == s.accepted && n.handled == s.handled && n.reader == Ended
  {
  }

  /** The starter reads after its request was written, and starts the reader after a good response, whose
      identifier it keeps; a failed write or read fails the start. */
  lemma StarterResumesExactly(s: System)
    requires StreamInv(s) && TheStarter in s.wakes
    ensures var w, n := s.wakes[TheStarter], Next(s, Resume(TheStarter));
            && n.accepted == s.accepted
            && if !w.ok then n.starter == StartFailed && n.reader == s.reader && n.watchId == s.watchId
               else if s.starter.AwaitsCreateWrite? then
                 n.starter == AwaitsCreateRead(s.nextOp) && n.readsOut == {s.nextOp} && n.watchId == s.watchId
               else n.starter == Started && n.reader == Reading && n.watchId == w.response.watchId
  {
  }

  /** `StopWatch` cancels the reading context and half-closes once its request was written; a failed write ends it,
      and so does the half-close. */
  lemma StopperResumesExactly(s: System)
    requires StreamInv(s) && TheStopper in s.wakes
    ensures var w, n := s.wakes[TheStopper], Next(s, Resume(TheStopper));
            if s.stopper.AwaitsCancelWrite? && w.ok then
              n.readCtx.canceled && n.stopper == AwaitsHalfClose(s.nextOp) && n.writesOut == {s.nextOp}
            else
              n.readCtx == s.readCtx && n.stopper == Inactive && n.writesOut == s.writesOut
  {
  }

  /** A start writes its request once; a stop writes its request if the watch has an identifier above zero and no
      other stop is under way; the reader reads; and the end of the call cancels the reading context. */
  lemma CallsExactly(s: System)
    ensures var n := Next(s, CallStart);
            if s.starter.Unstarted? then
              n.starter == AwaitsCreateWrite(s.nextOp) && n.writesOut == s.writesOut + {s.nextOp}
            else n == s
    ensures var n := Next(s, CallStop);
            if s.stopper.Inactive? && s.watchId > 0 then
              n.stopper == AwaitsCancelWrite(s.nextOp) && n.writesOut == s.writesOut + {s.nextOp}
            else n == s
    ensures var n := Next(s, ReaderRuns);
            if s.reader.Reading? then n.reader == AwaitsRead(s.nextOp) && n.readsOut == s.readsOut + {s.nextOp}
            else n == s
    ensures Next(s, RpcDone) == s.(readCtx := s.readCtx.(canceled := true))
  {
  }

  /** A completion wakes whoever sleeps on it, with its own result. */
  lemma CompletionWakes(s: System, op: nat, ok: bool, response: Response)
    requires StreamInv(s)
    ensures s.reader.AwaitsRead? && op in s.readsOut ==>
              var n := Next(s, ReadCompletes(op, ok, response));
              && op == s.reader.op && TheReader in n.wakes
              && n.wakes[TheReader] == Wake(op, ok, if ok then response else s.response)
    ensures op in s.writesOut && s.stopper.AwaitsCancelWrite? ==>
              var n := Next(s, WriteCompletes(op, ok));
              op == s.stopper.op && TheStopper in n.wakes && n.wakes[TheStopper] == Wake(op, ok, NO_RESPONSE)
  {
  }

  // ---------------------------------------------------------------- what was accepted

  /** The events of the good responses, in order. */
  function GoodEvents(seen: seq<Seen>): seq<seq<Event>> {
    if seen == [] then []
    else
      var last := seen[|seen| - 1];
      GoodEvents(seen[..|seen| - 1]) + (if last.Good() then [last.response.events] else [])
  }

  /** Everything good that was read was accepted, and nothing was read after something bad. */
  ghost predicate SeenInv(s: System) {
    && s.accepted == GoodEvents(s.seen)
    && (forall k :: 0 <= k < |s.seen| - 1 ==> s.seen[k].Good())
    && (!s.reader.Ended? ==> forall k :: 0 <= k < |s.seen| ==> s.seen[k].Good())
  }

  lemma SeenGrows(s: System, n: System, x: Seen)
    requires SeenInv(s) && !s.reader.Ended? && n.seen == s.seen + [x]
    requires if x.Good() then n.accepted == s.accepted + [x.response.events]
             else n.accepted == s.accepted && n.reader.Ended?
    ensures SeenInv(n)
  {
    assert n.seen[..|n.seen| - 1] == s.seen;
  }

  lemma ReaderKeepsSeen(s: System)
    requires StreamInv(s) && SeenInv(s) && TheReader in s.wakes
    ensures SeenInv(Next(s, Resume(TheReader)))
  {
    var w := s.wakes[TheReader];
    ReaderResumesExactly(s);
    SeenGrows(s, Next(s, Resume(TheReader)), Seen(w.ok, w.response));
  }

  lemma NextKeepsSeen(s: System, step: Step)
    requires StreamInv(s) && SeenInv(s)
    ensures SeenInv(Next(s, step))
  {
    if step.Resume? && step.who.TheReader? && TheReader in s.wakes {
      ReaderKeepsSeen(s);
    }
  }

  lemma {:induction false} RunKeepsSeen(s: System, steps: seq<Step>)
    requires StreamInv(s) && SeenInv(s)
    ensures SeenInv(Run(s, steps))
    decreases |steps|
  {
    if steps != [] {
      NextKeepsStream(s, steps[0]);
      NextKeepsSeen(s, steps[0]);
      RunKeepsSeen(Next(s, steps[0]), steps[1..]);
    }
  }

  /** In every run the loop has accepted exactly the events of the good, uncanceled responses that its own reads
      brought, in order; only the last of these reads can have been bad, and then the loop is over. */
  lemma AcceptsExactly(steps: seq<Step>)
    ensures var s := Run(Initial(), steps);
            && s.accepted == GoodEvents(s.seen)
            && (forall k :: 0 <= k < |s.seen| - 1 ==> s.seen[k].ok && !s.seen[k].response.canceled)
            && (!s.reader.Ended? ==> forall k :: 0 <= k < |s.seen| ==> s.seen[k].ok && !s.seen[k].response.canceled)
  {
    RunKeepsSeen(Initial(), steps);
    var s := Run(Initial(), steps);
    assert forall k :: 0 <= k < |s.seen| ==> (s.seen[k].Good() <==> s.seen[k].ok && !s.seen[k].response.canceled);
  }

  /** How many more responses a canceled loop can accept. */
  function Left(s: System): nat {
    if s.reader.Ended? then 0 else 1
  }

  lemma CanceledStep(s: System, step: Step)
    requires StreamInv(s) && s.readCtx.canceled
    ensures var n := Next(s, step);
            n.readCtx.canceled && |n.accepted| + Left(n) <= |s.accepted| + Left(s)
  {
  }

  /** Once canceled, by a stop or by the end of the call, the loop accepts at most one more response, and none if
      it has ended. */
  lemma {:induction false} CanceledAcceptsOne(s: System, steps: seq<Step>)
    requires StreamInv(s) && s.readCtx.canceled
    ensures var n := Run(s, steps);
            n.readCtx.canceled && |n.accepted| + Left(n) <= |s.accepted| + Left(s)
    decreases |steps|
  {
    if steps != [] {
      CanceledStep(s, steps[0]);
      NextKeepsStream(s, steps[0]);
      CanceledAcceptsOne(Next(s, steps[0]), steps[1..]);
    }
  }

  // ---------------------------------------------------------------- results

  /** In every run at most one read and one write are outstanding, and every coroutine that is about to
      be resumed is resumed by the completion of the very operation it went to sleep on, and will read
      that operation's result, and for a read the response that it brought. */
  lemma OneReadOneWrite(steps: seq<Step>)
    ensures var s := Run(Initial(), steps);
            && |s.readsOut| <= 1 && |s.writesOut| <= 1
            && (TheReader in s.wakes ==>
                  && s.reader.AwaitsRead?
                  && s.wakes[TheReader] == Wake(s.reader.op, s.readCtx.success, s.response))
            && (TheStopper in s.wakes ==>
                  && !s.stopper.Inactive?
                  && s.wakes[TheStopper] == Wake(s.stopper.op, s.writeCtx.success, NO_RESPONSE))
            && (TheStarter in s.wakes ==>
                  || (s.starter.AwaitsCreateWrite? &&
                      s.wakes[TheStarter] == Wake(s.starter.op, s.writeCtx.success, NO_RESPONSE))
                  || (s.starter.AwaitsCreateRead? &&
                      s.wakes[TheStarter] == Wake(s.starter.op, s.readCtx.success, s.response)))
  {
    RunKeepsInv(Initial(), steps);
  }

  /** In every run each event of each accepted response reaches the handler at most once and in the order
      of its response; when a response's coroutine has run out, exactly its events were delivered. */
  lemma EveryEventOnceInOrder(steps: seq<Step>, k: nat)
    ensures var s := Run(Initial(), steps);
            k < |s.accepted| ==>
              && k < |s.handled| && DeliveredOf(s.delivered, k) <= s.accepted[k]
              && (s.handled[k] == |s.accepted[k]| <==> DeliveredOf(s.delivered, k) == s.accepted[k])
              && (Next(s, HandlerRuns(k)) == s <==> DeliveredOf(s.delivered, k) == s.accepted[k])
  {
    RunKeepsInv(Initial(), steps);
  }
}

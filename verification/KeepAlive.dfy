/** The lease keepalive stream: one request, one response, a pause, and again. */
module KeepAlive {

  /** What the stream, the loop and the user can do to a started context. */
  datatype Event =
    | WriteDone(ok: bool) | ReadDone(ok: bool) | DelayOver | WritesDoneDone(ok: bool) | RpcDone(ok: bool) | UserCancels

  /** How often what has happened; `result` is what the last event that resumes the waiter brought: a failed
      write, a failed read, or the end of the call. */
  datatype Tally = Tally(
    failedWrites: nat, failedReads: nat, ends: nat, pauses: nat, answers: nat, canceled: bool, result: bool)
  {
    function After(event: Event): Tally {
      match event
      case WriteDone(ok) => if ok then this else this.(failedWrites := failedWrites + 1, result := false)
      case ReadDone(ok) =>
        if ok then this.(answers := answers + 1)
        else this.(answers := answers + 1, failedReads := failedReads + 1, result := false)
      case DelayOver => this.(pauses := pauses + 1)
      case WritesDoneDone(_) => this
      case RpcDone(ok) => this.(ends := ends + 1, result := ok)
      case UserCancels => this.(canceled := true)
    }
  }

  const NOTHING := Tally(0, 0, 0, 0, 0, false, false)

  /** Everything there is to know about a context. */
  datatype Status = Status(
    success: bool, done: bool, canceled: bool,
    writesOut: nat, readsOut: nat, delays: nat, writesDone: nat, writesDoneDone: nat,
    requests: nat, responses: nat, halfCloses: nat, resumes: nat, requestsAtCancel: nat, tally: Tally)

  class KeepAliveContext {
    // CallContext
    var success: bool
    var done: bool
    var canceled: bool

    // What is under way on the stream and on the loop.
    var writesOut: nat
    var readsOut: nat
    var delays: nat
    var writesDone: nat
    var writesDoneDone: nat

    ghost var requests: nat
    ghost var responses: nat
    ghost var halfCloses: nat
    ghost var resumes: nat
    ghost var requestsAtCancel: nat
    /** What has happened since `Start`. */
    ghost var tally: Tally

    ghost function View(): Status
      reads this
    {
      Status(success, done, canceled, writesOut, readsOut, delays, writesDone, writesDoneDone,
             requests, responses, halfCloses, resumes, requestsAtCancel, tally)
    }

    /** At most one thing is under way, ever; the stream is half-closed at most once. */
    ghost predicate OneToken()
      reads this
    {
      && writesOut + readsOut + delays + halfCloses <= 1
      && writesDone + writesDoneDone == halfCloses
    }

    /** Requests and the reads of their responses alternate. */
    ghost predicate Alternates()
      reads this
    {
      && (writesOut == 1 || readsOut == 1 ==> requests == responses + 1)
      && (delays == 1 || halfCloses == 1 ==> requests == responses)
      && responses <= requests <= responses + 1
    }

    /** After a cancel at most one more request goes out, and only from a delay that was already set. */
    ghost predicate Winds()
      reads this
    {
      && (halfCloses == 1 ==> canceled)
      && (canceled ==> requestsAtCancel <= requests <= requestsAtCancel + 1)
      && (canceled && requests == requestsAtCancel + 1 ==> delays == 0)
    }

    /** The waiter has been resumed by exactly the events that resume it, with the result of the last. */
    ghost predicate Accounts()
      reads this
    {
      && resumes == tally.failedWrites + tally.failedReads + tally.ends
      && success == tally.result && (done <==> resumes > 0)
      && requests == 1 + tally.pauses && responses == tally.answers && canceled == tally.canceled
    }

    ghost predicate Valid()
      reads this
    {
      OneToken() && Alternates() && Winds() && Accounts()
    }

    /** No request is taken back, a cancel is not undone, and after the half-close no request goes out. */
    twostate predicate Keeps()
      reads this
    {
      && requests >= old(requests)
      && (old(canceled) ==> canceled && requestsAtCancel == old(requestsAtCancel))
      && (old(halfCloses) == 1 ==> halfCloses == 1 && requests == old(requests))
    }

    /** What each event does, if it can happen. */
    twostate predicate Effects(event: Event)
      reads this
    {
      match event
      case WriteDone(ok) => writesOut == 0 && (old(writesOut) == 1 ==> if ok then readsOut == 1 else done && !success)
      case ReadDone(ok) => readsOut == 0 && (old(readsOut) == 1 && !ok ==> done && !success)
      case DelayOver => delays == 0 && (old(delays) == 1 ==> writesOut == 1)
      case WritesDoneDone(_) => writesDone == 0 && done == old(done) && success == old(success)
      case RpcDone(ok) => done && success == ok
      case UserCancels => canceled
    }

    /** `Start` on a new context: the call begins with a write. */
    constructor ()
      ensures Valid()
      ensures View() == Status(false, false, false, 1, 0, 0, 0, 0, 1, 0, 0, 0, 0, NOTHING)
    {
      success, done, canceled := false, false, false;
      writesOut, readsOut, delays, writesDone, writesDoneDone := 1, 0, 0, 0, 0;
      requests, responses, halfCloses, resumes, requestsAtCancel := 1, 0, 0, 0, 0;
      tally := NOTHING;
    }

    method ResumeContext(ok: bool)
      modifies this`success, this`done, this`resumes
      ensures success == ok && done && resumes == old(resumes) + 1
    {
      success := ok;
      done := true;
      resumes := resumes + 1;
    }

    method StartWrite()
      modifies this`writesOut, this`requests
      ensures writesOut == old(writesOut) + 1 && requests == old(requests) + 1
    {
      writesOut := writesOut + 1;
      requests := requests + 1;
    }

    ghost method Happens(event: Event)
      modifies this`tally
      ensures tally == old(tally).After(event)
    {
      tally := tally.After(event);
    }

    /** A response is awaited only after its request was written. */
    method OnWriteDone(ok: bool)
      requires Valid() && writesOut > 0
      modifies this
      ensures Valid() && Keeps()
      ensures Effects(WriteDone(ok)) && tally == old(tally).After(WriteDone(ok))
      ensures var v := old(View()).(writesOut := 0, tally := old(tally).After(WriteDone(ok)));
              View() == if ok then v.(readsOut := 1)
                        else v.(success := false, done := true, resumes := old(resumes) + 1)
    {
      Happens(WriteDone(ok));
      writesOut := writesOut - 1;
      if ok {
        readsOut := readsOut + 1;
      } else {
        ResumeContext(false);
      }
    }

    /** After a response, good or bad, the stream is half-closed if canceled, and else the next request
        is put on the loop. */
    method OnReadDone(ok: bool)
      requires Valid() && readsOut > 0
      modifies this
      ensures Valid() && Keeps()
      ensures Effects(ReadDone(ok)) && tally == old(tally).After(ReadDone(ok))
      ensures var v := old(View()).(readsOut := 0, responses := old(responses) + 1,
                                    tally := old(tally).After(ReadDone(ok)));
              var r := if ok then v else v.(success := false, done := true, resumes := old(resumes) + 1);
              View() == if old(canceled) then r.(writesDone := 1, halfCloses := 1) else r.(delays := 1)
    {
      ReadOver(ok);
      GoOn();
    }

    /** The response is in; a bad one resumes the waiter. */
    method ReadOver(ok: bool)
      requires Valid() && readsOut > 0
      modifies this
      ensures Valid() && writesOut == 0 && readsOut == 0 && delays == 0 && halfCloses == 0 && requests == responses
      ensures var v := old(View()).(readsOut := 0, responses := old(responses) + 1,
                                    tally := old(tally).After(ReadDone(ok)));
              View() == if ok then v else v.(success := false, done := true, resumes := old(resumes) + 1)
    {
      Happens(ReadDone(ok));
      readsOut := readsOut - 1;
      responses := responses + 1;
      if !ok {
        ResumeContext(false);
      }
    }

    /** What follows a response. */
    method GoOn()
      requires Valid() && writesOut == 0 && readsOut == 0 && delays == 0 && halfCloses == 0 && requests == responses
      modifies this`writesDone, this`halfCloses, this`delays
      ensures Valid()
      ensures View() == if canceled then old(View()).(writesDone := 1, halfCloses := 1) else old(View()).(delays := 1)
    {
      if canceled {
        writesDone := writesDone + 1;
        halfCloses := halfCloses + 1;
        return;
      }
      delays := delays + 1;
    }

    /** The delayed task writes without looking at the cancel flag. */
    method OnDelay()
      requires Valid() && delays > 0
      modifies this
      ensures Valid() && Keeps()
      ensures Effects(DelayOver) && tally == old(tally).After(DelayOver)
      ensures View() == old(View()).(delays := 0, writesOut := 1, requests := old(requests) + 1,
                                     tally := old(tally).After(DelayOver))
    {
      Happens(DelayOver);
      delays := delays - 1;
      StartWrite();
    }

    /** Nothing but a note: the waiter is not resumed. */
    method OnWritesDoneDone(ok: bool)
      requires Valid() && writesDone > 0
      modifies this
      ensures Valid() && Keeps()
      ensures Effects(WritesDoneDone(ok)) && tally == old(tally).After(WritesDoneDone(ok))
      ensures View() == old(View()).(writesDone := 0, writesDoneDone := 1,
                                     tally := old(tally).After(WritesDoneDone(ok)))
    {
      Happens(WritesDoneDone(ok));
      writesDone := writesDone - 1;
      writesDoneDone := writesDoneDone + 1;
    }

    /** The waiter is resumed once, with the status of the call. */
    method OnDone(ok: bool)
      requires Valid()
      modifies this
      ensures Valid() && Keeps()
      ensures Effects(RpcDone(ok)) && tally == old(tally).After(RpcDone(ok))
      ensures View() == old(View()).(success := ok, done := true, resumes := old(resumes) + 1,
                                     tally := old(tally).After(RpcDone(ok)))
    {
      Happens(RpcDone(ok));
      ResumeContext(ok);
    }

    method Cancel()
      requires Valid()
      modifies this`canceled, this`requestsAtCancel, this`tally
      ensures Valid() && Keeps()
      ensures Effects(UserCancels) && tally == old(tally).After(UserCancels)
      ensures View() == old(View()).(canceled := true, tally := old(tally).After(UserCancels),
                                     requestsAtCancel := if old(canceled) then old(requestsAtCancel) else requests)
    {
      Happens(UserCancels);
      if !canceled {
        requestsAtCancel := requests;
      }
      canceled := true;
    }

    /** Whether an event can happen now. */
    predicate Possible(event: Event)
      reads this
    {
      match event
      case WriteDone(_) => writesOut > 0
      case ReadDone(_) => readsOut > 0
      case DelayOver => delays > 0
      case WritesDoneDone(_) => writesDone > 0
      case RpcDone(_) => true
      case UserCancels => true
    }

    /** One event, if it can happen. */
    method Handle(event: Event)
      requires Valid()
      modifies this
      ensures Valid() && Keeps()
      ensures tally == if old(Possible(event)) then old(tally).After(event) else old(tally)
      ensures Effects(event)
    {
      if Possible(event) {
        match event {
          case WriteDone(ok) => OnWriteDone(ok);
          case ReadDone(ok) => OnReadDone(ok);
          case DelayOver => OnDelay();
          case WritesDoneDone(ok) => OnWritesDoneDone(ok);
          case RpcDone(ok) => OnDone(ok);
          case UserCancels => Cancel();
        }
      }
    }

    /** Every run from `Start`, whatever the stream, the loop and the user do: the token is never
        duplicated; once canceled, at most one more request goes out; once half-closed, none; and the waiter is
        resumed exactly by the failed writes, the failed reads and the ends of the call, with the last result. */
    method Run(events: seq<Event>)
      requires Valid()
      modifies this
      ensures Valid()
      ensures resumes == tally.failedWrites + tally.failedReads + tally.ends
      ensures success == tally.result && (done <==> resumes > 0)
      ensures old(canceled) ==> canceled && old(requests) <= requests <= old(requestsAtCancel) + 1
      ensures old(halfCloses) == 1 ==> halfCloses == 1 && requests == old(requests)
    {
      for i := 0 to |events|
        invariant Valid() && Keeps()
      {
        Handle(events[i]);
      }
    }
  }
}

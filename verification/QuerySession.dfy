/** A session: what a caller submits, and where the connection leaves the outcome. */
module QuerySessions {
  import opened MysqlTypes

  class QuerySession {
    const job: Job

    var code: int
    var errMessage: string
    var resultCount: int
    var affectedRows: int
    var columnNames: seq<string>
    var results: seq<TextRow>
    /** A completion callback is installed. */
    var armed: bool

    ghost var doneCalls: nat
    ghost var fired: nat
    /** The place of the session among those handed to its connection. */
    ghost var ticket: nat

    /** Neither completed nor told anything yet. */
    ghost predicate Open()
      reads this
    {
      armed == job.notify && doneCalls == 0 && fired == 0
    }

    /** Nothing has happened to the session yet. */
    ghost predicate Untouched()
      reads this
    {
      Open() && View() == Outcome(0, "", [], [], 0, 0)
    }

    /** The session was told once that it is done; its callback, if it has one, was called once. */
    ghost predicate Told()
      reads this
    {
      doneCalls == 1 && fired == if job.notify then 1 else 0
    }

    /** Its callback is running, or about to. */
    ghost predicate CallingBack()
      reads this
    {
      Told() && armed == job.notify
    }

    /** The session was completed once, and its callback is gone. */
    ghost predicate CompletedOnce()
      reads this
    {
      Told() && !armed
    }

    function View(): Outcome
      reads this
    {
      Outcome(code, errMessage, columnNames, results, resultCount, affectedRows)
    }

    constructor (job: Job)
      ensures this.job == job && Untouched()
    {
      this.job := job;
      code, errMessage, resultCount, affectedRows, columnNames, results := 0, "", 0, 0, [], [];
      armed := job.notify;
      doneCalls, fired, ticket := 0, 0, 0;
    }

    method SetCode(code: int, message: string)
      modifies this`code, this`errMessage
      ensures View() == old(View()).(code := code, message := message)
    {
      this.code, errMessage := code, message;
    }

    method SetResultRows(rows: int)
      modifies this`resultCount
      ensures View() == old(View()).(resultRows := rows)
    {
      resultCount := rows;
    }

    method SetAffectedRows(line: int)
      modifies this`affectedRows
      ensures View() == old(View()).(affectedRows := line)
    {
      affectedRows := line;
    }

    method PendingRow(row: TextRow)
      modifies this`results
      ensures View() == old(View()).(rows := old(results) + [row])
    {
      results := results + [row];
    }

    /** `OnQueryDone` up to the callback, which runs if it is installed. */
    method CallBack() returns (fire: bool)
      modifies this`doneCalls, this`fired
      ensures fire == armed
      ensures doneCalls == old(doneCalls) + 1 && fired == old(fired) + (if fire then 1 else 0)
    {
      fire := armed;
      doneCalls, fired := doneCalls + 1, fired + (if fire then 1 else 0);
    }

    /** `OnQueryDone` after the callback: only now is it removed. */
    method ClearCallback()
      modifies this`armed
      ensures !armed
    {
      armed := false;
    }
  }

  /** The client's completion callbacks; `budget` is how many submissions they will still make. */
  class Callbacks {
    const react: seq<Done> -> Reaction
    var budget: nat

    constructor (react: seq<Done> -> Reaction, budget: nat)
      ensures this.react == react && this.budget == budget
    {
      this.react, this.budget := react, budget;
    }
  }
}

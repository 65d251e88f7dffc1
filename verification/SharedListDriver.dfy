/** The example driver: several connections, one event loop, one list of queries. */
module SharedListDriver {
  import opened Options
  import MysqlTypes

  type Wait = MysqlTypes.Wait

  /** The numbered states of `state_machine_handler`. */
  datatype State =
    | Connecting | ConnectCont | Connected
    | NextQuery | QueryCont | QueryDone
    | FetchStart | FetchCont | Fetched
    | Closing | CloseCont | Closed
  {
    predicate HasQuery() {
      QueryCont? || QueryDone?
    }

    predicate Waits() {
      ConnectCont? || QueryCont? || FetchCont? || CloseCont?
    }

    /** A result is being read. */
    predicate Reads() {
      FetchStart? || FetchCont? || Fetched?
    }

    predicate Serves() {
      NextQuery? || HasQuery() || Reads()
    }

    /** The list was found empty. */
    predicate Leaving() {
      Closing? || CloseCont? || Closed?
    }
  }

  /** `status`: what the library call returns with. `good`: the connect, the query or the result it asks about
      is good. `rows`: how many rows a result has. */
  datatype Reply = Reply(status: Wait, good: bool, rows: nat)

  /** What `next_event` adds to the event loop: an event on the socket, a timer, both or neither. */
  datatype Event = Event(read: bool, write: bool, timer: bool) {
    /** Something can fire. */
    predicate Armed() {
      read || write || timer
    }
  }

  const NO_EVENT := Event(false, false, false)

  function EventFor(status: Wait): Event {
    Event(status.read, status.write, status.timeout)
  }

  /** A result that is being read: whose it is, how many rows it has, and how many were printed. */
  datatype Reading = Reading(query: nat, announced: nat, printed: nat)

  /** How a query ended. */
  datatype Ended = Failed(query: nat) | Read(query: nat, announced: nat, printed: nat)

  /** `query` is the entry that the connection holds and has not freed; `rows` are those still to come and
      `row` says whether one was just fetched; `linked`: the connect succeeded; `over`: its last event has been
      handled. */
  datatype Connection = Connection(
    state: State, begun: bool, over: bool, linked: bool, query: Option<nat>, ok: bool,
    reading: Option<Reading>, rows: nat, row: bool, event: Event)
  {
    /** The query whose result is being read. */
    function ReadFor(): Option<nat> {
      if reading.Some? then Some(reading.value.query) else None
    }
  }

  const FRESH := Connection(Connecting, false, false, false, None, false, None, 0, false, NO_EVENT)

  /** Query `query` was sent by connection `connection`. */
  datatype Start = Start(query: nat, connection: nat)

  /** Queries are numbered in list order; `list` is what is left of it. `exited`: a fatal error ended the
      process. `stopped`: the event loop was told to return. */
  datatype System = System(
    total: nat, list: seq<nat>, connections: seq<Connection>, active: int,
    started: seq<Start>, freed: seq<nat>, ended: seq<Ended>, stopped: bool, exited: bool)

  function Numbers(from: nat, to: nat): (r: seq<nat>)
    requires from <= to
    ensures |r| == to - from && forall i :: 0 <= i < |r| ==> r[i] == from + i
  {
    seq(to - from, i requires 0 <= i < to - from => from + i)
  }

  function Initial(total: nat, connections: nat): System {
    System(total, Numbers(0, total), seq(connections, _ => FRESH), 0, [], [], [], false, false)
  }

  /** Wait in one state, with its event added, or go on to another. */
  function Go(c: Connection, status: Wait, wait: State, next: State): Connection {
    if status.Zero() then c.(state := next, event := NO_EVENT) else c.(state := wait, event := EventFor(status))
  }

  /** States 0, 1 and 9. */
  function Linking(c: Connection, reply: Reply): (m: Connection)
    ensures m.begun == c.begun && m.over == c.over
  {
    if c.state.Connected? then (if c.ok then c.(state := NextQuery) else c)
    else Go(c.(ok := reply.good, linked := reply.good), reply.status, ConnectCont, Connected)
  }

  /** States 10, 11 and 20. */
  function Querying(c: Connection, list: seq<nat>, reply: Reply): (m: Connection)
    ensures m.begun == c.begun && m.over == c.over
  {
    if c.state.QueryDone? then
      if !c.ok then c.(query := None, state := NextQuery)
      else if !reply.good then c.(query := None)
      else
        c.(query := None, state := FetchStart, rows := reply.rows,
           reading := if c.query.Some? then Some(Reading(c.query.value, reply.rows, 0)) else None)
    else if c.state.QueryCont? then Go(c.(ok := reply.good), reply.status, QueryCont, QueryDone)
    else if list == [] then c.(state := Closing)
    else Go(c.(query := Some(list[0]), ok := reply.good), reply.status, QueryCont, QueryDone)
  }

  /** States 30, 31 and 39. */
  function Fetching(c: Connection, reply: Reply): (m: Connection)
    ensures m.begun == c.begun && m.over == c.over
  {
    if c.state.Fetched? then
      if !c.row then c.(state := NextQuery, reading := None)
      else if c.reading.None? then c.(state := FetchStart)
      else c.(state := FetchStart, reading := Some(c.reading.value.(printed := c.reading.value.printed + 1)))
    else if !reply.status.Zero() then Go(c, reply.status, FetchCont, Fetched)
    else Go(c.(row := c.rows > 0, rows := if c.rows > 0 then c.rows - 1 else 0), reply.status, FetchCont, Fetched)
  }

  /** States 40, 41 and 50. */
  function Parting(c: Connection, reply: Reply): (m: Connection)
    ensures m.begun == c.begun && (!c.over ==> m.over == c.state.Closed?)
  {
    if c.state.Closed? then c.(over := true) else Go(c, reply.status, CloseCont, Closed)
  }

  /** A connection after one pass through the switch, with `list` left of the queries. */
  function Moved(c: Connection, list: seq<nat>, reply: Reply): Connection {
    if c.state.Leaving() then Parting(c, reply)
    else if c.state.Reads() then Fetching(c, reply)
    else if c.state.NextQuery? || c.state.HasQuery() then Querying(c, list, reply)
    else Linking(c, reply)
  }

  predicate Takes(c: Connection, list: seq<nat>) {
    c.state.NextQuery? && list != []
  }

  predicate Frees(c: Connection) {
    c.state.QueryDone? && c.query.Some?
  }

  /** The query that a pass brings to its end, if any. */
  function Ends(c: Connection): Option<Ended> {
    if Frees(c) && !c.ok then Some(Failed(c.query.value))
    else if c.state.Fetched? && !c.row && c.reading.Some? then
      var r := c.reading.value;
      Some(Read(r.query, r.announced, r.printed))
    else None
  }

  predicate Fatal(c: Connection, reply: Reply) {
    (c.state.Connected? && !c.ok) || (c.state.QueryDone? && c.ok && !reply.good)
  }

  /** One pass of connection i through the switch. */
  function Pass(s: System, i: nat, reply: Reply): System
    requires i < |s.connections|
  {
    var c := s.connections[i];
    s.(connections := s.connections[i := Moved(c, s.list, reply)],
       list := if Takes(c, s.list) then s.list[1..] else s.list,
       started := if Takes(c, s.list) then s.started + [Start(s.list[0], i)] else s.started,
       freed := if Frees(c) then s.freed + [c.query.value] else s.freed,
       ended := if Ends(c).Some? then s.ended + [Ends(c).value] else s.ended,
       active := if c.state.Closed? then s.active - 1 else s.active,
       stopped := s.stopped || (c.state.Closed? && s.active == 1),
       exited := s.exited || Fatal(c, reply))
  }

  /** The loop in `main` starts connection i. */
  function Begin(s: System, i: nat): System
    requires i < |s.connections|
  {
    s.(connections := s.connections[i := s.connections[i].(begun := true)], active := s.active + 1)
  }

  predicate Runs(s: System, i: nat) {
    i < |s.connections| && !s.exited && s.connections[i].begun && !s.connections[i].over
  }

  // ---------------------------------------------------------------- invariant

  /** The connections that have begun and are not over. */
  function Active(cs: seq<Connection>): (n: nat)
    ensures n <= |cs|
  {
    if cs == [] then 0
    else Active(cs[..|cs| - 1]) + (if cs[|cs| - 1].begun && !cs[|cs| - 1].over then 1 else 0)
  }

  lemma {:induction false} ActivePut(cs: seq<Connection>, i: nat, c: Connection)
    requires i < |cs|
    ensures Active(cs[i := c]) ==
            Active(cs) - (if cs[i].begun && !cs[i].over then 1 else 0) + (if c.begun && !c.over then 1 else 0)
  {
    var n := |cs| - 1;
    if i < n {
      ActivePut(cs[..n], i, c);
      assert cs[i := c][..n] == cs[..n][i := c];
    } else {
      assert cs[i := c][..n] == cs[..n];
    }
  }

  lemma {:induction false} NoneActive(cs: seq<Connection>, i: nat)
    requires Active(cs) == 0 && i < |cs|
    ensures !(cs[i].begun && !cs[i].over)
  {
    if i < |cs| - 1 {
      NoneActive(cs[..|cs| - 1], i);
    }
  }

  ghost predicate Holds(cs: seq<Connection>, i: nat, q: nat) {
    i < |cs| && cs[i].query == Some(q)
  }

  /** The list is what was not started; a started query is freed once, or held by the one that took it. */
  ghost predicate Ledger(total: nat, list: seq<nat>, cs: seq<Connection>, started: seq<Start>, freed: seq<nat>) {
    && |started| <= total
    && list == Numbers(|started|, total)
    && (forall q :: 0 <= q < |started| ==> started[q].query == q)
    && (forall a, b :: 0 <= a < b < |freed| ==> freed[a] != freed[b])
    && (forall q: nat :: q in freed ==> q < |started|)
    && (forall i: nat, q: nat :: Holds(cs, i, q) ==> q < |started| && started[q].connection == i && q !in freed)
    && (forall q: nat :: q < |started| && q !in freed ==> Holds(cs, started[q].connection, q))
  }

  ghost predicate Sane(list: seq<nat>, c: Connection) {
    && (c.query.Some? <==> c.state.HasQuery())
    && (c.state.Leaving() ==> list == [])
    && (c.over ==> c.begun && c.state.Closed?)
    && (c.event != NO_EVENT ==> c.state.Waits())
    && (c.state.Connected? ==> c.ok == c.linked)
    && (c.state.Serves() || c.state.Leaving() ==> c.linked)
    && (c.reading.Some? <==> c.state.Reads())
    && (c.state.Reads() ==>
          var r := c.reading.value;
          && r.announced == r.printed + c.rows + (if c.state.Fetched? && c.row then 1 else 0)
          && (c.state.Fetched? && !c.row ==> c.rows == 0))
    && (!c.begun ==> c == FRESH)
  }

  ghost predicate Books(s: System) {
    Ledger(s.total, s.list, s.connections, s.started, s.freed)
  }

  ghost predicate ReadsOf(cs: seq<Connection>, i: nat, q: nat) {
    i < |cs| && cs[i].ReadFor() == Some(q)
  }

  ghost predicate HasEnded(ended: seq<Ended>, q: nat) {
    exists k :: 0 <= k < |ended| && ended[k].query == q
  }

  /** Every freed query has ended, once, or its result is being read by the connection that took it; a query that
      ended without failing had every row of its result printed. */
  ghost predicate Results(cs: seq<Connection>, started: seq<Start>, freed: seq<nat>, ended: seq<Ended>) {
    && (forall a, b :: 0 <= a < b < |ended| ==> ended[a].query != ended[b].query)
    && (forall k :: 0 <= k < |ended| ==> ended[k].query in freed)
    && (forall k :: 0 <= k < |ended| && ended[k].Read? ==> ended[k].printed == ended[k].announced)
    && (forall i: nat, q: nat :: ReadsOf(cs, i, q) ==> Fits(started, freed, ended, i, q))
    && (forall q: nat :: q in freed ==> Accounted(cs, started, ended, q))
  }

  ghost predicate Inv(s: System) {
    && Books(s)
    && s.active == Active(s.connections)
    && (!s.exited ==>
          && Results(s.connections, s.started, s.freed, s.ended)
          && forall i :: 0 <= i < |s.connections| ==> Sane(s.list, s.connections[i]))
  }

  lemma InitialInv(total: nat, connections: nat)
    ensures Inv(Initial(total, connections))
  {
    NobodyBegun(Initial(total, connections).connections);
  }

  lemma {:induction false} NobodyBegun(cs: seq<Connection>)
    requires forall i :: 0 <= i < |cs| ==> cs[i] == FRESH
    ensures Active(cs) == 0
  {
    if cs != [] {
      NobodyBegun(cs[..|cs| - 1]);
    }
  }

  // ---------------------------------------------------------------- every pass keeps it

  lemma QuietLedger(s: System, i: nat, c: Connection)
    requires Books(s) && i < |s.connections| && c.query == s.connections[i].query
    ensures Ledger(s.total, s.list, s.connections[i := c], s.started, s.freed)
  {
    var cs := s.connections[i := c];
    assert forall j: nat, q: nat :: Holds(cs, j, q) <==> Holds(s.connections, j, q);
  }

  lemma TakeLedger(s: System, i: nat, c: Connection)
    requires Books(s) && i < |s.connections| && s.connections[i].query.None?
    requires s.list != [] && c.query == Some(s.list[0])
    ensures Ledger(s.total, s.list[1..], s.connections[i := c], s.started + [Start(s.list[0], i)], s.freed)
  {
    var cs := s.connections[i := c];
    var n := |s.started|;
    assert forall j: nat, q: nat :: Holds(cs, j, q) <==> Holds(s.connections, j, q) || (j == i && q == n);
    assert s.list[1..] == Numbers(n + 1, s.total);
  }

  lemma FreeLedger(s: System, i: nat, c: Connection)
    requires Books(s) && i < |s.connections| && s.connections[i].query.Some? && c.query.None?
    ensures Ledger(s.total, s.list, s.connections[i := c], s.started, s.freed + [s.connections[i].query.value])
  {
    var q := s.connections[i].query.value;
    var cs := s.connections[i := c];
    assert Holds(s.connections, i, q);
    assert forall j: nat, r: nat :: Holds(cs, j, r) <==> Holds(s.connections, j, r) && j != i;
    assert forall r: nat :: Holds(s.connections, i, r) ==> r == q;
  }

  ghost predicate SameReading(c: Connection, d: Connection) {
    c.ReadFor() == d.ReadFor()
  }

  lemma ReadsPut(cs: seq<Connection>, i: nat, c: Connection, j: nat, q: nat)
    requires i < |cs|
    ensures ReadsOf(cs[i := c], j, q) <==> if j == i then c.ReadFor() == Some(q) else ReadsOf(cs, j, q)
  {
  }

  /** Every freed query is being read by the connection that took it, or has ended. */
  ghost predicate Accounted(cs: seq<Connection>, started: seq<Start>, ended: seq<Ended>, q: nat) {
    q < |started| && (ReadsOf(cs, started[q].connection, q) || HasEnded(ended, q))
  }

  /** A query that connection i is reading is its own, is freed, and has not ended. */
  ghost predicate Fits(started: seq<Start>, freed: seq<nat>, ended: seq<Ended>, i: nat, q: nat) {
    q in freed && q < |started| && started[q].connection == i && !HasEnded(ended, q)
  }

  lemma QuietResults(cs: seq<Connection>, started: seq<Start>, freed: seq<nat>, ended: seq<Ended>,
                     i: nat, c: Connection, more: seq<Start>)
    requires Results(cs, started, freed, ended) && i < |cs| && SameReading(cs[i], c)
    ensures Results(cs[i := c], started + more, freed, ended)
  {
    var ds := cs[i := c];
    forall j: nat, q: nat | ReadsOf(ds, j, q) ensures Fits(started + more, freed, ended, j, q) {
      ReadsPut(cs, i, c, j, q);
      assert ReadsOf(cs, j, q);
    }
    forall q: nat | q in freed ensures Accounted(ds, started + more, ended, q) {
      ReadsPut(cs, i, c, started[q].connection, q);
    }
  }

  lemma FailResults(cs: seq<Connection>, started: seq<Start>, freed: seq<nat>, ended: seq<Ended>,
                    i: nat, c: Connection, q: nat)
    requires Results(cs, started, freed, ended) && i < |cs| && SameReading(cs[i], c)
    requires q !in freed && q < |started|
    ensures Results(cs[i := c], started, freed + [q], ended + [Failed(q)])
  {
    var ds, more := cs[i := c], ended + [Failed(q)];
    EndedSnoc(ended, Failed(q));
    forall j: nat, r: nat | ReadsOf(ds, j, r) ensures Fits(started, freed + [q], more, j, r) {
      ReadsPut(cs, i, c, j, r);
      assert ReadsOf(cs, j, r);
    }
    forall r: nat | r in freed + [q] ensures Accounted(ds, started, more, r) {
      ReadsPut(cs, i, c, started[r].connection, r);
    }
  }

  lemma BeginResults(cs: seq<Connection>, started: seq<Start>, freed: seq<nat>, ended: seq<Ended>,
                     i: nat, c: Connection, q: nat)
    requires Results(cs, started, freed, ended) && i < |cs| && cs[i].reading.None?
    requires c.ReadFor() == Some(q)
    requires q !in freed && q < |started| && started[q].connection == i
    ensures Results(cs[i := c], started, freed + [q], ended)
  {
    var ds := cs[i := c];
    assert !HasEnded(ended, q);
    forall j: nat, r: nat | ReadsOf(ds, j, r) ensures Fits(started, freed + [q], ended, j, r) {
      ReadsPut(cs, i, c, j, r);
      assert j != i ==> ReadsOf(cs, j, r);
    }
    forall r: nat | r in freed + [q] ensures Accounted(ds, started, ended, r) {
      ReadsPut(cs, i, c, started[r].connection, r);
    }
  }

  lemma EndResults(cs: seq<Connection>, started: seq<Start>, freed: seq<nat>, ended: seq<Ended>,
                   i: nat, c: Connection)
    requires Results(cs, started, freed, ended) && i < |cs| && cs[i].reading.Some? && c.reading.None?
    requires cs[i].reading.value.announced == cs[i].reading.value.printed
    ensures var r := cs[i].reading.value;
            Results(cs[i := c], started, freed, ended + [Read(r.query, r.announced, r.printed)])
  {
    var r := cs[i].reading.value;
    var ds, more := cs[i := c], ended + [Read(r.query, r.announced, r.printed)];
    assert ReadsOf(cs, i, r.query);
    EndedSnoc(ended, Read(r.query, r.announced, r.printed));
    forall j: nat, q: nat | ReadsOf(ds, j, q) ensures Fits(started, freed, more, j, q) {
      ReadsPut(cs, i, c, j, q);
      assert ReadsOf(cs, j, q);
    }
    forall q: nat | q in freed ensures Accounted(ds, started, more, q) {
      ReadsPut(cs, i, c, started[q].connection, q);
    }
  }

  lemma EndedSnoc(ended: seq<Ended>, e: Ended)
    ensures forall q: nat :: HasEnded(ended + [e], q) <==> HasEnded(ended, q) || q == e.query
  {
    var more := ended + [e];
    assert more[|ended|] == e;
    forall q: nat | HasEnded(ended, q) ensures HasEnded(more, q) {
      var k :| 0 <= k < |ended| && ended[k].query == q;
      assert more[k].query == q;
    }
  }

  lemma PassKeepsResults(s: System, i: nat, reply: Reply)
    requires Inv(s) && Runs(s, i) && !Fatal(s.connections[i], reply)
    ensures var n := Pass(s, i, reply); Results(n.connections, n.started, n.freed, n.ended)
  {
    var c := s.connections[i];
    var m := Moved(c, s.list, reply);
    assert Sane(s.list, c);
    MovedReading(c, s.list, reply);
    if Frees(c) {
      assert Holds(s.connections, i, c.query.value);
      if c.ok {
        BeginResults(s.connections, s.started, s.freed, s.ended, i, m, c.query.value);
      } else {
        FailResults(s.connections, s.started, s.freed, s.ended, i, m, c.query.value);
      }
    } else if Ends(c).Some? {
      EndResults(s.connections, s.started, s.freed, s.ended, i, m);
    } else {
      var more := if Takes(c, s.list) then [Start(s.list[0], i)] else [];
      QuietResults(s.connections, s.started, s.freed, s.ended, i, m, more);
      assert Pass(s, i, reply).started == s.started + more;
    }
  }

  lemma MovedReading(c: Connection, list: seq<nat>, reply: Reply)
    requires Sane(list, c) && !Fatal(c, reply)
    ensures var m := Moved(c, list, reply);
            if Frees(c) && c.ok then
              c.reading.None? && m.reading.Some? && m.reading.value.query == c.query.value
            else if Ends(c).Some? && !Frees(c) then
              c.reading.Some? && m.reading.None? && c.reading.value.announced == c.reading.value.printed
            else SameReading(c, m)
  {
  }

  lemma MovedQuery(c: Connection, list: seq<nat>, reply: Reply)
    requires Sane(list, c)
    ensures !Takes(c, list) && !Frees(c) ==> Moved(c, list, reply).query == c.query
    ensures Takes(c, list) ==> c.query.None? && Moved(c, list, reply).query == Some(list[0])
    ensures Frees(c) ==> Moved(c, list, reply).query.None?
  {
  }

  lemma LinkingSane(c: Connection, list: seq<nat>, reply: Reply)
    requires Sane(list, c) && c.begun && !c.over && !Fatal(c, reply)
    requires c.state.Connecting? || c.state.ConnectCont? || c.state.Connected?
    ensures Sane(list, Linking(c, reply))
  {
  }

  lemma QueryingSane(c: Connection, list: seq<nat>, reply: Reply)
    requires Sane(list, c) && c.begun && !c.over && !Fatal(c, reply)
    requires c.state.NextQuery? || c.state.HasQuery()
    ensures Sane(if Takes(c, list) then list[1..] else list, Querying(c, list, reply))
  {
  }

  lemma FetchingSane(c: Connection, list: seq<nat>, reply: Reply)
    requires Sane(list, c) && c.begun && !c.over && c.state.Reads()
    ensures Sane(list, Fetching(c, reply))
  {
  }

  lemma PartingSane(c: Connection, list: seq<nat>, reply: Reply)
    requires Sane(list, c) && c.begun && !c.over && c.state.Leaving()
    ensures Sane(list, Parting(c, reply))
  {
  }

  lemma MovedSane(c: Connection, list: seq<nat>, reply: Reply)
    requires Sane(list, c) && c.begun && !c.over && !Fatal(c, reply)
    ensures Sane(if Takes(c, list) then list[1..] else list, Moved(c, list, reply))
  {
    if c.state.Leaving() {
      PartingSane(c, list, reply);
    } else if c.state.Reads() {
      FetchingSane(c, list, reply);
    } else if c.state.NextQuery? || c.state.HasQuery() {
      QueryingSane(c, list, reply);
    } else {
      LinkingSane(c, list, reply);
    }
  }

  lemma MovedBegun(c: Connection, list: seq<nat>, reply: Reply)
    ensures Moved(c, list, reply).begun == c.begun
    ensures !c.over ==> Moved(c, list, reply).over == c.state.Closed?
  {
  }

  lemma PassKeepsBooks(s: System, i: nat, reply: Reply)
    requires Inv(s) && Runs(s, i)
    ensures Books(Pass(s, i, reply))
  {
    var c := s.connections[i];
    var m := Moved(c, s.list, reply);
    MovedQuery(c, s.list, reply);
    if Takes(c, s.list) {
      TakeLedger(s, i, m);
    } else if Frees(c) {
      FreeLedger(s, i, m);
    } else {
      QuietLedger(s, i, m);
    }
  }

  lemma PassKeepsSane(s: System, i: nat, reply: Reply, j: nat)
    requires Inv(s) && Runs(s, i) && j < |s.connections| && !Fatal(s.connections[i], reply)
    ensures Sane(Pass(s, i, reply).list, Pass(s, i, reply).connections[j])
  {
    assert Sane(s.list, s.connections[j]);
    if i == j {
      MovedSane(s.connections[i], s.list, reply);
    }
  }

  /** Whatever the library answers, a pass of one connection keeps the shared list and the count right. */
  lemma PassKeepsInv(s: System, i: nat, reply: Reply)
    requires Inv(s) && Runs(s, i)
    ensures Inv(Pass(s, i, reply))
  {
    PassKeepsBooks(s, i, reply);
    var m := Moved(s.connections[i], s.list, reply);
    MovedBegun(s.connections[i], s.list, reply);
    ActivePut(s.connections, i, m);
    if !Fatal(s.connections[i], reply) {
      PassKeepsResults(s, i, reply);
      forall j | 0 <= j < |s.connections| ensures Sane(Pass(s, i, reply).list, Pass(s, i, reply).connections[j]) {
        PassKeepsSane(s, i, reply, j);
      }
    }
  }

  lemma BeginKeepsInv(s: System, i: nat)
    requires Inv(s) && i < |s.connections| && !s.exited && !s.connections[i].begun
    ensures Inv(Begin(s, i)) && Runs(Begin(s, i), i)
  {
    var c := s.connections[i].(begun := true);
    assert Sane(s.list, s.connections[i]);
    QuietLedger(s, i, c);
    QuietResults(s.connections, s.started, s.freed, s.ended, i, c, []);
    assert s.started + [] == s.started;
    ActivePut(s.connections, i, c);
  }

  // ---------------------------------------------------------------- whole runs

  /** What can happen next: `main` starts a connection, or the handler of one makes a pass. Passes of different
      connections may be taken in any order, which is more than the event loop does. */
  ghost predicate Next(s: System, t: System) {
    || (exists i: nat :: i < |s.connections| && !s.exited && !s.connections[i].begun && t == Begin(s, i))
    || (exists i: nat, reply :: Runs(s, i) && t == Pass(s, i, reply))
  }

  ghost predicate Run(run: seq<System>) {
    && run != []
    && (exists total, connections :: run[0] == Initial(total, connections))
    && forall k :: 0 < k < |run| ==> Next(run[k - 1], run[k])
  }

  lemma NextKeepsInv(s: System, t: System)
    requires Inv(s) && Next(s, t)
    ensures Inv(t)
  {
    if i: nat :| i < |s.connections| && !s.exited && !s.connections[i].begun && t == Begin(s, i) {
      BeginKeepsInv(s, i);
    } else {
      var i: nat, reply :| Runs(s, i) && t == Pass(s, i, reply);
      PassKeepsInv(s, i, reply);
    }
  }

  lemma {:induction false} RunKeepsInv(run: seq<System>, k: nat)
    requires Run(run) && k < |run|
    ensures Inv(run[k])
  {
    if k == 0 {
      var total, connections :| run[0] == Initial(total, connections);
      InitialInv(total, connections);
    } else {
      RunKeepsInv(run, k - 1);
      NextKeepsInv(run[k - 1], run[k]);
    }
  }

  /** A query that was started is started once and in list order, by the connection that holds it until it is
      freed, once. The counter is the number of connections that have begun and are not over. */
  lemma EachQueryOnce(run: seq<System>, k: nat)
    requires Run(run) && k < |run|
    ensures var s := run[k];
            && (forall q :: 0 <= q < |s.started| ==> s.started[q].query == q)
            && |s.started| <= s.total && s.list == Numbers(|s.started|, s.total)
            && (forall a, b :: 0 <= a < b < |s.freed| ==> s.freed[a] != s.freed[b])
            && (forall q: nat :: q < |s.started| <==>
                  (q in s.freed || exists i: nat :: Holds(s.connections, i, q)))
            && (forall i: nat, q: nat :: Holds(s.connections, i, q) ==> q !in s.freed && s.started[q].connection == i)
            && s.active == Active(s.connections)
  {
    RunKeepsInv(run, k);
    var s := run[k];
    forall q: nat | q < |s.started| && q !in s.freed ensures exists i: nat :: Holds(s.connections, i, q) {
      assert Holds(s.connections, s.started[q].connection, q);
    }
  }

  lemma FinishedAtZero(s: System)
    requires Inv(s) && !s.exited && s.connections != [] && s.active == 0
    requires forall i :: 0 <= i < |s.connections| ==> s.connections[i].begun
    ensures s.list == [] && |s.started| == s.total
    ensures forall i :: 0 <= i < |s.connections| ==> s.connections[i].over && s.connections[i].query.None?
    ensures forall q: nat :: q < s.total <==> q in s.freed
    ensures forall q: nat :: q < s.total ==> HasEnded(s.ended, q)
  {
    forall i | 0 <= i < |s.connections| ensures s.connections[i].over && Sane(s.list, s.connections[i]) {
      NoneActive(s.connections, i);
    }
    assert s.connections[0].over;
    forall q: nat | q < s.total ensures HasEnded(s.ended, q) {
      assert q in s.freed;
      assert !ReadsOf(s.connections, s.started[q].connection, q);
    }
  }

  /** Without a fatal exit: a query ends once, and unless it failed every row of its result was printed; a
      connection between two queries has nothing left to read, and only a connection that was made sends any. */
  lemma EveryRowRead(run: seq<System>, k: nat)
    requires Run(run) && k < |run| && !run[k].exited
    ensures var s := run[k];
            && (forall a, b :: 0 <= a < b < |s.ended| ==> s.ended[a].query != s.ended[b].query)
            && (forall e :: 0 <= e < |s.ended| && s.ended[e].Read? ==> s.ended[e].printed == s.ended[e].announced)
            && (forall q: nat :: q in s.freed <==>
                  HasEnded(s.ended, q) || exists i: nat :: ReadsOf(s.connections, i, q))
            && (forall i :: 0 <= i < |s.connections| ==>
                  var c := s.connections[i];
                  && (c.state.NextQuery? || c.state.HasQuery() || c.state.Leaving() ==> c.reading.None? && c.linked)
                  && (c.state.Reads() ==> c.reading.Some? && c.linked))
  {
    RunKeepsInv(run, k);
    var s := run[k];
    forall i | 0 <= i < |s.connections| ensures Sane(s.list, s.connections[i]) {}
    forall q: nat | q in s.freed && !HasEnded(s.ended, q) ensures exists i: nat :: ReadsOf(s.connections, i, q) {
      assert ReadsOf(s.connections, s.started[q].connection, q);
    }
  }

  /** The process exits exactly on a connect that failed and on a query that succeeded without a result; a failed
      query does not end it. */
  lemma ExitsExactly(s: System, i: nat, reply: Reply)
    requires Inv(s) && Runs(s, i)
    ensures var c := s.connections[i];
            Pass(s, i, reply).exited <==>
              || (c.state.Connected? && !c.linked)
              || (c.state.QueryDone? && c.ok && !reply.good)
  {
    assert Sane(s.list, s.connections[i]);
  }

  /** Once all have begun, the counter reads zero only when the list is empty, nothing is in progress and
      every query has been freed; and it does so as soon as the last connection is over. */
  lemma ZeroMeansFinished(run: seq<System>, k: nat)
    requires Run(run) && k < |run| && !run[k].exited && run[k].connections != []
    requires forall i :: 0 <= i < |run[k].connections| ==> run[k].connections[i].begun
    ensures run[k].active == 0 <==> (forall i :: 0 <= i < |run[k].connections| ==> run[k].connections[i].over)
    ensures run[k].active == 0 ==>
              && run[k].list == [] && |run[k].started| == run[k].total
              && (forall i :: 0 <= i < |run[k].connections| ==> run[k].connections[i].query.None?)
              && (forall q: nat :: q < run[k].total <==> q in run[k].freed)
              && (forall q: nat :: q < run[k].total ==> HasEnded(run[k].ended, q))
  {
    RunKeepsInv(run, k);
    var s := run[k];
    if s.active == 0 {
      FinishedAtZero(s);
    } else if forall i :: 0 <= i < |s.connections| ==> s.connections[i].over {
      AllOver(s.connections);
    }
  }

  lemma {:induction false} AllOver(cs: seq<Connection>)
    requires forall i :: 0 <= i < |cs| ==> cs[i].over
    ensures Active(cs) == 0
  {
    if cs != [] {
      AllOver(cs[..|cs| - 1]);
    }
  }

  // ---------------------------------------------------------------- the handler

  predicate ArmsFor(c: Connection, status: Wait) {
    c.state.Waits() ==> c.event == EventFor(status) && !status.Zero()
  }

  lemma ServingArms(c: Connection, list: seq<nat>, reply: Reply)
    requires c.state.NextQuery? || c.state.QueryCont? || c.state.FetchStart? || c.state.FetchCont?
    ensures ArmsFor(Moved(c, list, reply), reply.status)
  {
  }

  lemma LinkArms(c: Connection, list: seq<nat>, reply: Reply)
    requires c.state.Connecting? || c.state.ConnectCont? || c.state.Closing? || c.state.CloseCont?
    ensures ArmsFor(Moved(c, list, reply), reply.status)
  {
  }

  lemma MovedArms(c: Connection, list: seq<nat>, reply: Reply)
    ensures ArmsFor(Moved(c, list, reply), reply.status)
  {
    if c.state.NextQuery? || c.state.QueryCont? || c.state.FetchStart? || c.state.FetchCont? {
      ServingArms(c, list, reply);
    } else if c.state.Connecting? || c.state.ConnectCont? || c.state.Closing? || c.state.CloseCont? {
      LinkArms(c, list, reply);
    }
  }

  /** A pass that ends in a wait arms an event if and only if the status has the read, write or timeout bit. */
  lemma PassArmsExactly(s: System, i: nat, reply: Reply)
    requires Inv(s) && Runs(s, i) && Pass(s, i, reply).connections[i].state.Waits()
    ensures Pass(s, i, reply).connections[i].event.Armed() <==> reply.status.Arms()
    ensures !reply.status.Zero()
  {
    MovedArms(s.connections[i], s.list, reply);
  }

  /** A connection that is not over keeps the counter from zero. */
  lemma UnfinishedCounts(s: System, i: nat)
    requires Inv(s) && Runs(s, i)
    ensures s.active > 0
  {
    if s.active == 0 {
      NoneActive(s.connections, i);
    }
  }

  /** Connecting, then serving, then leaving. */
  function Phase(c: Connection): nat {
    if c.state.Connecting? || c.state.ConnectCont? || c.state.Connected? then 2
    else if c.state.Leaving() then 0 else 1
  }

  /** How far the phase has come. */
  function Stage(c: Connection): nat {
    match c.state
    case Connecting | ConnectCont | Closing | CloseCont | NextQuery => 1
    case Connected | Closed => 0
    case QueryCont => 4
    case QueryDone => 3
    case FetchStart | FetchCont | Fetched => 2
  }

  function RowRank(c: Connection): nat {
    if c.state.Fetched? then (if c.row then 2 * c.rows + 3 else 0) else 2 * c.rows + 2
  }

  /** The handler goes round again. */
  predicate Again(s: System, i: nat) {
    Runs(s, i) && !s.connections[i].state.Waits()
  }

  /** A pass that does not end the handler takes it down: to a later phase, to a shorter list, to a later
      stage or to fewer rows. */
  lemma PassDescends(s: System, i: nat, reply: Reply)
    requires Runs(s, i) && Again(Pass(s, i, reply), i)
    ensures var c, d, n := s.connections[i], Pass(s, i, reply).connections[i], |Pass(s, i, reply).list|;
            || Phase(d) < Phase(c)
            || (Phase(d) == Phase(c) && (
                  || n < |s.list|
                  || (n == |s.list| && (Stage(d) < Stage(c) || (Stage(d) == Stage(c) && RowRank(d) < RowRank(c))))))
  {
  }

  class Driver {
    const total: nat
    const replies: nat -> Reply

    var list: seq<nat>
    var sds: seq<Connection>
    var active: int
    var stopped: bool
    var exited: bool
    var clock: nat
    ghost var started: seq<Start>
    ghost var freed: seq<nat>
    ghost var ended: seq<Ended>

    ghost function Snapshot(): System
      reads this
    {
      System(total, list, sds, active, started, freed, ended, stopped, exited)
    }

    constructor (total: nat, connections: nat, replies: nat -> Reply)
      ensures Snapshot() == Initial(total, connections)
      ensures Inv(Snapshot()) && Rested()
    {
      this.total, this.replies := total, replies;
      list, sds, active := Numbers(0, total), seq(connections, _ => FRESH), 0;
      stopped, exited, clock, started, freed, ended := false, false, 0, [], [], [];
      new;
      InitialInv(total, connections);
    }

    /** Every call that waits asks for something that is armed. */
    ghost predicate AllWake() {
      forall k: nat :: replies(k).status.Zero() || replies(k).status.Arms()
    }

    /** Every connection that is begun and not over waits, and has an event armed if every wait arms one. */
    ghost predicate Rested()
      reads this
    {
      forall i :: 0 <= i < |sds| && Runs(Snapshot(), i) ==>
        sds[i].state.Waits() && (AllWake() ==> sds[i].event.Armed())
    }

    /** A connection waits for nothing that will come. */
    static predicate Stalled(sd: Connection) {
      sd.begun && !sd.over && sd.state.Waits() && !sd.event.Armed()
    }

    /** Others than i are as they were. */
    twostate predicate OnlyMoves(i: nat)
      reads this
    {
      |sds| == |old(sds)| && forall j :: 0 <= j < |sds| && j != i ==> sds[j] == old(sds[j])
    }

    method Ask() returns (reply: Reply)
      modifies this`clock
      ensures reply == replies(old(clock)) && clock == old(clock) + 1
    {
      reply := replies(clock);
      clock := clock + 1;
    }

    /** `next_event`. */
    static method NextEvent(st: State, status: Wait, sd: Connection) returns (r: Connection)
      ensures r == sd.(state := st, event := EventFor(status))
      ensures r.event == Event(status.read, status.write, status.timeout)
    {
      var read, write, timer := false, false, false;
      if status.read {
        read := true;
      }
      if status.write {
        write := true;
      }
      if status.timeout {
        timer := true;
      }
      r := sd.(event := Event(read, write, timer), state := st);
    }

    /** Wait with `next_event`, or go on with `NEXT_IMMEDIATE`. */
    static method WaitOrGo(status: Wait, wait: State, next: State, sd: Connection) returns (r: Connection)
      ensures r == Go(sd, status, wait, next)
    {
      if !status.Zero() {
        r := NextEvent(wait, status, sd);
      } else {
        r := sd.(state := next, event := NO_EVENT);
      }
    }

    /** States 0, 1 and 9. */
    method ConnectStates(i: nat)
      requires i < |sds| && Phase(sds[i]) == 2 && !exited
      modifies this
      ensures Snapshot() == Pass(old(Snapshot()), i, replies(old(clock)))
    {
      var reply := Ask();
      var sd := sds[i];
      if sd.state.Connected? {
        if !sd.ok {
          exited := true;
        } else {
          sd := sd.(state := NextQuery);
        }
      } else {
        sd := WaitOrGo(reply.status, ConnectCont, Connected, sd.(ok := reply.good, linked := reply.good));
      }
      sds := sds[i := sd];
    }

    /** State 20. */
    method QueryOver(i: nat)
      requires i < |sds| && sds[i].state.QueryDone? && sds[i].query.Some? && !exited
      modifies this
      ensures |sds| == old(|sds|)
      ensures old(sds[i].ok) && !exited ==>
                var reply := replies(old(clock));
                && sds[i].reading == Some(Reading(old(sds[i].query.value), reply.rows, 0))
                && sds[i].rows == reply.rows && sds[i].state == FetchStart
      ensures !old(sds[i].ok) ==> ended == old(ended) + [Failed(old(sds[i].query.value))] && sds[i].state == NextQuery
      ensures Snapshot() == Pass(old(Snapshot()), i, replies(old(clock)))
    {
      var reply := Ask();
      var sd := sds[i];
      var q := sd.query.value;
      freed := freed + [q];
      sd := sd.(query := None);
      if !sd.ok {
        ended := ended + [Failed(q)];
        sd := sd.(state := NextQuery);
      } else if !reply.good {
        exited := true;
      } else {
        sd := sd.(state := FetchStart, rows := reply.rows, reading := Some(Reading(q, reply.rows, 0)));
      }
      sds := sds[i := sd];
    }

    /** States 10 and 11. */
    method QueryStates(i: nat)
      requires i < |sds| && (sds[i].state.NextQuery? || sds[i].state.QueryCont?) && !exited
      modifies this
      ensures Snapshot() == Pass(old(Snapshot()), i, replies(old(clock)))
    {
      var reply := Ask();
      var sd := sds[i];
      if sd.state.NextQuery? && list == [] {
        sd := sd.(state := Closing);
      } else {
        if sd.state.NextQuery? {
          sd := sd.(query := Some(list[0]));
          started := started + [Start(list[0], i)];
          list := list[1..];
        }
        sd := WaitOrGo(reply.status, QueryCont, QueryDone, sd.(ok := reply.good));
      }
      sds := sds[i := sd];
    }

    /** State 39: a row is printed and the next one asked for; without a row the result is freed. */
    method PrintOrEnd(sd: Connection) returns (r: Connection)
      requires sd.state.Fetched? && sd.reading.Some?
      modifies this`ended
      ensures r == Moved(sd, list, Reply(MysqlTypes.Wait(false, false, false, false), true, 0))
      ensures r.state == if sd.row then FetchStart else NextQuery
      ensures ended == if Ends(sd).Some? then old(ended) + [Ends(sd).value] else old(ended)
    {
      var reading := sd.reading.value;
      if sd.row {
        r := sd.(reading := Some(reading.(printed := reading.printed + 1)), state := FetchStart);
      } else {
        ended := ended + [Read(reading.query, reading.announced, reading.printed)];
        r := sd.(reading := None, state := NextQuery);
      }
    }

    /** States 30, 31 and 39. */
    method FetchStates(i: nat)
      requires i < |sds| && sds[i].state.Reads() && sds[i].reading.Some? && !exited
      modifies this
      ensures Snapshot() == Pass(old(Snapshot()), i, replies(old(clock)))
    {
      var reply := Ask();
      var sd := sds[i];
      if sd.state.Fetched? {
        sd := PrintOrEnd(sd);
      } else {
        if reply.status.Zero() {
          sd := sd.(row := sd.rows > 0, rows := if sd.rows > 0 then sd.rows - 1 else 0);
        }
        sd := WaitOrGo(reply.status, FetchCont, Fetched, sd);
      }
      sds := sds[i := sd];
    }

    /** States 40, 41 and 50. */
    method CloseStates(i: nat)
      requires i < |sds| && sds[i].state.Leaving() && !exited
      modifies this
      ensures Snapshot() == Pass(old(Snapshot()), i, replies(old(clock)))
    {
      var reply := Ask();
      var sd := sds[i];
      if sd.state.Closed? {
        active := active - 1;
        if active == 0 {
          stopped := true;
        }
        sd := sd.(over := true);
      } else {
        sd := WaitOrGo(reply.status, CloseCont, Closed, sd);
      }
      sds := sds[i := sd];
    }

    method Switch(i: nat)
      requires Runs(Snapshot(), i) && Sane(list, sds[i])
      modifies this
      ensures Snapshot() == Pass(old(Snapshot()), i, replies(old(clock)))
    {
      match sds[i].state
      case Connecting | ConnectCont | Connected => ConnectStates(i);
      case NextQuery | QueryCont => QueryStates(i);
      case QueryDone => QueryOver(i);
      case FetchStart | FetchCont | Fetched => FetchStates(i);
      case Closing | CloseCont | Closed => CloseStates(i);
    }

    /** One call of the handler goes round until it has to wait, the connection is over or the process exits,
        and always comes to that, even when the library never waits. */
    method StateMachineHandler(i: nat)
      requires Inv(Snapshot()) && Runs(Snapshot(), i)
      modifies this
      ensures Inv(Snapshot()) && OnlyMoves(i) && sds[i].begun
      ensures !Again(Snapshot(), i)
      ensures AllWake() && Runs(Snapshot(), i) ==> sds[i].event.Armed()
      ensures stopped == (old(stopped) || (active == 0 && old(active) != 0))
    {
      var again := true;
      while again
        invariant Inv(Snapshot()) && OnlyMoves(i) && i < |sds| && sds[i].begun
        invariant if again then Runs(Snapshot(), i) else !Again(Snapshot(), i)
        invariant !again && AllWake() && Runs(Snapshot(), i) ==> sds[i].event.Armed()
        invariant again ==> active == old(active) && stopped == old(stopped)
        invariant stopped == (old(stopped) || (active == 0 && old(active) != 0))
        decreases again, Phase(sds[i]), |list|, Stage(sds[i]), RowRank(sds[i])
      {
        ghost var s, reply := Snapshot(), replies(clock);
        Switch(i);
        PassKeepsInv(s, i, reply);
        MovedBegun(s.connections[i], s.list, reply);
        again := !exited && !sds[i].over && !sds[i].state.Waits();
        if again {
          PassDescends(s, i, reply);
        } else if Runs(Snapshot(), i) {
          PassArmsExactly(s, i, reply);
        }
      }
    }

    /** `main` starts every connection in turn. */
    method StartAll()
      requires Inv(Snapshot()) && Rested() && !exited && forall j :: 0 <= j < |sds| ==> !sds[j].begun
      modifies this
      ensures Inv(Snapshot()) && Rested() && |sds| == old(|sds|)
      ensures !exited ==> forall j :: 0 <= j < |sds| ==> sds[j].begun
    {
      var i := 0;
      while i < |sds| && !exited
        invariant 0 <= i <= |sds| == old(|sds|) && Inv(Snapshot()) && Rested()
        invariant forall j :: 0 <= j < i && !exited ==> sds[j].begun
        invariant forall j :: i <= j < |sds| && !exited ==> !sds[j].begun
        decreases |sds| - i
      {
        Launch(i);
        i := i + 1;
      }
    }

    /** Between two events: all connections have begun, and every one that is not over waits. */
    ghost predicate Between()
      reads this
    {
      Inv(Snapshot()) && Rested() && forall j :: 0 <= j < |sds| && !exited ==> sds[j].begun
    }

    /** The connections that stalled stay as they are. */
    twostate predicate StalledStay()
      reads this
    {
      |sds| == old(|sds|) && forall j :: 0 <= j < |sds| && Stalled(old(sds)[j]) ==> sds[j] == old(sds)[j]
    }

    method Clear()
      requires Between()
      modifies this`stopped
      ensures Between() && !stopped
    {
      stopped := false;
    }

    /** One event, if it is armed. */
    method Fire(i: nat)
      requires Between()
      modifies this
      ensures Between() && StalledStay()
      ensures stopped == (old(stopped) || (active == 0 && old(active) != 0))
      ensures old(stopped) ==> active == old(active)
    {
      if !stopped && i < |sds| && !exited && !sds[i].over && sds[i].event.Armed() {
        StateMachineHandler(i);
      }
    }

    /** The event loop: `events` are connections whose event comes, one after the other, until the loop is
        told to return, which is when the count reaches zero. A connection that has none armed gets none, so one
        that stalled stays as it is. */
    method Dispatch(events: seq<nat>)
      requires Between()
      modifies this
      ensures Between() && StalledStay()
      ensures old(active) != 0 ==> (stopped <==> active == 0)
    {
      Clear();
      for k := 0 to |events|
        invariant Between() && StalledStay()
        invariant old(active) != 0 ==> (stopped <==> active == 0)
      {
        Fire(events[k]);
      }
    }

    /** After any events the list and the count are right; every unfinished connection waits, and has an event
        armed if every wait arms one, so that the loop cannot run dry early; when the count is zero, all is
        done. */
    method Drive(events: seq<nat>)
      requires Snapshot() == Initial(total, |sds|)
      modifies this
      ensures Inv(Snapshot()) && Rested() && |sds| == old(|sds|)
      ensures !exited && sds != [] && active == 0 ==>
                && list == [] && (forall q: nat :: q < total <==> q in freed)
                && (forall q: nat :: q < total ==> HasEnded(ended, q))
      ensures !exited ==> forall e :: 0 <= e < |ended| && ended[e].Read? ==> ended[e].printed == ended[e].announced
    {
      InitialInv(total, |sds|);
      StartAll();
      Dispatch(events);
      if !exited && sds != [] && active == 0 {
        FinishedAtZero(Snapshot());
      }
    }

    method Launch(i: nat)
      requires Inv(Snapshot()) && Rested() && !exited && i < |sds| && !sds[i].begun
      modifies this
      ensures Inv(Snapshot()) && Rested() && OnlyMoves(i) && sds[i].begun
    {
      BeginKeepsInv(Snapshot(), i);
      sds := sds[i := sds[i].(begun := true)];
      active := active + 1;
      StateMachineHandler(i);
    }
  }
}

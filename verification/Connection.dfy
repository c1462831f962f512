/**
 One upstream connection as the proxy sees it (a buffer of fed messages, the server, the
 messages not read yet, the cached transaction status and parameters, and everything that was
 ever written to it), and the operations with which pool.rs brings a connection back to a
 neutral state.

 Main result: `SanitizeExact`, the rule that every response cycle is consumed exactly.
 */
module Connection {
  import opened Protocol

  /** What the proxy writes: a client's message, the replay of a session's state (a SET for each of
      the parameters, a Parse for each of the statements, a Sync), the query of a scatter leg, or a
      message of its own. */
  datatype Entry =
    | FromClient(serial: nat, m: Frontend)
    | Replay(params: map<string, string>, stmts: map<string, Statement>)
    | LegQuery(sql: string)
    | Own(m: Frontend)

  datatype Conn = Conn(
    id: nat,
    server: Server,
    fed: seq<Sent>,
    unread: seq<Backend>,
    status: TxStatus,
    cache: map<string, string>,
    wire: seq<Entry>)

  datatype CopyCleanup = NoCopy | ClientOwesCopy | ServerStreamsCopy

  datatype Hygiene = Hygiene(awaiting: bool, copy: CopyCleanup)

  /** How the server takes the messages of one sanitization. */
  datatype Answers = Answers(copyFail: Outcome, cancel: Outcome, sync: Outcome, rollback: Outcome, discard: Outcome)

  const TRACKED: set<string> := {"application_name", "client_encoding"}

  function Connected(id: nat, defaults: map<string, string>): Conn {
    Conn(id, Server(map[], defaults, defaults, Idle, Ready), [], [], Idle, defaults, [])
  }

  // ---------------------------------------------------------------- reading and writing

  function Feed(c: Conn, m: Frontend, o: Outcome): Conn {
    c.(fed := c.fed + [(m, o)], wire := c.wire + [Own(m)])
  }

  function Flushed(c: Conn): Conn {
    var r := ReactAll(c.server, c.fed);
    c.(server := r.server, fed := [], unread := c.unread + r.replies)
  }

  function Send(c: Conn, m: Frontend, o: Outcome): Conn {
    Flushed(Feed(c, m, o))
  }

  /** The effect of a message that arrives right behind everything fed so far. */
  function Arrive(c: Conn, m: Frontend, o: Outcome): Conn {
    var r := React(c.server, m, o);
    c.(server := r.server, unread := c.unread + r.replies, wire := c.wire + [Own(m)])
  }

  function Cancel(c: Conn, o: Outcome): Conn {
    var r := CancelReaction(c.server, o);
    c.(server := r.server, unread := c.unread + r.replies)
  }

  function Next(c: Conn): Conn
    requires c.unread != []
  {
    c.(unread := c.unread[1..],
       status := if c.unread[0].ReadyForQuery? then c.unread[0].status else c.status,
       cache := Note(c.cache, c.unread[0]))
  }

  /** Read up to and including the next ReadyForQuery; None when it never comes. */
  function Drain(c: Conn): Option<Conn>
    decreases |c.unread|
  {
    if c.unread == [] then None
    else if c.unread[0].ReadyForQuery? then Some(Next(c))
    else Drain(Next(c))
  }

  function ReadAll(c: Conn): Conn
    decreases |c.unread|
  {
    if c.unread == [] then c else ReadAll(Next(c))
  }

  predicate FailsFirst(ms: seq<Backend>) {
    ms != [] && !ms[0].ReadyForQuery? && (ms[0].ErrorResponse? || FailsFirst(ms[1..]))
  }

  /** Run one command of the proxy's own and consume its response cycle. */
  function SimpleQuery(c: Conn, command: Command, o: Outcome): Option<Conn> {
    var d := Send(c, Run(command), o);
    if FailsFirst(d.unread) then None else Drain(d)
  }

  function CloseCycle(c: Conn, o: Outcome): Option<Conn> {
    Drain(Send(c, Sync, o))
  }

  /** The abort messages of `settle`, before anything is read. */
  function Stopped(c: Conn, copyFail: bool, awaiting: bool, a: Answers): Conn {
    var c1 := if copyFail then Send(c, CopyFail, a.copyFail) else c;
    if awaiting then Cancel(c1, a.cancel) else c1
  }

  function Settle(c: Conn, copyFail: bool, awaiting: bool, a: Answers): Option<Conn> {
    var d := Stopped(c, copyFail, awaiting, a);
    if Drain(d).Some? then Drain(d) else CloseCycle(ReadAll(d), a.sync)
  }

  function Quiesce(c: Conn, h: Hygiene, a: Answers): Option<Conn> {
    if h.copy.ClientOwesCopy? then Settle(c, true, h.awaiting, a)
    else if h.awaiting then Settle(c, false, true, a)
    else CloseCycle(c, a.sync)
  }

  function Sanitize(c: Conn, h: Hygiene, a: Answers): Option<Conn> {
    match Quiesce(c, h, a)
    case None => None
    case Some(d) =>
      match (if d.status.Idle? then Some(d) else SimpleQuery(d, Rollback, a.rollback))
      case None => None
      case Some(e) => SimpleQuery(e, DiscardAll, a.discard)
  }

  // ---------------------------------------------------------------- what a clean-up writes, even when it fails

  function SettleEntries(c: Conn, copyFail: bool, awaiting: bool, a: Answers): seq<Entry> {
    (if copyFail then [Own(CopyFail)] else []) +
    (if Drain(Stopped(c, copyFail, awaiting, a)).Some? then [] else [Own(Sync)])
  }

  function QuiesceEntries(c: Conn, h: Hygiene, a: Answers): seq<Entry> {
    if h.copy.ClientOwesCopy? then SettleEntries(c, true, h.awaiting, a)
    else if h.awaiting then SettleEntries(c, false, true, a)
    else [Own(Sync)]
  }

  function ResetEntries(d: Conn, a: Answers): seq<Entry> {
    if d.status.Idle? then [Own(Run(DiscardAll))]
    else [Own(Run(Rollback))] + (if SimpleQuery(d, Rollback, a.rollback).Some? then [Own(Run(DiscardAll))] else [])
  }

  function SanitizeEntries(c: Conn, h: Hygiene, a: Answers): seq<Entry> {
    QuiesceEntries(c, h, a) + (if Quiesce(c, h, a).Some? then ResetEntries(Quiesce(c, h, a).value, a) else [])
  }

  /** A connection whose liveness probe, a bare Sync, has been answered. */
  function Probed(c: Conn): Conn {
    c.(wire := c.wire + [Own(Sync)])
  }

  // ---------------------------------------------------------------- basic laws

  /** What the proxy has heard, and will hear from the unread messages, is what the server has. */
  predicate CacheTrue(c: Conn) {
    Reported(c.cache, c.unread) == c.server.params
  }

  predicate OnlyPipelined(c: Conn) {
    forall s <- c.fed :: Pipelined(s.0)
  }

  lemma FeedThenFlush(c: Conn, m: Frontend, o: Outcome)
    ensures Flushed(Feed(c, m, o)) == Arrive(Flushed(c), m, o)
  {
    var fed := c.fed + [(m, o)];
    assert fed[..|fed| - 1] == c.fed;
    var r := ReactAll(c.server, c.fed);
    var last := React(r.server, m, o);
    assert c.unread + (r.replies + last.replies) == c.unread + r.replies + last.replies;
  }

  lemma FlushedNothing(c: Conn)
    requires c.fed == []
    ensures Flushed(c) == c
  {
    assert c.unread + [] == c.unread;
  }

  lemma {:induction false} ReactAllReports(s: Server, sent: seq<Sent>)
    ensures Reports(s, ReactAll(s, sent))
  {
    if sent != [] {
      var before := ReactAll(s, sent[..|sent| - 1]);
      var (m, o) := sent[|sent| - 1];
      ReactAllReports(s, sent[..|sent| - 1]);
      ReportsMatch(before.server, m, o);
      ReportedAppend(s.params, before.replies, React(before.server, m, o).replies);
    }
  }

  lemma FlushedCache(c: Conn)
    requires CacheTrue(c)
    ensures CacheTrue(Flushed(c))
    ensures Flushed(c).server.defaults == c.server.defaults
  {
    ReactAllReports(c.server, c.fed);
    ReportedAppend(c.cache, c.unread, ReactAll(c.server, c.fed).replies);
  }

  lemma ArriveCache(c: Conn, m: Frontend, o: Outcome)
    requires CacheTrue(c)
    ensures CacheTrue(Arrive(c, m, o))
    ensures Arrive(c, m, o).server.defaults == c.server.defaults
  {
    ReportsMatch(c.server, m, o);
    ReportedAppend(c.cache, c.unread, React(c.server, m, o).replies);
  }

  lemma SendCache(c: Conn, m: Frontend, o: Outcome)
    requires CacheTrue(c)
    ensures CacheTrue(Send(c, m, o))
    ensures Send(c, m, o).server.defaults == c.server.defaults
  {
    FlushedCache(Feed(c, m, o));
  }

  lemma CancelCache(c: Conn, o: Outcome)
    requires CacheTrue(c)
    ensures CacheTrue(Cancel(c, o))
    ensures Cancel(c, o).server.defaults == c.server.defaults
  {
    if c.server.mode.Copying? {
      AbortReports(c.server, o, c.server.mode.extended);
      ReportedAppend(c.cache, c.unread, CancelReaction(c.server, o).replies);
    } else {
      assert c.unread + [] == c.unread;
    }
  }

  lemma NextCache(c: Conn)
    requires c.unread != []
    requires CacheTrue(c)
    ensures CacheTrue(Next(c))
  {
    ReportedHead(c.cache, c.unread);
  }

  lemma ReadyCountHead(ms: seq<Backend>)
    requires ms != []
    ensures ReadyCount(ms) == (if ms[0].ReadyForQuery? then 1 else 0) + ReadyCount(ms[1..])
  {
    assert ms == [ms[0]] + ms[1..];
    ReadyCountAppend([ms[0]], ms[1..]);
    assert [ms[0]][..0] == [];
  }

  /** Draining consumes exactly one ReadyForQuery and touches nothing but what it read. */
  lemma {:induction false} DrainLaw(c: Conn)
    ensures Drain(c).None? <==> ReadyCount(c.unread) == 0
    ensures Drain(c).Some? ==>
              var d := Drain(c).value;
              && ReadyCount(d.unread) == ReadyCount(c.unread) - 1
              && d == c.(unread := d.unread, status := d.status, cache := d.cache)
              && Reported(d.cache, d.unread) == Reported(c.cache, c.unread)
    decreases |c.unread|
  {
    if c.unread != [] {
      ReadyCountHead(c.unread);
      ReportedHead(c.cache, c.unread);
      if !c.unread[0].ReadyForQuery? {
        DrainLaw(Next(c));
      }
    }
  }

  /** When the only ReadyForQuery comes last, draining reads everything and caches its status. */
  lemma {:induction false} DrainToLast(c: Conn)
    requires c.unread != [] && c.unread[|c.unread| - 1].ReadyForQuery?
    requires ReadyCount(c.unread) == 1
    ensures Drain(c).Some? && Drain(c).value.unread == []
    ensures Drain(c).value.status == c.unread[|c.unread| - 1].status
    decreases |c.unread|
  {
    ReadyCountHead(c.unread);
    if c.unread[0].ReadyForQuery? {
      NoReadyCount(c.unread[1..]);
    } else {
      DrainToLast(Next(c));
    }
  }

  lemma {:induction false} ReadAllLaw(c: Conn)
    ensures var d := ReadAll(c);
            && d == c.(unread := [], status := d.status, cache := d.cache)
            && d.cache == Reported(c.cache, c.unread)
    decreases |c.unread|
  {
    if c.unread != [] {
      ReportedHead(c.cache, c.unread);
      ReadAllLaw(Next(c));
    }
  }

  // ---------------------------------------------------------------- responses owed

  /** ReadyForQuery messages the connection has still to deliver: those already sent by the
      server, and the one that ends a COPY started by Query. */
  function Owed(c: Conn): nat {
    ReadyCount(c.unread) + (if c.server.mode == Copying(false) then 1 else 0)
  }

  lemma StatusesNotReady(reports: seq<(string, string)>)
    ensures ReadyCount(Statuses(reports)) == 0
  {
    NoReadyCount(Statuses(reports));
  }

  lemma AbortCount(s: Server, o: Outcome)
    ensures ReadyCount(AbortBatch(s, o).replies) == 0
    ensures ReadyCount(AbortCopy(s, o, false).replies) == 1
  {
    StatusesNotReady(o.reports);
    ReadyCountAppend(Statuses(o.reports), [ErrorResponse(ServerFault)]);
    ReadyCountAppend(AbortBatch(s, o).replies, [ReadyForQuery(AbortBatch(s, o).server.tx)]);
    NoReadyCount([ErrorResponse(ServerFault)]);
    assert ReadyCount([ReadyForQuery(AbortBatch(s, o).server.tx)]) == 1;
  }

  predicate Quiet(m: Frontend) {
    Pipelined(m) || m.CopyFail? || m.CopyData? || m.CopyDone? || m.Flush?
  }

  lemma QuietInCopy(s: Server, extended: bool, m: Frontend, o: Outcome)
    requires Quiet(m) && s.mode == Copying(extended)
    ensures var r := RunCopy(s, extended, m, o);
            ReadyCount(r.replies) + (if r.server.mode == Copying(false) then 1 else 0) == (if extended then 0 else 1)
  {
    AbortCount(s, o);
    if m.CopyDone? && o.ok && !extended {
      ReadyCountAppend([Data], [ReadyForQuery(o.tx)]);
      NoReadyCount([Data]);
      assert [Data] + [ReadyForQuery(o.tx)] == [Data, ReadyForQuery(o.tx)];
      assert ReadyCount([ReadyForQuery(o.tx)]) == 1;
    } else if m.CopyDone? && o.ok {
      NoReadyCount([Data]);
    }
  }

  lemma QuietWhenReady(s: Server, m: Frontend, o: Outcome)
    requires Quiet(m)
    ensures var r := RunReady(s, m, o);
            ReadyCount(r.replies) == 0 && (s.mode.Ready? ==> r.server.mode != Copying(false))
  {
    if m.Execute? {
      QuietExecute(s, o);
    } else {
      AbortCount(s, o);
      var r := RunReady(s, m, o);
      if r != AbortBatch(s, o) {
        NoReadyCount(r.replies);
      }
    }
  }

  lemma QuietExecute(s: Server, o: Outcome)
    ensures var r := RunReady(s, Execute, o);
            ReadyCount(r.replies) == 0 && (s.mode.Ready? ==> r.server.mode != Copying(false))
  {
    if o.ok {
      StatusesNotReady(o.reports);
      ReadyCountAppend(Statuses(o.reports), ExecuteTail(o));
      NoReadyCount(ExecuteTail(o));
    } else {
      AbortCount(s, o);
    }
  }

  /** Pipelined messages and COPY messages never add to what is owed. */
  lemma QuietKeepsOwed(c: Conn, m: Frontend, o: Outcome)
    requires Quiet(m)
    ensures Owed(Arrive(c, m, o)) == Owed(c)
  {
    ReadyCountAppend(c.unread, React(c.server, m, o).replies);
    match c.server.mode
    case Skip =>
    case Copying(extended) => QuietInCopy(c.server, extended, m, o);
    case Ready => QuietWhenReady(c.server, m, o);
  }

  lemma {:induction false} FlushKeepsOwed(c: Conn)
    requires OnlyPipelined(c)
    ensures Owed(Flushed(c)) == Owed(c)
    decreases |c.fed|
  {
    if c.fed == [] {
      FlushedNothing(c);
    } else {
      var b := c.(fed := c.fed[..|c.fed| - 1]);
      var (m, o) := c.fed[|c.fed| - 1];
      assert c.fed == b.fed + [(m, o)];
      assert Flushed(c) == Flushed(Feed(b, m, o)).(wire := c.wire);
      FlushKeepsOwed(b);
      FeedThenFlush(b, m, o);
      assert c.fed[|c.fed| - 1] in c.fed;
      QuietKeepsOwed(Flushed(b), m, o);
    }
  }

  lemma CancelKeepsOwed(c: Conn, o: Outcome)
    ensures Owed(Cancel(c, o)) == Owed(c)
    ensures !Cancel(c, o).server.mode.Copying?
  {
    var r := CancelReaction(c.server, o);
    ReadyCountAppend(c.unread, r.replies);
    AbortCount(c.server, o);
  }

  /** Sync asks for one more ReadyForQuery unless a COPY swallows it. */
  lemma SyncOwes(c: Conn, o: Outcome)
    ensures Owed(Arrive(c, Sync, o)) == Owed(c) + (if c.server.mode.Copying? then 0 else 1)
    ensures Arrive(c, Sync, o).server == if c.server.mode.Skip? then c.server.(mode := Ready) else c.server
    ensures !c.server.mode.Copying? ==>
              var u := Arrive(c, Sync, o).unread; u != [] && u[|u| - 1] == ReadyForQuery(c.server.tx)
  {
    var r := React(c.server, Sync, o);
    ReadyCountAppend(c.unread, r.replies);
    if !c.server.mode.Copying? {
      SyncCount(c.server.tx);
    }
  }

  lemma SyncCount(tx: TxStatus)
    ensures ReadyCount([ReadyForQuery(tx)]) == 1
    ensures ReadyCount([ErrorResponse(ServerFault), ReadyForQuery(tx)]) == 1
  {
    ReadyCountAppend([ErrorResponse(ServerFault)], [ReadyForQuery(tx)]);
    NoReadyCount([ErrorResponse(ServerFault)]);
    assert [ErrorResponse(ServerFault)] + [ReadyForQuery(tx)] == [ErrorResponse(ServerFault), ReadyForQuery(tx)];
  }

  // ---------------------------------------------------------------- sanitizing

  /** Nothing buffered, nothing unread, nothing running: the next response read answers the
      next message sent. */
  predicate AtBoundary(c: Conn) {
    c.fed == [] && c.unread == [] && c.server.mode.Ready? && c.status == c.server.tx
  }

  /** The neutral state that DISCARD ALL leaves. */
  predicate Neutral(c: Conn) {
    && AtBoundary(c)
    && c.server.tx.Idle?
    && c.server.stmts == map[]
    && c.server.params == c.server.defaults
    && c.cache == c.server.params
  }

  /** Out of step: an earlier answer is still to come, or the server ignores what it is sent. */
  predicate OutOfStep(c: Conn) {
    ReadyCount(c.unread) >= 1 || (c.fed == [] && !c.server.mode.Ready?)
  }

  lemma {:induction false} FailsFirstLaw(a: seq<Backend>, b: seq<Backend>)
    requires ReadyCount(a) == 0
    ensures FailsFirst(b) ==> FailsFirst(a + b)
  {
    if a == [] {
      assert a + b == b;
    } else {
      ReadyCountHead(a);
      assert (a + b)[1..] == a[1..] + b;
      FailsFirstLaw(a[1..], b);
    }
  }

  /** A command of the proxy's own is answered by exactly one ReadyForQuery, which comes last. */
  lemma CommandReplies(s: Server, command: Command, o: Outcome)
    requires s.mode.Ready?
    ensures var r := React(s, Run(command), o);
            && ReadyCount(r.replies) == 1
            && r.replies != []
            && r.replies[|r.replies| - 1] == ReadyForQuery(r.server.tx)
            && r.server.mode.Ready?
            && (command.DiscardAll? && !FailsFirst(r.replies) ==>
                  s.tx.Idle? && r.server == s.(stmts := map[], params := s.defaults))
  {
    var r := React(s, Run(command), o);
    var last := [ReadyForQuery(r.server.tx)];
    var front := r.replies[..|r.replies| - 1];
    assert r.replies == front + last;
    StatusesNotReady(o.reports);
    if command.Rollback? {
      assert front == Statuses(o.reports) + [Data];
      ReadyCountAppend(Statuses(o.reports), [Data]);
      NoReadyCount([Data]);
    } else {
      NoReadyCount(front);
    }
    ReadyCountAppend(front, last);
    assert ReadyCount(last) == 1;
  }

  lemma AnsweredOnlyWhenReady(g: Conn, command: Command, o: Outcome)
    requires Owed(g) == 0 && ReadyCount(Arrive(g, Run(command), o).unread) > 0
    ensures g.server.mode.Ready?
  {
    ReadyCountAppend(g.unread, React(g.server, Run(command), o).replies);
    AbortCount(g.server, o);
  }

  lemma ArriveCommand(g: Conn, command: Command, o: Outcome)
    requires g.server.mode.Ready? && Owed(g) == 0 && CacheTrue(g)
    ensures var e := Arrive(g, Run(command), o);
            && Drain(e).Some?
            && Drain(e).value == e.(unread := [], status := e.server.tx, cache := e.server.params)
            && e.server.mode.Ready? && e.server.defaults == g.server.defaults
  {
    var e := Arrive(g, Run(command), o);
    var r := React(g.server, Run(command), o);
    CommandReplies(g.server, command, o);
    ReadyCountAppend(g.unread, r.replies);
    assert e.unread[|e.unread| - 1] == r.replies[|r.replies| - 1];
    DrainToLast(e);
    DrainLaw(e);
    ArriveCache(g, Run(command), o);
    assert Reported(Drain(e).value.cache, []) == Drain(e).value.cache;
  }

  /** With nothing owed, a command that succeeds leaves the connection in step. */
  lemma InStepCommand(c: Conn, command: Command, o: Outcome)
    requires OnlyPipelined(c) && CacheTrue(c) && Owed(c) == 0
    requires SimpleQuery(c, command, o).Some?
    ensures var d := SimpleQuery(c, command, o).value;
            && AtBoundary(d) && CacheTrue(d) && d.id == c.id
            && d.server.defaults == c.server.defaults
            && (command.DiscardAll? ==> Flushed(c).server.tx.Idle? && Neutral(d))
  {
    var g := Flushed(c);
    FeedThenFlush(c, Run(command), o);
    FlushKeepsOwed(c);
    FlushedCache(c);
    DrainLaw(Arrive(g, Run(command), o));
    AnsweredOnlyWhenReady(g, command, o);
    ArriveCommand(g, command, o);
    CommandReplies(g.server, command, o);
    FailsFirstLaw(g.unread, React(g.server, Run(command), o).replies);
  }

  /** Out of step stays out of step: no command of the proxy's own repairs it. */
  lemma OutOfStepCommand(c: Conn, command: Command, o: Outcome)
    requires OnlyPipelined(c) && (OutOfStep(c) || Owed(c) >= 1)
    requires SimpleQuery(c, command, o).Some?
    ensures OutOfStep(SimpleQuery(c, command, o).value)
    ensures SimpleQuery(c, command, o).value.fed == []
  {
    var g := Flushed(c);
    FeedThenFlush(c, Run(command), o);
    FlushKeepsOwed(c);
    DrainLaw(Send(c, Run(command), o));
    CommandOutOfStep(g, command, o);
  }

  /** The command arrives at a server that does not answer it next. */
  lemma CommandOutOfStep(g: Conn, command: Command, o: Outcome)
    requires Owed(g) >= 1 || !g.server.mode.Ready?
    ensures var e := Arrive(g, Run(command), o);
            FailsFirst(e.unread) || ReadyCount(e.unread) >= 2 || !e.server.mode.Ready? || ReadyCount(e.unread) == 0
  {
    var r := React(g.server, Run(command), o);
    ReadyCountAppend(g.unread, r.replies);
    match g.server.mode
    case Ready => CommandReplies(g.server, command, o);
    case Skip =>
    case Copying(extended) =>
      AbortCount(g.server, o);
      if !extended && ReadyCount(g.unread) == 0 {
        CopyAbortFails(g.server, o);
        FailsFirstLaw(g.unread, r.replies);
      }
  }

  lemma BatchAbortFails(s: Server, o: Outcome)
    ensures FailsFirst(AbortBatch(s, o).replies)
  {
    StatusesNotReady(o.reports);
    FailsFirstLaw(Statuses(o.reports), [ErrorResponse(ServerFault)]);
  }

  lemma {:induction false} FailsFirstKeeps(a: seq<Backend>, b: seq<Backend>)
    requires FailsFirst(a)
    ensures FailsFirst(a + b)
  {
    assert (a + b)[1..] == a[1..] + b;
    if !a[0].ErrorResponse? {
      FailsFirstKeeps(a[1..], b);
    }
  }

  lemma CopyAbortFails(s: Server, o: Outcome)
    ensures FailsFirst(AbortCopy(s, o, false).replies)
  {
    var st := Statuses(o.reports);
    var tail := [ErrorResponse(ServerFault), ReadyForQuery(AbortBatch(s, o).server.tx)];
    StatusesNotReady(o.reports);
    FailsFirstLaw(st, tail);
    assert AbortCopy(s, o, false).replies == st + tail;
  }

  /** How many cycles may be open for `sanitize` to be able to close them: the one the pump is
      waiting for, or none. */
  function Allowed(h: Hygiene): nat {
    if h.awaiting || h.copy.ClientOwesCopy? then 1 else 0
  }

  /** What the three ways of stopping the server have in common. */
  ghost predicate KeepsConn(c: Conn, d: Conn) {
    CacheTrue(d) && OnlyPipelined(d) && d.id == c.id && d.server.defaults == c.server.defaults
  }

  lemma StoppedLaw(c: Conn, copyFail: bool, awaiting: bool, a: Answers)
    requires OnlyPipelined(c) && CacheTrue(c) && (copyFail || awaiting)
    ensures var d := Stopped(c, copyFail, awaiting, a);
            Owed(d) == Owed(c) && !d.server.mode.Copying? && KeepsConn(c, d)
  {
    if copyFail {
      FeedThenFlush(c, CopyFail, a.copyFail);
      FlushKeepsOwed(c);
      QuietKeepsOwed(Flushed(c), CopyFail, a.copyFail);
      SendCache(c, CopyFail, a.copyFail);
    }
    var c1 := if copyFail then Send(c, CopyFail, a.copyFail) else c;
    CancelKeepsOwed(c1, a.cancel);
    CancelCache(c1, a.cancel);
  }

  lemma CloseCycleLaw(c: Conn, o: Outcome)
    requires OnlyPipelined(c) && CacheTrue(c) && CloseCycle(c, o).Some?
    ensures var d := CloseCycle(c, o).value;
            && KeepsConn(c, d)
            && (Owed(c) == 0 ==> Owed(d) == 0 && d.fed == [])
            && (Owed(c) >= 1 ==> OutOfStep(d))
  {
    var g := Flushed(c);
    FeedThenFlush(c, Sync, o);
    FlushKeepsOwed(c);
    SyncOwes(g, o);
    SendCache(c, Sync, o);
    DrainLaw(Send(c, Sync, o));
  }

  lemma SettleLaw(c: Conn, copyFail: bool, awaiting: bool, a: Answers)
    requires OnlyPipelined(c) && CacheTrue(c) && (copyFail || awaiting)
    requires Settle(c, copyFail, awaiting, a).Some?
    ensures var d := Settle(c, copyFail, awaiting, a).value;
            && KeepsConn(c, d)
            && (Owed(c) <= 1 ==> Owed(d) == 0)
            && (Owed(c) >= 2 ==> OutOfStep(d))
  {
    StoppedLaw(c, copyFail, awaiting, a);
    var s := Stopped(c, copyFail, awaiting, a);
    DrainLaw(s);
    if Drain(s).None? {
      ReadAllLaw(s);
      CloseCycleLaw(ReadAll(s), a.sync);
    }
  }

  lemma QuiesceLaw(c: Conn, h: Hygiene, a: Answers)
    requires OnlyPipelined(c) && CacheTrue(c) && Quiesce(c, h, a).Some?
    ensures var d := Quiesce(c, h, a).value;
            && KeepsConn(c, d)
            && (Owed(c) <= Allowed(h) ==> Owed(d) == 0)
            && (Owed(c) > Allowed(h) ==> OutOfStep(d))
  {
    if h.copy.ClientOwesCopy? {
      SettleLaw(c, true, h.awaiting, a);
    } else if h.awaiting {
      SettleLaw(c, false, true, a);
    } else {
      CloseCycleLaw(c, a.sync);
    }
  }

  /** Every response cycle is consumed exactly. For every connection state, whenever `sanitize`
      succeeds the connection is neutral if and only if no more ReadyForQuery were owed than the
      pump knew about: one when it awaited a response or owed COPY data, otherwise none. Each one
      beyond that shifts all later response cycles. */
  lemma SanitizeExact(c: Conn, h: Hygiene, a: Answers)
    requires OnlyPipelined(c) && CacheTrue(c)
    requires Sanitize(c, h, a).Some?
    ensures Neutral(Sanitize(c, h, a).value) <==> Owed(c) <= Allowed(h)
    ensures Sanitize(c, h, a).value.id == c.id
    ensures Sanitize(c, h, a).value.server.defaults == c.server.defaults
  {
    QuiesceLaw(c, h, a);
    var d := Quiesce(c, h, a).value;
    var e := if d.status.Idle? then d else SimpleQuery(d, Rollback, a.rollback).value;
    if !d.status.Idle? {
      SimpleQueryKeeps(d, Rollback, a.rollback);
    }
    SimpleQueryKeeps(e, DiscardAll, a.discard);
    if Owed(c) <= Allowed(h) {
      if !d.status.Idle? {
        InStepCommand(d, Rollback, a.rollback);
      }
      InStepCommand(e, DiscardAll, a.discard);
    } else {
      if !d.status.Idle? {
        OutOfStepCommand(d, Rollback, a.rollback);
      }
      OutOfStepCommand(e, DiscardAll, a.discard);
      NoReadyCount([]);
    }
  }

  lemma SimpleQueryKeeps(c: Conn, command: Command, o: Outcome)
    requires SimpleQuery(c, command, o).Some? && CacheTrue(c)
    ensures KeepsConn(c, SimpleQuery(c, command, o).value)
  {
    SendCache(c, Run(command), o);
    DrainLaw(Send(c, Run(command), o));
  }

  // ---------------------------------------------------------------- when it succeeds

  lemma {:induction false} FailsFirstExactly(a: seq<Backend>, b: seq<Backend>)
    requires ReadyCount(a) == 0
    ensures FailsFirst(a + b) <==> !NoError(a) || FailsFirst(b)
  {
    if a == [] {
      assert a + b == b;
    } else {
      ReadyCountHead(a);
      assert (a + b)[1..] == a[1..] + b;
      assert forall i :: 0 < i < |a| ==> a[i] == a[1..][i - 1];
      NoReadyCount(a);
      FailsFirstExactly(a[1..], b);
    }
  }

  /** Whether a ready server carries out a command of the proxy's own. */
  predicate CarriesOut(s: Server, command: Command, o: Outcome) {
    match command
    case Rollback => true
    case DiscardAll => s.tx.Idle? && o.ok
    case SetParam(_, _) => o.ok
  }

  lemma CarriedOut(s: Server, command: Command, o: Outcome)
    requires s.mode.Ready?
    ensures FailsFirst(React(s, Run(command), o).replies) <==> !CarriesOut(s, command, o)
  {
    var r := React(s, Run(command), o);
    if command.Rollback? {
      StatusesNotReady(o.reports);
      DoneReplies(Idle);
      FailsFirstExactly(Statuses(o.reports), [Data, ReadyForQuery(Idle)]);
    } else if CarriesOut(s, command, o) {
      DoneReplies(r.replies[2].status);
      assert r.replies[1..] == [Data, r.replies[2]];
    }
  }

  lemma DoneReplies(tx: TxStatus)
    ensures !FailsFirst([Data, ReadyForQuery(tx)])
  {
    assert [Data, ReadyForQuery(tx)][1..] == [ReadyForQuery(tx)];
  }

  /** With nothing owed, a command of the proxy's own succeeds exactly when the server is ready behind
      everything buffered, has reported no error, and carries the command out. */
  lemma CommandSucceedsExactly(c: Conn, command: Command, o: Outcome)
    requires OnlyPipelined(c) && Owed(c) == 0
    ensures var f := Flushed(c);
            SimpleQuery(c, command, o).Some? <==>
            f.server.mode.Ready? && NoError(f.unread) && CarriesOut(f.server, command, o)
  {
    FeedThenFlush(c, Run(command), o);
    FlushKeepsOwed(c);
    DrainLaw(Send(c, Run(command), o));
    CommandAnswered(Flushed(c), command, o);
  }

  lemma CommandAnswered(f: Conn, command: Command, o: Outcome)
    requires Owed(f) == 0
    ensures var e := Arrive(f, Run(command), o);
            !FailsFirst(e.unread) && ReadyCount(e.unread) > 0 <==>
            f.server.mode.Ready? && NoError(f.unread) && CarriesOut(f.server, command, o)
  {
    var r := React(f.server, Run(command), o);
    ReadyCountAppend(f.unread, r.replies);
    FailsFirstExactly(f.unread, r.replies);
    match f.server.mode
    case Ready =>
      CommandReplies(f.server, command, o);
      CarriedOut(f.server, command, o);
    case Skip =>
    case Copying(_) => BatchAbortFails(f.server, o);
  }

  /** Quieting down fails only on a COPY that nothing stops: one whose Execute was still buffered. */
  lemma QuiesceSucceedsExactly(c: Conn, h: Hygiene, a: Answers)
    requires OnlyPipelined(c) && CacheTrue(c) && Owed(c) <= Allowed(h)
    ensures var s := if Allowed(h) == 1 then Stopped(c, h.copy.ClientOwesCopy?, h.awaiting, a) else c;
            Quiesce(c, h, a).Some? <==> Owed(c) == 1 || !Flushed(s).server.mode.Copying?
  {
    if Allowed(h) == 1 {
      var s := Stopped(c, h.copy.ClientOwesCopy?, h.awaiting, a);
      StoppedLaw(c, h.copy.ClientOwesCopy?, h.awaiting, a);
      DrainLaw(s);
      ReadAllLaw(s);
      SyncSucceedsExactly(ReadAll(s), a.sync);
      assert Flushed(ReadAll(s)).server == Flushed(s).server;
    } else {
      SyncSucceedsExactly(c, a.sync);
    }
  }

  lemma SyncSucceedsExactly(c: Conn, o: Outcome)
    requires OnlyPipelined(c) && Owed(c) == 0
    ensures CloseCycle(c, o).Some? <==> !Flushed(c).server.mode.Copying?
  {
    FeedThenFlush(c, Sync, o);
    FlushKeepsOwed(c);
    SyncOwes(Flushed(c), o);
    DrainLaw(Send(c, Sync, o));
  }

  /** Exactly when `sanitize` succeeds on a connection that owes no more than announced. */
  lemma SanitizeSucceedsExactly(c: Conn, h: Hygiene, a: Answers)
    requires OnlyPipelined(c) && CacheTrue(c) && Owed(c) <= Allowed(h)
    ensures Sanitize(c, h, a).Some? <==>
            && Quiesce(c, h, a).Some?
            && var d := Quiesce(c, h, a).value;
               var f := Flushed(d);
               && f.server.mode.Ready? && NoError(f.unread)
               && (d.status.Idle? ==> f.server.tx.Idle?)
               && a.discard.ok
  {
    if Quiesce(c, h, a).Some? {
      var d := Quiesce(c, h, a).value;
      QuiesceLaw(c, h, a);
      if d.status.Idle? {
        CommandSucceedsExactly(d, DiscardAll, a.discard);
      } else {
        CommandSucceedsExactly(d, Rollback, a.rollback);
        if SimpleQuery(d, Rollback, a.rollback).Some? {
          RolledBack(d, a.rollback);
          CommandSucceedsExactly(SimpleQuery(d, Rollback, a.rollback).value, DiscardAll, a.discard);
        }
      }
    }
  }

  lemma RolledBack(c: Conn, o: Outcome)
    requires OnlyPipelined(c) && CacheTrue(c) && Owed(c) == 0 && SimpleQuery(c, Rollback, o).Some?
    ensures var e := SimpleQuery(c, Rollback, o).value;
            && OnlyPipelined(e) && Owed(e) == 0 && Flushed(e) == e
            && e.server.mode.Ready? && e.server.tx.Idle? && e.unread == []
  {
    var g := Flushed(c);
    FeedThenFlush(c, Run(Rollback), o);
    FlushKeepsOwed(c);
    FlushedCache(c);
    CommandSucceedsExactly(c, Rollback, o);
    ArriveCommand(g, Rollback, o);
    FlushedNothing(SimpleQuery(c, Rollback, o).value);
  }

  /** DISCARD ALL only ever reaches the server outside a transaction. */
  lemma DiscardOutsideTransaction(c: Conn, h: Hygiene, a: Answers)
    requires OnlyPipelined(c) && CacheTrue(c) && Owed(c) <= Allowed(h)
    requires Sanitize(c, h, a).Some?
    ensures var d := Quiesce(c, h, a).value;
            var e := if d.status.Idle? then d else SimpleQuery(d, Rollback, a.rollback).value;
            Flushed(e).server.tx.Idle? && Flushed(e).server.mode.Ready?
  {
    QuiesceLaw(c, h, a);
    var d := Quiesce(c, h, a).value;
    var e := if d.status.Idle? then d else SimpleQuery(d, Rollback, a.rollback).value;
    if !d.status.Idle? {
      InStepCommand(d, Rollback, a.rollback);
    }
    InStepCommand(e, DiscardAll, a.discard);
    FeedThenFlush(e, Run(DiscardAll), a.discard);
    FlushKeepsOwed(e);
    DrainLaw(Send(e, Run(DiscardAll), a.discard));
    AnsweredOnlyWhenReady(Flushed(e), DiscardAll, a.discard);
  }
}

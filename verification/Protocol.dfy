/**
 The part of the PostgreSQL frontend/backend protocol that the proxy depends on, and an
 abstract server backend that speaks it (sections 55.2.2, 55.2.3, 55.2.6 and 55.7 of the
 PostgreSQL 16 documentation).

 What a server does with a message is open: every message comes with an `Outcome`, and all
 results are stated for every outcome.
 */
module Protocol {

  datatype Option<+T> = None | Some(value: T)

  datatype TxStatus = Idle | InTx | Failed

  /** A protocol-level prepared statement. */
  datatype Statement = Statement(sql: string, oids: seq<int>)

  datatype Target = OfStatement | OfPortal

  /** The SQL the proxy itself runs on an upstream connection. */
  datatype Command = Rollback | DiscardAll | SetParam(name: string, value: string)

  /** Client-to-server messages; the unnamed statement has the name "". */
  datatype Frontend =
    | Query(sql: string)
    | Parse(name: string, stmt: Statement)
    | Bind(statement: string)
    | Describe
    | Execute
    | Close(target: Target, name: string)
    | Flush
    | Sync
    | CopyData
    | CopyDone
    | CopyFail
    | Run(command: Command)

  /** SQLSTATEs: whatever the server reports, 08006, 0A000, 42P05, or an interceptor's own. */
  datatype Code = ServerFault | ConnectionFailure | NotSupported | DuplicateStatement | Chosen(text: string)

  /** Server-to-client messages. `ParameterReset` stands for the ParameterStatus messages that
      together report a whole parameter map, as DISCARD ALL does. */
  datatype Backend =
    | ReadyForQuery(status: TxStatus)
    | ParameterStatus(name: string, value: string)
    | ParameterReset(values: map<string, string>)
    | ErrorResponse(code: Code)
    | CopyInResponse
    | CopyOutResponse
    | ParseComplete
    | CloseComplete
    | Data

  /** How the result of an executed command starts. */
  datatype Form = Tuples | CopyFromClient | CopyToClient

  /** What the server makes of one message: success or error, the parameter changes it reports,
      the named statements the SQL deallocates, the transaction status it leaves. A client message
      also has a serial number, which tells it from every other one. */
  datatype Outcome = Outcome(
    ok: bool,
    reports: seq<(string, string)>,
    dealloc: set<string>,
    tx: TxStatus,
    shape: Form,
    serial: nat)

  /** Ready for the next message, receiving COPY data, or ignoring messages up to Sync. */
  datatype Mode = Ready | Copying(extended: bool) | Skip

  datatype Server = Server(
    stmts: map<string, Statement>,
    params: map<string, string>,
    defaults: map<string, string>,
    tx: TxStatus,
    mode: Mode)

  datatype Reaction = Reaction(server: Server, replies: seq<Backend>)

  type Sent = (Frontend, Outcome)

  // ---------------------------------------------------------------- parameter reports

  function Lookup(params: map<string, string>, name: string): string {
    if name in params then params[name] else ""
  }

  function Note(params: map<string, string>, m: Backend): map<string, string> {
    match m
    case ParameterStatus(n, v) => params[n := v]
    case ParameterReset(values) => values
    case _ => params
  }

  /** `params` after hearing the reports in `ms`. */
  function Reported(params: map<string, string>, ms: seq<Backend>): map<string, string> {
    if ms == [] then params else Note(Reported(params, ms[..|ms| - 1]), ms[|ms| - 1])
  }

  function Statuses(reports: seq<(string, string)>): seq<Backend> {
    seq(|reports|, i requires 0 <= i < |reports| => ParameterStatus(reports[i].0, reports[i].1))
  }

  lemma {:induction false} ReportedAppend(params: map<string, string>, a: seq<Backend>, b: seq<Backend>)
    ensures Reported(params, a + b) == Reported(Reported(params, a), b)
  {
    if b == [] {
      assert a + b == a;
    } else {
      assert (a + b)[..|a + b| - 1] == a + b[..|b| - 1];
      ReportedAppend(params, a, b[..|b| - 1]);
    }
  }

  lemma ReportedHead(params: map<string, string>, ms: seq<Backend>)
    requires ms != []
    ensures Reported(params, ms) == Reported(Note(params, ms[0]), ms[1..])
  {
    assert ms == [ms[0]] + ms[1..];
    ReportedAppend(params, [ms[0]], ms[1..]);
    assert [ms[0]][..0] == [];
  }

  lemma Regroup<T>(a: seq<T>, b: seq<T>, c: seq<T>)
    ensures (a + b) + c == a + (b + c)
  {
  }

  // ---------------------------------------------------------------- the server

  function AfterError(tx: TxStatus): TxStatus {
    if tx.InTx? then Failed else tx
  }

  /** An error in the extended protocol: everything up to the next Sync is ignored. */
  function AbortBatch(s: Server, o: Outcome): Reaction {
    Reaction(s.(params := Reported(s.params, Statuses(o.reports)), tx := AfterError(s.tx), mode := Skip),
             Statuses(o.reports) + [ErrorResponse(ServerFault)])
  }

  /** An error inside COPY FROM STDIN; a COPY started by Query ends its cycle by itself. */
  function AbortCopy(s: Server, o: Outcome, extended: bool): Reaction {
    if extended then AbortBatch(s, o)
    else
      var r := AbortBatch(s, o);
      Reaction(r.server.(mode := Ready), r.replies + [ReadyForQuery(r.server.tx)])
  }

  /** The effects of executed SQL that the proxy can observe. */
  function Executed(s: Server, o: Outcome): Server {
    s.(params := Reported(s.params, Statuses(o.reports)), stmts := s.stmts - o.dealloc)
  }

  /** The replies to Query and to Execute after the parameter reports. */
  function QueryTail(o: Outcome): seq<Backend> {
    match o.shape
    case CopyFromClient => [CopyInResponse]
    case CopyToClient => [CopyOutResponse, Data, ReadyForQuery(o.tx)]
    case Tuples => [if o.ok then Data else ErrorResponse(ServerFault), ReadyForQuery(o.tx)]
  }

  function ExecuteTail(o: Outcome): seq<Backend> {
    match o.shape
    case CopyFromClient => [CopyInResponse]
    case CopyToClient => [CopyOutResponse, Data]
    case Tuples => [Data]
  }

  function RunReady(s: Server, m: Frontend, o: Outcome): Reaction {
    match m
    case Query(_) =>
      Reaction(if o.shape.CopyFromClient? then Executed(s, o).(mode := Copying(false))
               else Executed(s, o).(tx := o.tx),
               Statuses(o.reports) + QueryTail(o))
    case Parse(name, stmt) =>
      if !o.ok || name in s.stmts then AbortBatch(s, o)
      else if name == "" then Reaction(s, [ParseComplete])
      else Reaction(s.(stmts := s.stmts[name := stmt]), [ParseComplete])
    case Bind(_) => if o.ok then Reaction(s, [Data]) else AbortBatch(s, o)
    case Describe => if o.ok then Reaction(s, [Data]) else AbortBatch(s, o)
    case Execute =>
      if !o.ok then AbortBatch(s, o)
      else
        Reaction(if o.shape.CopyFromClient? then Executed(s, o).(mode := Copying(true))
                 else Executed(s, o).(tx := o.tx),
                 Statuses(o.reports) + ExecuteTail(o))
    case Close(target, name) =>
      Reaction(if target.OfStatement? then s.(stmts := s.stmts - {name}) else s, [CloseComplete])
    case Sync =>
      Reaction(s, if o.ok then [ReadyForQuery(s.tx)] else [ErrorResponse(ServerFault), ReadyForQuery(s.tx)])
    case Run(command) => RunCommand(s, command, o)
    case _ => Reaction(s, [])   // Flush, and COPY messages left over from a failed COPY
  }

  function RunCommand(s: Server, command: Command, o: Outcome): Reaction {
    match command
    case Rollback =>
      Reaction(s.(params := Reported(s.params, Statuses(o.reports)), tx := Idle),
               Statuses(o.reports) + [Data, ReadyForQuery(Idle)])
    case DiscardAll =>
      if s.tx != Idle || !o.ok then
        Reaction(s.(tx := AfterError(s.tx)), [ErrorResponse(ServerFault), ReadyForQuery(AfterError(s.tx))])
      else
        Reaction(s.(stmts := map[], params := s.defaults),
                 [ParameterReset(s.defaults), Data, ReadyForQuery(Idle)])
    case SetParam(n, v) =>
      if !o.ok then
        Reaction(s.(tx := AfterError(s.tx)), [ErrorResponse(ServerFault), ReadyForQuery(AfterError(s.tx))])
      else
        Reaction(s.(params := s.params[n := v]), [ParameterStatus(n, v), Data, ReadyForQuery(s.tx)])
  }

  function RunCopy(s: Server, extended: bool, m: Frontend, o: Outcome): Reaction {
    match m
    case CopyData => if o.ok then Reaction(s, []) else AbortCopy(s, o, extended)
    case CopyDone =>
      if !o.ok then AbortCopy(s, o, extended)
      else if extended then Reaction(s.(mode := Ready), [Data])
      else Reaction(s.(mode := Ready, tx := o.tx), [Data, ReadyForQuery(o.tx)])
    case Flush => Reaction(s, [])
    case Sync => Reaction(s, [])
    case _ => AbortCopy(s, o, extended)
  }

  /** How the server reacts to one message. */
  function React(s: Server, m: Frontend, o: Outcome): Reaction {
    match s.mode
    case Ready => RunReady(s, m, o)
    case Copying(extended) => RunCopy(s, extended, m, o)
    case Skip => if m.Sync? then Reaction(s.(mode := Ready), [ReadyForQuery(s.tx)]) else Reaction(s, [])
  }

  function ReactAll(s: Server, sent: seq<Sent>): Reaction {
    if sent == [] then Reaction(s, [])
    else
      var before := ReactAll(s, sent[..|sent| - 1]);
      var (m, o) := sent[|sent| - 1];
      var last := React(before.server, m, o);
      Reaction(last.server, before.replies + last.replies)
  }

  /** A cancel request stops a COPY that waits for the client; nothing else is still running once
      the server has reacted. */
  function CancelReaction(s: Server, o: Outcome): Reaction {
    if s.mode.Copying? then AbortCopy(s, o, s.mode.extended) else Reaction(s, [])
  }

  // ---------------------------------------------------------------- facts about reactions

  function ReadyCount(ms: seq<Backend>): nat {
    if ms == [] then 0
    else ReadyCount(ms[..|ms| - 1]) + (if ms[|ms| - 1].ReadyForQuery? then 1 else 0)
  }

  lemma {:induction false} ReadyCountAppend(a: seq<Backend>, b: seq<Backend>)
    ensures ReadyCount(a + b) == ReadyCount(a) + ReadyCount(b)
  {
    if b == [] {
      assert a + b == a;
    } else {
      assert (a + b)[..|a + b| - 1] == a + b[..|b| - 1];
      ReadyCountAppend(a, b[..|b| - 1]);
    }
  }

  lemma {:induction false} NoReadyCount(ms: seq<Backend>)
    ensures ReadyCount(ms) == 0 <==> forall i :: 0 <= i < |ms| ==> !ms[i].ReadyForQuery?
  {
    if ms != [] {
      NoReadyCount(ms[..|ms| - 1]);
      assert ms == ms[..|ms| - 1] + [ms[|ms| - 1]];
    }
  }

  /** The messages the pump feeds without flushing. */
  predicate Pipelined(m: Frontend) {
    m.Parse? || m.Bind? || m.Describe? || m.Execute? || m.Close?
  }

  predicate NoError(ms: seq<Backend>) {
    forall i :: 0 <= i < |ms| ==> !ms[i].ErrorResponse?
  }

  predicate Silent(ms: seq<Backend>) {
    forall i :: 0 <= i < |ms| ==> !ms[i].ParameterStatus? && !ms[i].ParameterReset?
  }

  lemma {:induction false} SilentTail(params: map<string, string>, a: seq<Backend>, tail: seq<Backend>)
    requires Silent(tail)
    ensures Reported(params, a + tail) == Reported(params, a)
  {
    if tail == [] {
      assert a + tail == a;
    } else {
      assert (a + tail)[..|a + tail| - 1] == a + tail[..|tail| - 1];
      SilentTail(params, a, tail[..|tail| - 1]);
    }
  }

  lemma SilentReplies(params: map<string, string>, ms: seq<Backend>)
    requires Silent(ms)
    ensures Reported(params, ms) == params
  {
    SilentTail(params, [], ms);
    assert [] + ms == ms;
  }

  /** The reports in the replies are exactly the server's parameter changes. */
  predicate Reports(s: Server, r: Reaction) {
    && Reported(s.params, r.replies) == r.server.params
    && r.server.defaults == s.defaults
  }

  lemma ReportsMatch(s: Server, m: Frontend, o: Outcome)
    ensures Reports(s, React(s, m, o))
  {
    match s.mode
    case Ready => ReadyReports(s, m, o);
    case Copying(extended) => CopyReports(s, extended, m, o);
    case Skip => SilentReplies(s.params, React(s, m, o).replies);
  }

  lemma AbortReports(s: Server, o: Outcome, extended: bool)
    ensures Reports(s, AbortBatch(s, o))
    ensures Reports(s, AbortCopy(s, o, extended))
  {
    SilentTail(s.params, Statuses(o.reports), [ErrorResponse(ServerFault)]);
    if !extended {
      var r := AbortBatch(s, o);
      SilentTail(s.params, r.replies, [ReadyForQuery(r.server.tx)]);
    }
  }

  lemma CopyReports(s: Server, extended: bool, m: Frontend, o: Outcome)
    ensures Reports(s, RunCopy(s, extended, m, o))
  {
    AbortReports(s, o, extended);
    var r := RunCopy(s, extended, m, o);
    if r != AbortCopy(s, o, extended) {
      SilentReplies(s.params, r.replies);
    }
  }

  lemma ReadyReports(s: Server, m: Frontend, o: Outcome)
    ensures Reports(s, RunReady(s, m, o))
  {
    match m
    case Run(command) => CommandReports(s, command, o);
    case Query(_) => SilentTail(s.params, Statuses(o.reports), QueryTail(o));
    case Execute => ExecuteReports(s, o);
    case _ => OtherReports(s, m, o);
  }

  lemma OtherReports(s: Server, m: Frontend, o: Outcome)
    requires !m.Run? && !m.Query? && !m.Execute?
    ensures Reports(s, RunReady(s, m, o))
  {
    var r := RunReady(s, m, o);
    if r == AbortBatch(s, o) {
      AbortReports(s, o, true);
    } else {
      SilentReplies(s.params, r.replies);
    }
  }

  lemma ExecuteReports(s: Server, o: Outcome)
    ensures Reports(s, RunReady(s, Execute, o))
  {
    if o.ok {
      ExecutedReports(s, o, ExecuteTail(o));
    } else {
      AbortReports(s, o, true);
    }
  }

  lemma ExecutedReports(s: Server, o: Outcome, tail: seq<Backend>)
    requires Silent(tail)
    ensures Reported(s.params, Statuses(o.reports) + tail) == Executed(s, o).params
    ensures Executed(s, o).defaults == s.defaults
  {
    SilentTail(s.params, Statuses(o.reports), tail);
  }

  lemma CommandReports(s: Server, command: Command, o: Outcome)
    ensures Reports(s, RunCommand(s, command, o))
  {
    var r := RunCommand(s, command, o);
    if command.Rollback? {
      SilentTail(s.params, Statuses(o.reports), [Data, ReadyForQuery(Idle)]);
    } else if r.replies[0].ErrorResponse? {
      SilentReplies(s.params, r.replies);
    } else {
      ReportedHead(s.params, r.replies);
      SilentReplies(Note(s.params, r.replies[0]), r.replies[1..]);
    }
  }
}

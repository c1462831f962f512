/**
 The session pump in transaction mode: one function per event of its select loop, over the
 pump's own locals, and what an outside observer records about the session.
 */
module Session {
  import opened Protocol
  import opened Connection

  /** The mutable locals of the pump. */
  datatype Pump = Pump(
    lease: Option<Conn>,
    dirty: bool,
    registry: map<string, Statement>,
    overrides: map<string, string>,
    startup: map<string, string>,
    swallow: bool,
    hygiene: Hygiene,
    draining: bool,
    status: TxStatus,
    fedSinceReady: nat,
    extended: bool)

  /** What the `on_query` hook of an interceptor decides about a Query or Parse. */
  datatype Hook =
    | Forward(rewritten: Option<string>)
    | Deny(code: Code)
    | Reply(messages: seq<Backend>)
    | Scatter(merged: Option<seq<Backend>>, own: Option<LegRun>)
    | HangUp

  /** The query of a scatter leg, what the server makes of it, and whether the connection breaks under it. A
      scatter has a leg of the session's own when the session holds a connection to one of its endpoints. */
  datatype LegRun = LegRun(sql: string, o: Outcome, breaks: bool)

  /** The result of one event: the new locals, the messages sent to the client, the message sent
      upstream, whether the upstream connection broke, a connection handed back by a detach with
      its dirty flag, and whether the session ended. */
  datatype Turn = Turn(
    pump: Pump,
    told: seq<Backend>,
    forwarded: Option<Frontend>,
    lost: bool,
    released: Option<(Conn, bool)>,
    ended: bool)

  /** What the pump makes of a client message before any upstream is involved. */
  datatype Plan =
    | Answer(pump: Pump, told: seq<Backend>)
    | Quit(pump: Pump)
    | Pass(pump: Pump, m: Frontend)
    | Scattered(pump: Pump, told: seq<Backend>, leg: LegRun)

  function Start(startup: map<string, string>): Pump {
    Pump(None, false, map[], map[], startup, false, Hygiene(false, NoCopy), false, Idle, 0, false)
  }

  function Carry(p: Pump, told: seq<Backend>): Turn {
    Turn(p, told, None, false, None, false)
  }

  function LeaseStatus(p: Pump): TxStatus {
    if p.lease.Some? then p.lease.value.status else Idle
  }

  // ---------------------------------------------------------------- client messages

  predicate StartsCycle(m: Frontend) {
    m.Query? || m.Sync? || m.Flush?
  }

  predicate TriggersResponse(m: Frontend) {
    m.Query? || m.Sync? || m.Flush? || m.CopyData? || m.CopyDone? || m.CopyFail?
  }

  function Rewrite(m: Frontend, rewritten: Option<string>): Frontend {
    if rewritten.None? then m
    else if m.Query? then Query(rewritten.value)
    else if m.Parse? then m.(stmt := m.stmt.(sql := rewritten.value))
    else m
  }

  predicate NamedParse(m: Frontend) {
    m.Parse? && m.name != ""
  }

  function Consider(p: Pump, m: Frontend, hook: Hook): Plan {
    if p.swallow then
      if m.Sync? then Answer(p.(swallow := false), [ReadyForQuery(LeaseStatus(p))]) else Answer(p, [])
    else if p.lease.None? && m.Sync? then Answer(p, [ReadyForQuery(p.status)])
    else if p.lease.None? && m.Flush? then Answer(p, [])
    else if p.lease.None? && m.Close? then Answer(p.(registry := p.registry - {m.name}), [CloseComplete])
    else if m.Query? || m.Parse? then Hooked(p.(extended := m.Parse?), m, hook)
    else Pass(p, m)
  }

  function Hooked(p: Pump, m: Frontend, hook: Hook): Plan
    requires m.Query? || m.Parse?
  {
    match hook
    case Forward(rewritten) => Checked(p, Rewrite(m, rewritten))
    case Deny(code) =>
      if m.Query? then Answer(p, [ErrorResponse(code), ReadyForQuery(LeaseStatus(p))])
      else Answer(p.(swallow := true), [ErrorResponse(code)])
    case Reply(messages) =>
      Answer(p.(swallow := m.Parse?), messages + [ReadyForQuery(LeaseStatus(p))])
    case Scatter(merged, own) =>
      if m.Query? && p.status.Idle? && own.Some? && p.lease.Some? then Joined(p, merged, own.value)
      else if m.Query? && p.status.Idle? && merged.Some? then
        Answer(p, merged.value + [ReadyForQuery(p.status)])
      else Answer(p.(status := Idle), [ErrorResponse(NotSupported), ReadyForQuery(Idle)])
    case HangUp => Quit(p)
  }

  /** A scatter with a leg on the session's own connection. Whatever the leg changes there, the dirty flag
      stays as it is. */
  function Joined(p: Pump, merged: Option<seq<Backend>>, leg: LegRun): Plan
    requires p.lease.Some?
  {
    var c := LegRan(p.lease.value, leg);
    if c.Some? && merged.Some? then Scattered(p.(lease := c), merged.value + [ReadyForQuery(p.status)], leg)
    else Scattered(p.(lease := c, status := Idle), [ErrorResponse(NotSupported), ReadyForQuery(Idle)], leg)
  }

  function LegSent(c: Conn, leg: LegRun): Conn {
    Send(c, Query(leg.sql), leg.o).(wire := c.wire + [LegQuery(leg.sql)])
  }

  /** The connection after a leg's query has been read to its ReadyForQuery. A query that never gets one
      ends with the connection. */
  function LegRan(c: Conn, leg: LegRun): Option<Conn> {
    if leg.breaks then None else Drain(LegSent(c, leg))
  }

  /** The statement registry: a known name is answered locally. */
  function Checked(p: Pump, m: Frontend): Plan {
    if NamedParse(m) && m.name in p.registry then
      if p.registry[m.name].sql == m.stmt.sql then Answer(p, [ParseComplete])
      else Answer(p.(swallow := true), [ErrorResponse(DuplicateStatement)])
    else Pass(p, m)
  }

  /** The entries of `wanted` that a connection with these parameters does not have yet. */
  function Differing(params: map<string, string>, wanted: map<string, string>): map<string, string> {
    map n | n in wanted && Lookup(params, n) != wanted[n] :: wanted[n]
  }

  function Named(startup: map<string, string>): map<string, string> {
    map n | n in startup && n in TRACKED :: startup[n]
  }

  function AfterStartup(c: Conn, p: Pump): map<string, string> {
    c.cache + Differing(c.cache, Named(p.startup))
  }

  /** The parameters that an attach sets. */
  function ToSet(c: Conn, p: Pump): map<string, string> {
    Differing(c.cache, Named(p.startup)) + Differing(AfterStartup(c, p), p.overrides)
  }

  /** The connection after the session's state has been replayed onto it. */
  function Prepared(c: Conn, p: Pump): Conn {
    var params := AfterStartup(c, p) + Differing(AfterStartup(c, p), p.overrides);
    c.(server := c.server.(params := params, stmts := p.registry),
       cache := params,
       wire := c.wire + [Replay(ToSet(c, p), p.registry)])
  }

  function Attached(p: Pump, c: Conn): Pump {
    p.(lease := Some(Prepared(c, p)),
       dirty := p.dirty || Differing(AfterStartup(c, p), p.overrides) != map[] || p.registry != map[])
  }

  /** The upstream connection broke: report it if something was in flight. */
  function Lose(p: Pump, report: bool): Turn {
    Turn(p.(lease := None,
            hygiene := Hygiene(false, p.hygiene.copy),
            fedSinceReady := 0,
            swallow := p.swallow || (report && p.extended),
            status := if report && !p.extended then Idle else p.status),
         LossNotice(p.extended, report), None, true, None, false)
  }

  function LossNotice(extended: bool, report: bool): seq<Backend> {
    if !report then []
    else if extended then [ErrorResponse(ConnectionFailure)]
    else [ErrorResponse(ConnectionFailure), ReadyForQuery(Idle)]
  }

  /** Record a new named statement and the response cycle the message starts. */
  function Recorded(p: Pump, m: Frontend): Pump {
    p.(registry := NowRegistered(p.registry, m),
       dirty := p.dirty || NamedParse(m),
       hygiene := Hygiene(p.hygiene.awaiting || StartsCycle(m), p.hygiene.copy))
  }

  function NowRegistered(registry: map<string, Statement>, m: Frontend): map<string, Statement> {
    if NamedParse(m) then registry[m.name := m.stmt] else registry
  }

  /** The locals after a message has been recorded and written. */
  function Passed(q: Pump, m: Frontend, o: Outcome): Pump
    requires q.lease.Some?
  {
    Recorded(q, m).(lease := Some(Written(q.lease.value, m, o)), fedSinceReady := q.fedSinceReady + 1)
  }

  function Written(c: Conn, m: Frontend, o: Outcome): Conn {
    (if TriggersResponse(m) then Send(c, m, o) else Feed(c, m, o)).(wire := c.wire + [FromClient(o.serial, m)])
  }

  /** The locals with a lease, attached now unless there was one. */
  function Leased(p: Pump, supply: Option<Conn>): Pump
    requires p.lease.Some? || supply.Some?
  {
    if p.lease.Some? then p else Attached(p, supply.value)
  }

  /** Attach if need be, record, and write the message to the leased connection. */
  function Forwarded(p: Pump, m: Frontend, o: Outcome, supply: Option<Conn>, fault: bool): Turn {
    if p.lease.None? && supply.None? then
      Carry(p, [ErrorResponse(ConnectionFailure)]).(ended := true)
    else
      var q := Recorded(Leased(p, supply), m);
      if fault then Lose(q, q.hygiene.awaiting || q.fedSinceReady > 0)
      else Carry(Passed(Leased(p, supply), m, o), []).(forwarded := Some(m))
  }

  function OnFrontend(p: Pump, m: Frontend, o: Outcome, hook: Hook, supply: Option<Conn>, fault: bool): Turn {
    match Consider(p, m, hook)
    case Answer(q, told) => Carry(q, told)
    case Quit(q) => Carry(q, []).(ended := true)
    case Pass(q, m') => Forwarded(q, m', o, supply, fault)
    case Scattered(q, told, _) => Carry(q, told).(lost := q.lease.None?)
  }

  // ---------------------------------------------------------------- other events

  /** The overrides after a report: every one the client hears is kept for the next attach. */
  function Learned(overrides: map<string, string>, m: Backend): map<string, string> {
    match m
    case ParameterStatus(n, v) => overrides[n := v]
    case ParameterReset(values) => overrides + values
    case _ => overrides
  }

  function CopyAfter(copy: CopyCleanup, m: Backend): CopyCleanup {
    if m.CopyInResponse? then ClientOwesCopy else if m.CopyOutResponse? then ServerStreamsCopy else copy
  }

  function OnReady(p: Pump, c: Conn, status: TxStatus): Turn {
    var r := p.(lease := Some(c), status := status, hygiene := Hygiene(false, NoCopy), fedSinceReady := 0);
    var told := [ReadyForQuery(status)];
    if p.draining then Carry(r, told).(ended := true)
    else if status.Idle? then Carry(r.(lease := None, dirty := false), told).(released := Some((c, p.dirty)))
    else Carry(r, told)
  }

  function OnBackend(p: Pump): Turn
    requires p.lease.Some? && p.lease.value.unread != []
  {
    var m := p.lease.value.unread[0];
    if m.ReadyForQuery? then OnReady(p, Next(p.lease.value), m.status)
    else
      Carry(p.(lease := Some(Next(p.lease.value)),
               overrides := Learned(p.overrides, m),
               dirty := p.dirty || m.ParameterStatus? || m.ParameterReset?,
               hygiene := Hygiene(p.hygiene.awaiting, CopyAfter(p.hygiene.copy, m))),
            [m])
  }

  function OnUpstreamLost(p: Pump): Turn {
    Lose(p, p.hygiene.awaiting)
  }

  /** A cancel request goes to the server of the leased connection; without one there is nothing to cancel. */
  function OnCancelRequest(p: Pump, o: Outcome): Pump {
    if p.lease.Some? then p.(lease := Some(Cancel(p.lease.value, o))) else p
  }

  function OnShutdown(p: Pump): Turn {
    if p.hygiene.awaiting || p.hygiene.copy != NoCopy then Carry(p.(draining := true), [])
    else Carry(p, []).(ended := true)
  }

  // ---------------------------------------------------------------- the observer

  /**
   A lock-step client: at rest; inside an extended batch; inside a batch that ends, so far, with the
   Execute of a COPY FROM STDIN; waiting for the answer to that COPY behind a Flush; waiting for
   ReadyForQuery; sending COPY data. The last two are told apart by the protocol of the cycle.
   */
  datatype Phase = AtRest | Batch | Asking | Pending | Waiting(extended: bool) | CopyingIn(extended: bool)

  /** A client that has yet to send the Sync that ends its cycle. */
  predicate InBatch(phase: Phase) {
    phase.Batch? || phase.Asking? || phase.Pending? || phase == CopyingIn(true)
  }

  /** A message to the client, with the number of the cycle it belongs to. */
  datatype Told = Told(cycle: nat, m: Backend)

  /** The session's traffic as a dedicated connection would see it. */
  datatype Traffic = Ran(m: Frontend, o: Outcome) | ClosedLocally(name: string) | Cancelled(o: Outcome)

  /** What an observer records. `intact` says that the registry was not upset, `solo` that no scatter leg
      disturbed the session's connection, since the dedicated connection began. */
  datatype Trace = Trace(
    phase: Phase,
    cycle: nat,
    told: seq<Told>,
    relayed: seq<Backend>,
    origin: Server,
    carried: map<string, string>,
    history: seq<Traffic>,
    intact: bool,
    solo: bool)

  datatype Client = Client(pump: Pump, seen: Trace)

  /** What a client that waits for its answers may send. */
  predicate MaySend(phase: Phase, m: Frontend) {
    match phase
    case AtRest => m.Query? || Pipelined(m) || m.Flush? || m.Sync?
    case Batch => Pipelined(m) || m.Flush? || m.Sync?
    case Asking => m.Flush? || m.Sync?
    case Pending => false
    case Waiting(_) => false
    case CopyingIn(_) => m.CopyData? || m.CopyDone? || m.CopyFail?
  }

  /** Where a client stands after sending `m`. It knows which of its statements copy from it, and that a
      COPY of its batch leaves the Sync to be sent, even if it sent one ahead of the data. */
  function AfterSending(phase: Phase, m: Frontend, o: Outcome): Phase {
    if m.Query? then Waiting(false)
    else if m.Sync? then Waiting(true)
    else if m.CopyData? then phase
    else if m.CopyDone? || m.CopyFail? then (if phase == CopyingIn(true) then Batch else Waiting(false))
    else if m.Execute? && o.shape.CopyFromClient? then Asking
    else if m.Flush? && phase.Asking? then Pending
    else Batch
  }

  /** A ReadyForQuery ends the cycle of a client that has sent its Query or Sync; to a client inside
      a batch it is an answer to nothing. An error ends a COPY of a batch. */
  function AfterHearing(phase: Phase, m: Backend): Phase {
    if m.ReadyForQuery? then (if InBatch(phase) then phase else AtRest)
    else if m.CopyInResponse? then
      (if phase.Waiting? then CopyingIn(phase.extended) else if phase.Pending? then CopyingIn(true) else phase)
    else if m.ErrorResponse? && (phase.Pending? || phase == CopyingIn(true)) then Batch
    else phase
  }

  function AfterHearingAll(phase: Phase, ms: seq<Backend>): Phase {
    if ms == [] then phase
    else AfterHearing(AfterHearingAll(phase, ms[..|ms| - 1]), ms[|ms| - 1])
  }

  function Tagged(cycle: nat, ms: seq<Backend>): seq<Told> {
    seq(|ms|, i requires 0 <= i < |ms| => Told(cycle, ms[i]))
  }

  function Hear(t: Trace, ms: seq<Backend>): Trace {
    t.(phase := AfterHearingAll(t.phase, ms), told := t.told + Tagged(t.cycle, ms))
  }

  function Send1(t: Trace, m: Frontend, o: Outcome): Trace {
    t.(phase := AfterSending(t.phase, m, o), cycle := if t.phase.AtRest? then t.cycle + 1 else t.cycle)
  }

  /** The dedicated connection a session starts with. */
  function Ideal(defaults: map<string, string>, startup: map<string, string>): Server {
    Server(map[], defaults + Named(startup), defaults, Idle, Ready)
  }

  /** The dedicated connection that takes over when the upstream is lost. */
  function Restored(p: Pump, defaults: map<string, string>): Server {
    Server(p.registry, defaults + Named(p.startup) + p.overrides, defaults, Idle, Ready)
  }

  function Restart(t: Trace, p: Pump): Trace {
    t.(origin := Restored(p, t.origin.defaults), carried := p.overrides, history := [], relayed := [],
       intact := true, solo := true)
  }

  function Opened(startup: map<string, string>, defaults: map<string, string>): Client {
    Client(Start(startup), Trace(AtRest, 0, [], [], Ideal(defaults, startup), map[], [], true, true))
  }

  /** The dedicated connection after the session's traffic. */
  function Dedicated(origin: Server, h: seq<Traffic>): Reaction {
    if h == [] then Reaction(origin, [])
    else
      var before := Dedicated(origin, h[..|h| - 1]);
      match h[|h| - 1]
      case Ran(m, o) =>
        var r := React(before.server, m, o);
        Reaction(r.server, before.replies + r.replies)
      case ClosedLocally(name) =>
        Reaction(before.server.(stmts := before.server.stmts - {name}), before.replies)
      case Cancelled(o) =>
        var r := CancelReaction(before.server, o);
        Reaction(r.server, before.replies + r.replies)
  }

  /** Traffic after which the registry no longer lists exactly the statements of the dedicated
      connection: a named Parse the server does not carry out, a Close sent upstream, and SQL that
      deallocates a registered statement. */
  predicate Upsets(ideal: Server, registry: map<string, Statement>, m: Frontend, o: Outcome) {
    || (NamedParse(m) && !(ideal.mode.Ready? && o.ok))
    || (m.Close? && ideal.mode.Ready? && m.target.OfStatement? && m.name in registry)
    || ((m.Query? || (m.Execute? && o.ok)) && ideal.mode.Ready? && exists n <- o.dealloc :: n in registry)
  }

  predicate ClosesLocally(p: Pump, m: Frontend) {
    !p.swallow && p.lease.None? && m.Close?
  }

  /** A Close answered locally. Whatever its target, the name leaves the registry. */
  function SeenClose(t: Trace, registry: map<string, Statement>, m: Frontend): Trace
    requires m.Close?
  {
    if m.target.OfStatement? then t.(history := t.history + [ClosedLocally(m.name)])
    else t.(intact := t.intact && m.name !in registry)
  }

  /** A leg that leaves the server as it was and has no answer of the session's own to swallow. */
  predicate Harmless(c: Conn, leg: LegRun) {
    var f := Flushed(c);
    && f.unread == [] && leg.o.reports == [] && leg.o.tx == f.server.tx
    && forall n <- leg.o.dealloc :: n !in f.server.stmts
  }

  /** The trace after a client message. */
  function SeenMessage(x: Client, m: Frontend, o: Outcome, hook: Hook, supply: Option<Conn>, fault: bool): Trace {
    var turn := OnFrontend(x.pump, m, o, hook, supply, fault);
    var t := Hear(Send1(x.seen, m, o), turn.told);
    match Consider(x.pump, m, hook)
    case Quit(_) => t
    case Answer(_, _) => if ClosesLocally(x.pump, m) then SeenClose(t, x.pump.registry, m) else t
    case Pass(q, m') =>
      if turn.ended then t
      else if turn.lost then Restart(t, turn.pump)
      else
        t.(history := t.history + [Ran(m', o)],
           intact := t.intact && !Upsets(Dedicated(t.origin, t.history).server, q.registry, m', o))
    case Scattered(q, _, leg) =>
      if q.lease.None? then Restart(t, q)
      else t.(solo := t.solo && x.pump.lease.Some? && Harmless(x.pump.lease.value, leg))
  }

  function OnMessage(x: Client, m: Frontend, o: Outcome, hook: Hook, supply: Option<Conn>, fault: bool): Client {
    Client(OnFrontend(x.pump, m, o, hook, supply, fault).pump, SeenMessage(x, m, o, hook, supply, fault))
  }

  function OnResponse(x: Client): Client
    requires x.pump.lease.Some? && x.pump.lease.value.unread != []
  {
    var turn := OnBackend(x.pump);
    Client(turn.pump, Hear(x.seen, turn.told).(relayed := x.seen.relayed + turn.told))
  }

  function OnLoss(x: Client): Client {
    var turn := OnUpstreamLost(x.pump);
    Client(turn.pump, Restart(Hear(x.seen, turn.told), turn.pump))
  }

  function OnCancel(x: Client, o: Outcome): Client {
    Client(OnCancelRequest(x.pump, o),
           if x.pump.lease.Some? && x.pump.lease.value.server.mode.Copying?
           then x.seen.(history := x.seen.history + [Cancelled(o)]) else x.seen)
  }
}

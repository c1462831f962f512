/**
 Where a promise of the proxy fails, and exactly when. Each limit comes with a general statement or
 with the smallest session that shows it.
 */
module Limits {
  import opened Protocol
  import opened Connection
  import opened Session
  import opened Shapes
  import opened Phases
  import opened Leases
  import opened Mirror
  import opened Accounting
  import opened Clients
  import opened World
  import opened Theorems

  const PASS: Hook := Forward(None)

  // ---------------------------------------------------------------- upstream loss

  /** A loss that does not meet `LossInStep` leaves pump and client out of step, or answers a client in
      the middle of its batch. */
  lemma LossOutOfStep(p: Pump, phase: Phase, report: bool)
    requires !LossInStep(phase, p, report)
    ensures !CycleInv(Lose(p, report).pump, AfterHearingAll(phase, LossNotice(p.extended, report))) ||
            (report && !p.extended && InBatch(phase))
  {
    if report && p.extended {
      HearOne(phase, ErrorResponse(ConnectionFailure));
    }
  }

  lemma AnsweredInBatch(t: Trace)
    requires InBatch(t.phase)
    ensures !Accounted(Hear(t, LossNotice(false, true)))
  {
    var told := LossNotice(false, true);
    assert told[..1] == [ErrorResponse(ConnectionFailure)];
    HearOne(t.phase, ErrorResponse(ConnectionFailure));
    var u := Hear(t, told);
    assert u.told[|u.told| - 1] == Told(t.cycle, ReadyForQuery(Idle));
    assert u.phase != AtRest;
  }

  /** A loss keeps client and proxy in step, with the cycle accounted for, exactly when it meets
      the condition `LossInStep`. Otherwise the client is answered in the middle of its batch, waits
      for a Sync it has already sent, or keeps believing in a transaction that is gone. */
  lemma LossInStepExactly(x: Client)
    requires CycleInv(x.pump, x.seen.phase) && Accounted(x.seen) && x.pump.lease.Some?
    ensures CycleInv(OnLoss(x).pump, OnLoss(x).seen.phase) && Accounted(OnLoss(x).seen) <==>
            LossInStep(x.seen.phase, x.pump, x.pump.hygiene.awaiting)
  {
    var report := x.pump.hygiene.awaiting;
    if LossInStep(x.seen.phase, x.pump, report) {
      LostCycle(x.pump, x.seen.phase);
      LossAccounted(x);
    } else {
      LossOutOfStep(x.pump, x.seen.phase, report);
      if report && !x.pump.extended && InBatch(x.seen.phase) {
        AnsweredInBatch(x.seen);
        if Accounted(OnLoss(x).seen) {
          AccountedFrame(OnLoss(x).seen, Hear(x.seen, LossNotice(false, true)));
        }
      }
    }
  }

  /** The same for a connection that breaks under a message: for every message a client may send, and
      whatever the hook makes of it. */
  lemma FaultInStepExactly(x: Client, m: Frontend, o: Outcome, hook: Hook, supply: Option<Conn>)
    requires CycleInv(x.pump, x.seen.phase) && Accounted(x.seen) && MaySend(x.seen.phase, m)
    requires Consider(x.pump, m, hook).Pass?
    requires x.pump.lease.Some? || (supply.Some? && Suppliable(supply.value))
    ensures var y := OnMessage(x, m, o, hook, supply, true);
            CycleInv(y.pump, y.seen.phase) && Accounted(y.seen) <==>
            FaultInStep(x.pump, x.seen.phase, m, o, hook, supply, true)
  {
    var plan := Consider(x.pump, m, hook);
    FaultIs(x, m, o, hook, supply);
    var q := Recorded(Leased(plan.pump, supply), plan.m);
    var report := q.hygiene.awaiting || q.fedSinceReady > 0;
    FaultInStepIs(x, m, o, hook, supply);
    if LossInStep(AfterSending(x.seen.phase, m, o), q, report) {
      FaultKeepsCycle(x, m, o, hook, supply);
      FaultAnswered(x, m, o, q, report);
    } else {
      FaultMissed(x, m, o, q, report);
    }
  }

  lemma FaultInStepIs(x: Client, m: Frontend, o: Outcome, hook: Hook, supply: Option<Conn>)
    requires Consider(x.pump, m, hook).Pass? && (x.pump.lease.Some? || supply.Some?)
    ensures var plan := Consider(x.pump, m, hook);
            && plan.pump.lease == x.pump.lease
            && var q := Recorded(Leased(plan.pump, supply), plan.m);
               FaultInStep(x.pump, x.seen.phase, m, o, hook, supply, true) <==>
               LossInStep(AfterSending(x.seen.phase, m, o), q, q.hygiene.awaiting || q.fedSinceReady > 0)
  {
    PlanKeeps(x.pump, m, hook);
  }

  lemma FaultKeepsCycle(x: Client, m: Frontend, o: Outcome, hook: Hook, supply: Option<Conn>)
    requires CycleInv(x.pump, x.seen.phase) && MaySend(x.seen.phase, m)
    requires Consider(x.pump, m, hook).Pass?
    requires x.pump.lease.Some? || (supply.Some? && Suppliable(supply.value))
    requires FaultInStep(x.pump, x.seen.phase, m, o, hook, supply, true)
    ensures var plan := Consider(x.pump, m, hook);
            && plan.pump.lease == x.pump.lease
            && var q := Recorded(Leased(plan.pump, supply), plan.m);
               var report := q.hygiene.awaiting || q.fedSinceReady > 0;
               CycleInv(Lose(q, report).pump,
                        AfterHearingAll(AfterSending(x.seen.phase, m, o), LossNotice(q.extended, report)))
  {
    var plan := Consider(x.pump, m, hook);
    PlanKeeps(x.pump, m, hook);
    FaultInStepIs(x, m, o, hook, supply);
    KeepsFlag(x.pump, plan.pump, x.seen.phase);
    PassCycle(plan.pump, x.seen.phase, m, plan.m, o, supply, true);
  }

  lemma KeepsFlag(p: Pump, q: Pump, phase: Phase)
    requires CycleInv(p, phase) && q == p.(extended := q.extended)
    ensures CycleInv(q, phase)
  {
  }

  /** The trace after a loss under a message. */
  function LossSeen(x: Client, m: Frontend, o: Outcome, q: Pump, report: bool): Trace {
    Restart(Hear(Send1(x.seen, m, o), LossNotice(q.extended, report)), Lose(q, report).pump)
  }

  lemma FaultAnswered(x: Client, m: Frontend, o: Outcome, q: Pump, report: bool)
    requires Accounted(x.seen) && MaySend(x.seen.phase, m) && LossInStep(AfterSending(x.seen.phase, m, o), q, report)
    ensures Accounted(LossSeen(x, m, o, q, report))
    ensures LossSeen(x, m, o, q, report).phase ==
            AfterHearingAll(AfterSending(x.seen.phase, m, o), LossNotice(q.extended, report))
  {
    var t := Send1(x.seen, m, o);
    SendAccounted(x.seen, m, o);
    LossDue(t.phase, q, report);
    HearAccounted(t, LossNotice(q.extended, report));
    AccountedFrame(Hear(t, LossNotice(q.extended, report)), LossSeen(x, m, o, q, report));
  }

  lemma FaultMissed(x: Client, m: Frontend, o: Outcome, q: Pump, report: bool)
    requires !LossInStep(AfterSending(x.seen.phase, m, o), q, report)
    ensures !(CycleInv(Lose(q, report).pump, LossSeen(x, m, o, q, report).phase) &&
              Accounted(LossSeen(x, m, o, q, report)))
  {
    var t := Send1(x.seen, m, o);
    LossOutOfStep(q, t.phase, report);
    if report && !q.extended && InBatch(t.phase) {
      AnsweredInBatch(t);
      if Accounted(LossSeen(x, m, o, q, report)) {
        AccountedFrame(LossSeen(x, m, o, q, report), Hear(t, LossNotice(false, true)));
      }
    }
  }

  /** A write that fails is a loss, after the message has been recorded. */
  lemma FaultIs(x: Client, m: Frontend, o: Outcome, hook: Hook, supply: Option<Conn>)
    requires Consider(x.pump, m, hook).Pass? && (x.pump.lease.Some? || supply.Some?)
    ensures var plan := Consider(x.pump, m, hook);
            && plan.pump.lease == x.pump.lease
            && var q := Recorded(Leased(plan.pump, supply), plan.m);
               var report := q.hygiene.awaiting || q.fedSinceReady > 0;
               var turn, y := Lose(q, report), OnMessage(x, m, o, hook, supply, true);
               && y.pump == turn.pump
               && y.seen == LossSeen(x, m, o, q, report)
  {
    PlanKeeps(x.pump, m, hook);
  }

  /** After a loss behind the Sync of an extended cycle, the client waits and nothing can happen: it
      may send nothing, and there is no connection to read from. */
  lemma LossBehindSyncStrands(x: Client)
    requires CycleInv(x.pump, x.seen.phase) && x.seen.phase.Waiting? && x.pump.extended
    ensures var y := OnLoss(x);
            && y.seen.phase.Waiting? && y.pump.lease.None? && y.pump.swallow
            && forall m :: !MaySend(y.seen.phase, m)
  {
    assert OnUpstreamLost(x.pump).told == [ErrorResponse(ConnectionFailure)];
    HearOne(x.seen.phase, ErrorResponse(ConnectionFailure));
  }

  /** A COPY cut short by a loss leaves its mark: the client is at rest, nothing is in flight, and yet
      the shutdown signal does not end the session. */
  lemma LossInCopyOutlivesShutdown(x: Client)
    requires CycleInv(x.pump, x.seen.phase) && x.seen.phase == CopyingIn(false)
    requires !x.pump.extended && x.pump.hygiene.copy != NoCopy
    ensures var y := OnLoss(x);
            && y.seen.phase.AtRest? && y.pump.lease.None? && !y.pump.hygiene.awaiting
            && !OnShutdown(y.pump).ended
  {
    var told := LossNotice(false, true);
    assert OnUpstreamLost(x.pump).told == told;
    assert told[..1] == [ErrorResponse(ConnectionFailure)];
    HearOne(x.seen.phase, ErrorResponse(ConnectionFailure));
  }

  const QUIET: Outcome := Outcome(true, [], {}, Idle, Tuples, 0)
  const COPY_IN: Outcome := QUIET.(shape := CopyFromClient)
  const BEGUN: Outcome := QUIET.(tx := InTx)

  /** The shortest session that gets there: COPY FROM STDIN is asked for and offered. */
  lemma CopyBegins(startup: map<string, string>, defaults: map<string, string>, sql: string)
    ensures var x0, c := Opened(startup, defaults), Some(Connected(0, defaults));
            var x := OnMessage(x0, Query(sql), COPY_IN, PASS, c, false);
            && x.pump.lease.Some? && x.pump.lease.value.unread == [CopyInResponse]
            && var y := OnResponse(x);
               && y.seen.phase == CopyingIn(false) && CycleInv(y.pump, y.seen.phase)
               && !y.pump.extended && y.pump.hygiene.copy == ClientOwesCopy
  {
    var x := OnMessage(Opened(startup, defaults), Query(sql), COPY_IN, PASS, Some(Connected(0, defaults)), false);
    FirstQuery(startup, defaults, sql, COPY_IN);
    FirstCycle(startup, defaults, sql, COPY_IN);
    assert Statuses(COPY_IN.reports) + QueryTail(COPY_IN) == [CopyInResponse];
    OfferHeard(x);
  }

  lemma OfferHeard(x: Client)
    requires CycleInv(x.pump, Waiting(false)) && x.seen.phase == Waiting(false) && !x.pump.extended
    requires x.pump.lease.Some? && x.pump.lease.value.unread == [CopyInResponse]
    ensures var y := OnResponse(x);
            && y.seen.phase == CopyingIn(false) && CycleInv(y.pump, y.seen.phase)
            && !y.pump.extended && y.pump.hygiene.copy == ClientOwesCopy
  {
    BackendCycle(x.pump, x.seen.phase);
    ResponsePhase(x);
  }

  lemma FirstCycle(startup: map<string, string>, defaults: map<string, string>, sql: string, o: Outcome)
    ensures CycleInv(OnFrontend(Start(startup), Query(sql), o, PASS, Some(Connected(0, defaults)), false).pump,
                     Waiting(false))
  {
    var p, c := Start(startup), Connected(0, defaults);
    assert Consider(p, Query(sql), PASS) == Pass(p, Query(sql));
    FrontendCycle(p, AtRest, Query(sql), o, PASS, Some(c), false);
  }

  lemma FirstAttach(startup: map<string, string>, defaults: map<string, string>)
    ensures var q := Attached(Start(startup), Connected(0, defaults));
            && !q.dirty && q.lease == Some(Prepared(Connected(0, defaults), Start(startup)))
            && q == Start(startup).(lease := q.lease)
  {
    var c, p := Connected(0, defaults), Start(startup);
    assert Differing(AfterStartup(c, p), map[]) == map[];
  }

  /** The first Query of a session, on a new connection. */
  lemma FirstQuery(startup: map<string, string>, defaults: map<string, string>, sql: string, o: Outcome)
    ensures var x := OnMessage(Opened(startup, defaults), Query(sql), o, PASS, Some(Connected(0, defaults)), false);
            && x.seen.phase == Waiting(false) && !x.pump.extended && !x.pump.swallow && !x.pump.draining
            && x.pump.hygiene == Hygiene(true, NoCopy) && !x.pump.dirty && x.pump.registry == map[]
            && x.pump.lease ==
               Some(Written(Prepared(Connected(0, defaults), Start(startup)), Query(sql), o))
            && FirstAnswer(x.pump.lease.value, Prepared(Connected(0, defaults), Start(startup)), sql, o)
  {
    FirstAttach(startup, defaults);
    FirstWrite(Prepared(Connected(0, defaults), Start(startup)), sql, o);
  }

  predicate FirstAnswer(d: Conn, b: Conn, sql: string, o: Outcome) {
    && d.unread == Statuses(o.reports) + QueryTail(o) && d.fed == []
    && d.server == RunReady(b.server, Query(sql), o).server && d.cache == b.cache
  }

  lemma FirstWrite(b: Conn, sql: string, o: Outcome)
    requires b.fed == [] && b.unread == [] && b.server.mode.Ready?
    ensures FirstAnswer(Written(b, Query(sql), o), b, sql, o)
  {
    WrittenIs(b, Query(sql), o);
    FlushedNothing(b);
    assert b.unread + React(b.server, Query(sql), o).replies == React(b.server, Query(sql), o).replies;
  }

  // ---------------------------------------------------------------- refused batches

  /** A batch of which the rest is refused, by a hook or with 42P05, after some of it went upstream: its Sync is
      answered with ReadyForQuery by the pump, and the client sends its next Query. For every such batch, the
      Query gets its ReadyForQuery exactly when the server has rejected nothing of the batch; otherwise the
      server, which never saw a Sync, skips it. And what the client hears is the answer to the Query alone
      exactly when nothing of the batch is still unanswered or unread. */
  lemma RefusedBatchExactly(p: Pump, m: Frontend, hook: Hook, sql: string, o: Outcome)
    requires CycleInv(p, Batch) && !p.swallow && p.lease.Some?
    requires Consider(p, m, hook).Answer? && Consider(p, m, hook).pump.swallow
    ensures var refused := Consider(p, m, hook).pump;
            var synced := Consider(refused, Sync, PASS);
            var next := OnFrontend(synced.pump, Query(sql), o, PASS, None, false).pump;
            && synced.told == [ReadyForQuery(p.lease.value.status)] && next.lease.Some?
            && var f, d := Flushed(p.lease.value), next.lease.value;
               && (Owed(d) == 1 <==> f.server.mode.Ready?)
               && (Owed(d) == 0 <==> d.server.mode.Skip?)
               && (d.unread == React(f.server, Query(sql), o).replies <==> f.unread == [])
  {
    var c := p.lease.value;
    var f, d := Flushed(c), Written(c, Query(sql), o);
    PlanKeeps(p, m, hook);
    var refused := Consider(p, m, hook).pump;
    assert Consider(refused, Sync, PASS) == Answer(refused.(swallow := false), [ReadyForQuery(c.status)]);
    QueryPasses(refused.(swallow := false), sql, o);
    QueryBehind(c, sql, o);
  }

  lemma QueryBehind(c: Conn, sql: string, o: Outcome)
    requires Open(c)
    ensures var f, d := Flushed(c), Written(c, Query(sql), o);
            && (Owed(d) == 1 <==> f.server.mode.Ready?)
            && (Owed(d) == 0 <==> d.server.mode.Skip?)
            && (d.unread == React(f.server, Query(sql), o).replies <==> f.unread == [])
  {
    var f, d := Flushed(c), Written(c, Query(sql), o);
    var r := React(f.server, Query(sql), o);
    WrittenIs(c, Query(sql), o);
    if f.server.mode.Ready? {
      QueryTaken(c, sql, o);
    } else {
      QuerySkipped(c, sql, o);
    }
    NothingAhead(f.unread, r.replies);
  }

  lemma NothingAhead(a: seq<Backend>, b: seq<Backend>)
    ensures a + b == b <==> a == []
  {
    assert |a + b| == |a| + |b|;
  }

  lemma QueryTaken(c: Conn, sql: string, o: Outcome)
    requires Open(c) && Flushed(c).server.mode.Ready?
    ensures var d := Written(c, Query(sql), o);
            Owed(d) == 1 && !d.server.mode.Skip? && (!o.shape.CopyFromClient? ==> ReadyCount(d.unread) == 1)
  {
    var f, d := Flushed(c), Written(c, Query(sql), o);
    var r := React(f.server, Query(sql), o);
    WrittenIs(c, Query(sql), o);
    QueryReact(f.server, Query(sql), o);
    JoinFront(f.unread, r.replies);
    var front, last := f.unread + r.replies[..|r.replies| - 1], r.replies[|r.replies| - 1];
    PlainNotReady(front);
    ReadyCountAppend(front, [last]);
    assert [last][..0] == [];
  }

  lemma QuerySkipped(c: Conn, sql: string, o: Outcome)
    requires Open(c) && !Flushed(c).server.mode.Ready?
    ensures var d := Written(c, Query(sql), o); Owed(d) == 0 && d.server.mode.Skip?
  {
    WrittenIs(c, Query(sql), o);
    assert Flushed(c).unread + [] == Flushed(c).unread;
    PlainNotReady(Flushed(c).unread);
  }

  /** The session of one unnamed Parse, one more that is denied, and a Sync. */
  function RefusedSession(startup: map<string, string>, defaults: map<string, string>, stmt: Statement, code: Code,
                          o: Outcome): Client
  {
    var x := OnMessage(Opened(startup, defaults), Parse("", stmt), o, PASS, Some(Connected(0, defaults)), false);
    OnMessage(OnMessage(x, Parse("", stmt), o, Deny(code), None, false), Sync, o, PASS, None, false)
  }

  /** It is at rest and told idle, and holds a connection, undirtied, with the Parse in its buffer. */
  lemma RefusedSessionHolds(startup: map<string, string>, defaults: map<string, string>, stmt: Statement, code: Code,
                            o: Outcome)
    ensures var z := RefusedSession(startup, defaults, stmt, code, o);
            && SafeClient(z, defaults) && z.seen.phase.AtRest? && !z.pump.swallow && !z.pump.draining && !z.pump.dirty
            && z.pump.status.Idle? && z.pump.fedSinceReady == 1 && z.pump.lease.Some?
            && z.pump.lease.value == Written(Prepared(Connected(0, defaults), Start(startup)), Parse("", stmt), o)
  {
    var m, c := Parse("", stmt), Connected(0, defaults);
    var x0 := Opened(startup, defaults);
    var x := OnMessage(x0, m, o, PASS, Some(c), false);
    var y := OnMessage(x, m, o, Deny(code), None, false);
    FirstAttach(startup, defaults);
    OpenedInv(startup, defaults);
    FirstParse(startup, defaults, stmt, o);
    MessageSafe(x0, m, o, PASS, Some(c), false, defaults);
    DeniedParse(x, stmt, code, o);
    MessageSafe(x, m, o, Deny(code), None, false, defaults);
    SyncAnswered(y, o);
    MessageSafe(y, Sync, o, PASS, None, false, defaults);
  }

  lemma FirstParse(startup: map<string, string>, defaults: map<string, string>, stmt: Statement, o: Outcome)
    ensures var x0, c := Opened(startup, defaults), Some(Connected(0, defaults));
            var x := OnMessage(x0, Parse("", stmt), o, PASS, c, false);
            && x.pump == Passed(Attached(Start(startup), Connected(0, defaults)).(extended := true), Parse("", stmt), o)
            && x.seen.phase.Batch?
            && !OnFrontend(Start(startup), Parse("", stmt), o, PASS, Some(Connected(0, defaults)), false).ended
            && PlanTold(Start(startup), Consider(Start(startup), Parse("", stmt), PASS))
  {
    var p, m := Start(startup), Parse("", stmt);
    assert Consider(p, m, PASS) == Pass(p.(extended := true), m);
  }

  lemma DeniedParse(x: Client, stmt: Statement, code: Code, o: Outcome)
    requires !x.pump.swallow && x.seen.phase.Batch?
    ensures var y := OnMessage(x, Parse("", stmt), o, Deny(code), None, false);
            && y.pump == x.pump.(extended := true, swallow := true) && y.seen.phase.Batch?
            && Consider(x.pump, Parse("", stmt), Deny(code)).Answer?
  {
    HearOne(Batch, ErrorResponse(code));
  }

  lemma SyncAnswered(y: Client, o: Outcome)
    requires y.pump.swallow && y.seen.phase.Batch?
    ensures var z := OnMessage(y, Sync, o, PASS, None, false);
            z.pump == y.pump.(swallow := false) && z.seen.phase.AtRest? && Consider(y.pump, Sync, PASS).Answer?
  {
    HearOne(Waiting(true), ReadyForQuery(LeaseStatus(y.pump)));
  }

  /** So the next Query of a new session can be lost, if the server rejects the first Parse, and can be answered
      with a ParseComplete ahead, if it does not. */
  lemma RefusedSessionGoesWrong(startup: map<string, string>, defaults: map<string, string>, stmt: Statement,
                                code: Code, o: Outcome, sql: string, o': Outcome)
    ensures var z := RefusedSession(startup, defaults, stmt, code, o);
            var d := OnFrontend(z.pump, Query(sql), o', PASS, None, false).pump.lease;
            && d.Some?
            && (!o.ok ==> Owed(d.value) == 0 && d.value.server.mode.Skip?)
            && (o.ok ==> d.value.unread == [ParseComplete] + Statuses(o'.reports) + QueryTail(o'))
  {
    var z := RefusedSession(startup, defaults, stmt, code, o);
    RefusedSessionHolds(startup, defaults, stmt, code, o);
    QueryPasses(z.pump, sql, o');
    SafeAtRestIsOpen(z, defaults);
    ParseBuffered(Prepared(Connected(0, defaults), Start(startup)), stmt, o);
    QueryBehind(z.pump.lease.value, sql, o');
    WrittenIs(z.pump.lease.value, Query(sql), o');
    Regroup([ParseComplete], Statuses(o'.reports), QueryTail(o'));
  }

  lemma ParseBuffered(b: Conn, stmt: Statement, o: Outcome)
    requires AtBoundary(b) && b.server.stmts == map[]
    ensures var f := Flushed(Written(b, Parse("", stmt), o));
            && (o.ok ==> f.server.mode.Ready? && f.unread == [ParseComplete])
            && (!o.ok ==> f.server.mode.Skip?)
  {
    UnnamedParse(b.server, stmt, o);
    WrittenIs(b, Parse("", stmt), o);
    FlushedNothing(b);
    if o.ok {
      assert b.unread + [ParseComplete] == [ParseComplete];
    }
  }

  lemma UnnamedParse(s: Server, stmt: Statement, o: Outcome)
    requires s.mode.Ready? && s.stmts == map[]
    ensures React(s, Parse("", stmt), o) == if o.ok then Reaction(s, [ParseComplete]) else AbortBatch(s, o)
  {
  }

  lemma SafeAtRestIsOpen(x: Client, defaults: map<string, string>)
    requires SafeClient(x, defaults) && x.seen.phase.AtRest? && x.pump.lease.Some?
    ensures Open(x.pump.lease.value) && OnlyPipelined(x.pump.lease.value)
  {
  }

  lemma QueryPasses(p: Pump, sql: string, o: Outcome)
    requires p.lease.Some? && !p.swallow
    ensures OnFrontend(p, Query(sql), o, PASS, None, false).pump.lease == Some(Written(p.lease.value, Query(sql), o))
  {
    assert OnFrontend(p, Query(sql), o, PASS, None, false).pump == Passed(p.(extended := false), Query(sql), o);
  }

  // ---------------------------------------------------------------- statements

  /** A detached Close of a portal drops the registered statement of the same name, which the
      dedicated connection keeps: for every session that has such a statement. */
  lemma PortalCloseDropsStatement(x: Client, name: string, o: Outcome, hook: Hook)
    requires MirrorInv(x.pump, x.seen) && x.seen.intact && x.pump.lease.None? && !x.pump.swallow
    requires name in x.pump.registry
    ensures var y := OnMessage(x, Close(OfPortal, name), o, hook, None, false);
            && name !in y.pump.registry
            && name in Dedicated(y.seen.origin, y.seen.history).server.stmts
  {
  }

  /** A Close sent upstream stays in the registry: the server drops the statement, and when the
      client prepares it again the proxy answers ParseComplete without asking the server. */
  lemma ClosedStatementIsStillAnswered(p: Pump, name: string, o: Outcome, oids: seq<int>)
    requires p.lease.Some? && !p.swallow && name in p.registry && name != ""
    requires Flushed(p.lease.value).server.mode.Ready?
    ensures var q := OnFrontend(p, Close(OfStatement, name), o, PASS, None, false).pump;
            && name !in Flushed(q.lease.value).server.stmts
            && Consider(q, Parse(name, Statement(p.registry[name].sql, oids)), PASS) ==
               Answer(q.(extended := true), [ParseComplete])
  {
    var close := Close(OfStatement, name);
    assert OnFrontend(p, close, o, PASS, None, false).pump == Passed(p, close, o);
    ClosedOnServer(p.lease.value, name, o);
    KnownParse(Passed(p, close, o), name, Statement(p.registry[name].sql, oids));
  }

  lemma ClosedOnServer(c: Conn, name: string, o: Outcome)
    requires Flushed(c).server.mode.Ready?
    ensures name !in Flushed(Written(c, Close(OfStatement, name), o)).server.stmts
  {
    WrittenIs(c, Close(OfStatement, name), o);
    assert React(Flushed(c).server, Close(OfStatement, name), o).server.stmts == Flushed(c).server.stmts - {name};
  }

  lemma KnownParse(q: Pump, name: string, stmt: Statement)
    requires q.lease.Some? && !q.swallow && name in q.registry && name != "" && q.registry[name].sql == stmt.sql
    ensures Consider(q, Parse(name, stmt), PASS) == Answer(q.(extended := true), [ParseComplete])
  {
  }

  /** A named Parse sent upstream is registered at once. The dedicated connection has the statement too
      exactly when its server takes the Parse; if it is rejected, the name stays in the registry, and
      every later attach replays a Parse that has been rejected before. */
  lemma RejectedParseStaysRegistered(x: Client, m: Frontend, o: Outcome, hook: Hook, supply: Option<Conn>, c: Conn)
    requires MirrorInv(x.pump, x.seen) && x.seen.intact && m.Parse?
    requires Consider(x.pump, m, hook).Pass? && (x.pump.lease.Some? || supply.Some?)
    requires NamedParse(Consider(x.pump, m, hook).m)
    ensures var y, sent := OnMessage(x, m, o, hook, supply, false), Consider(x.pump, m, hook).m;
            var before, after := Dedicated(x.seen.origin, x.seen.history).server,
                                 Dedicated(y.seen.origin, y.seen.history).server;
            && sent.name in y.pump.registry && y.pump.registry[sent.name] == sent.stmt
            && Prepared(c, y.pump).wire == c.wire + [Replay(ToSet(c, y.pump), y.pump.registry)]
            && (sent.name in after.stmts <==> before.mode.Ready? && o.ok)
  {
    var plan, t := Consider(x.pump, m, hook), x.seen;
    PlanKeeps(x.pump, m, hook);
    PlanIsClientMessage(x.pump, m, hook);
    PassFields(plan.pump, plan.m, o, supply);
    PassSeen(x, m, o, hook, supply);
    DedicatedStep(t.origin, t.history, Ran(plan.m, o));
    ParseTaken(Dedicated(t.origin, t.history).server, plan.m, o);
  }

  /** A server has a new statement exactly when it takes its Parse. */
  lemma ParseTaken(s: Server, m: Frontend, o: Outcome)
    requires NamedParse(m) && m.name !in s.stmts
    ensures m.name in React(s, m, o).server.stmts <==> s.mode.Ready? && o.ok
  {
  }

  // ---------------------------------------------------------------- local answers

  /** A message answered by the pump itself is answered in its turn exactly when the connection has
      nothing left to say about the messages before it. */
  lemma LocalAnswerOvertakesExactly(x: Client, defaults: map<string, string>)
    requires SafeClient(x, defaults) && x.seen.intact && x.seen.solo
    ensures x.seen.relayed == Dedicated(x.seen.origin, x.seen.history).replies <==>
            (x.pump.lease.None? || Flushed(x.pump.lease.value).unread == [])
  {
    if x.pump.lease.Some? {
      var u, d := Flushed(x.pump.lease.value).unread, Dedicated(x.seen.origin, x.seen.history).replies;
      assert x.seen.relayed + u == d;
      assert |d| == |x.seen.relayed| + |u|;
    }
  }

  /** Of what an orderly session answers itself, only the Parse of a listed name can meet a connection
      that has something left to say. */
  lemma OnlyKnownParseOvertakes(p: Pump, phase: Phase, m: Frontend, hook: Hook)
    requires CycleInv(p, phase) && Civil(p, phase, m, hook) && RefusalInStep(p, m, hook)
    requires Consider(p, m, hook).Answer? && Consider(p, m, hook).told != []
    requires p.lease.Some? && Flushed(p.lease.value).unread != []
    ensures var sent := Rewrite(m, if hook.Forward? then hook.rewritten else None);
            && phase.Batch? && NamedParse(sent)
            && sent.name in p.registry && p.registry[sent.name].sql == sent.stmt.sql
            && Consider(p, m, hook).told == [ParseComplete]
  {
    if AtBoundary(p.lease.value) {
      FlushedNothing(p.lease.value);
    }
  }

  /** And it does: a new Parse waits in the connection's buffer while the Parse behind it, of a listed
      name, is answered. */
  lemma KnownParseOvertakes(p: Pump, novel: string, known: string, stmt: Statement, o: Outcome)
    requires p.lease.Some? && !p.swallow && AtBoundary(p.lease.value) && p.lease.value.server.mode.Ready? && o.ok
    requires novel != "" && novel !in p.registry && novel !in p.lease.value.server.stmts
    requires known != "" && known in p.registry && p.registry[known].sql == stmt.sql
    ensures var q := OnFrontend(p, Parse(novel, stmt), o, PASS, None, false).pump;
            && OnFrontend(p, Parse(novel, stmt), o, PASS, None, false).told == []
            && q.lease.Some? && Flushed(q.lease.value).unread == [ParseComplete]
            && Consider(q, Parse(known, stmt), PASS) == Answer(q, [ParseComplete])
  {
    var c, m := p.lease.value, Parse(novel, stmt);
    assert OnFrontend(p, m, o, PASS, None, false).pump == Passed(p.(extended := true), m, o);
    FlushedNothing(c);
    WrittenIs(c, m, o);
    assert c.unread + [ParseComplete] == [ParseComplete];
    KnownParse(Passed(p.(extended := true), m, o), known, stmt);
  }

  // ---------------------------------------------------------------- pipelining

  /** What a second Query adds, when the client does not wait for the answer to the first. */
  lemma SecondQuery(x: Client, sql: string)
    requires x.pump.lease.Some? && !x.pump.swallow
    requires x.pump.lease.value.fed == [] && x.pump.lease.value.server.mode.Ready?
    ensures var y := OnMessage(x, Query(sql), QUIET, PASS, None, false);
            && y.pump.hygiene == Hygiene(true, x.pump.hygiene.copy) && y.pump.dirty == x.pump.dirty
            && y.pump.draining == x.pump.draining && y.pump.lease.Some?
            && y.pump.lease.value.unread == x.pump.lease.value.unread + [Data, ReadyForQuery(Idle)]
            && y.pump.lease.value.fed == [] && y.pump.lease.value.server.mode.Ready?
            && y.pump.lease.value.server == x.pump.lease.value.server.(tx := Idle)
            && y.pump.lease.value.cache == x.pump.lease.value.cache && y.pump.registry == x.pump.registry
  {
    var c := x.pump.lease.value;
    assert OnFrontend(x.pump, Query(sql), QUIET, PASS, None, false).pump ==
           Passed(x.pump.(extended := false), Query(sql), QUIET);
    WrittenIs(c, Query(sql), QUIET);
    FlushedNothing(c);
    assert Statuses(QUIET.reports) + QueryTail(QUIET) == [Data, ReadyForQuery(Idle)];
    assert Reported(c.server.params, Statuses([])) == c.server.params;
    assert c.server.stmts - {} == c.server.stmts;
  }

  /** Two Querys sent without waiting, then two messages read: the connection goes back to the pool, and
      is parked as it is, with the answer to the second Query unread. */
  lemma PipelinedQueryIsParkedUnread(startup: map<string, string>, defaults: map<string, string>, sql: string,
                                     o: Outcome)
    ensures var x := OnMessage(Opened(startup, defaults), Query(sql), QUIET, PASS, Some(Connected(0, defaults)), false);
            var y := OnMessage(x, Query(sql), QUIET, PASS, None, false);
            && y.pump.lease.Some? && y.pump.lease.value.unread == [Data, ReadyForQuery(Idle), Data, ReadyForQuery(Idle)]
            && var p := OnResponse(y).pump;
               && p.lease.Some? && p.lease.value.unread != [] && OnBackend(p).released.Some?
               && var (c, dirty) := OnBackend(p).released.value;
                  && CheckinDetached(c, dirty, o) == Some(c)
                  && c.unread == [Data, ReadyForQuery(Idle)]
  {
    var x := OnMessage(Opened(startup, defaults), Query(sql), QUIET, PASS, Some(Connected(0, defaults)), false);
    FirstQuery(startup, defaults, sql, QUIET);
    assert Statuses(QUIET.reports) + QueryTail(QUIET) == [Data, ReadyForQuery(Idle)];
    SecondQuery(x, sql);
  }

  /** The same inside a transaction, where the client then leaves: nothing is known to be in flight, the
      clean-up succeeds, and the connection it parks is not neutral. */
  lemma PipelinedQuerySurvivesSanitize(startup: map<string, string>, defaults: map<string, string>, sql: string,
                                       a: Answers)
    requires a.sync.ok && a.discard.ok
    ensures var x := OnMessage(Opened(startup, defaults), Query(sql), BEGUN, PASS, Some(Connected(0, defaults)), false);
            var y := OnMessage(x, Query(sql), QUIET, PASS, None, false);
            && y.pump.lease.Some? && y.pump.lease.value.unread == [Data, ReadyForQuery(InTx), Data, ReadyForQuery(Idle)]
            && var z := OnResponse(y);
               && z.pump.lease.Some? && z.pump.lease.value.unread != []
               && var p := OnResponse(z).pump;
                  && p.lease.Some? && p.hygiene == Hygiene(false, NoCopy)
                  && Sanitize(p.lease.value, p.hygiene, a).Some?
                  && !Neutral(Sanitize(p.lease.value, p.hygiene, a).value)
  {
    var x := OnMessage(Opened(startup, defaults), Query(sql), BEGUN, PASS, Some(Connected(0, defaults)), false);
    FirstQuery(startup, defaults, sql, BEGUN);
    assert Statuses(BEGUN.reports) + QueryTail(BEGUN) == [Data, ReadyForQuery(InTx)];
    SecondQuery(x, sql);
    var y := OnMessage(x, Query(sql), QUIET, PASS, None, false);
    ReadIntoTransaction(y, [Data, ReadyForQuery(Idle)]);
    UnreadSurvivesSanitize(OnResponse(OnResponse(y)).pump.lease.value, a);
  }

  lemma ReadIntoTransaction(y: Client, rest: seq<Backend>)
    requires y.pump.lease.Some? && !y.pump.draining && y.pump.lease.value.unread == [Data, ReadyForQuery(InTx)] + rest
    ensures var z := OnResponse(y);
            && z.pump.lease.Some? && z.pump.lease.value.unread != []
            && var p, c := OnResponse(z).pump, y.pump.lease.value;
               && p.hygiene == Hygiene(false, NoCopy) && p.lease.Some?
               && p.lease.value.unread == rest && p.lease.value.fed == c.fed
               && p.lease.value.server == c.server && p.lease.value.cache == c.cache
  {
  }

  lemma UnreadSurvivesSanitize(c: Conn, a: Answers)
    requires c.fed == [] && c.server.mode.Ready? && c.cache == c.server.params
    requires c.unread == [Data, ReadyForQuery(Idle)] && a.sync.ok && a.discard.ok
    ensures Sanitize(c, Hygiene(false, NoCopy), a).Some?
    ensures !Neutral(Sanitize(c, Hygiene(false, NoCopy), a).value)
  {
    FlushedNothing(c);
    FeedThenFlush(c, Sync, a.sync);
    var d := Send(c, Sync, a.sync);
    assert d.unread == [Data, ReadyForQuery(Idle), ReadyForQuery(c.server.tx)];
    assert Drain(d) == Drain(Next(d)) == Some(Next(Next(d)));
    var e := Next(Next(d));
    assert e.unread == [ReadyForQuery(c.server.tx)];
    FlushedNothing(e);
    FeedThenFlush(e, Run(DiscardAll), a.discard);
    var f := Send(e, Run(DiscardAll), a.discard);
    assert f.unread[0] == ReadyForQuery(c.server.tx);
    assert Drain(f) == Some(Next(f));
    SilentReplies(c.cache, c.unread);
    assert ReadyCount(c.unread) == 1 by {
      ReadyCountAppend([Data], [ReadyForQuery(Idle)]);
      assert [Data] + [ReadyForQuery(Idle)] == c.unread;
    }
    SanitizeExact(c, Hygiene(false, NoCopy), a);
  }

  // ---------------------------------------------------------------- scatter

  /** A scatter at rest keeps client and pump in step exactly when the session is outside a transaction: inside
      one it is refused with a ReadyForQuery that says idle, while the leased connection still has the
      transaction open. */
  lemma ScatterInStepExactly(p: Pump, sql: string, merged: Option<seq<Backend>>, own: Option<LegRun>)
    requires CycleInv(p, AtRest) && (merged.Some? ==> Plain(merged.value))
    ensures var plan := Consider(p, Query(sql), Scatter(merged, own));
            && !plan.Pass? && !plan.Quit?
            && (CycleInv(plan.pump, AfterHearingAll(Waiting(false), plan.told)) <==> p.status.Idle?)
  {
    var m, hook := Query(sql), Scatter(merged, own);
    if p.status.Idle? {
      AnswerCycle(p, AtRest, m, QUIET, hook);
    } else {
      ScatterRefused(p, sql, merged, own);
    }
  }

  lemma ScatterRefused(p: Pump, sql: string, merged: Option<seq<Backend>>, own: Option<LegRun>)
    requires CycleInv(p, AtRest) && !p.status.Idle?
    ensures var plan := Consider(p, Query(sql), Scatter(merged, own));
            && plan.Answer? && plan.told == [ErrorResponse(NotSupported), ReadyForQuery(Idle)]
            && plan.pump.status.Idle? && plan.pump.lease == p.lease && !p.lease.value.status.Idle?
            && forall phase :: !CycleInv(plan.pump, phase)
  {
  }

  // ---------------------------------------------------------------- scatter legs

  /** What becomes of a session at rest when a scatter runs a leg on the connection it still holds. */
  lemma ScatterRuns(x: Client, sql: string, merged: Option<seq<Backend>>, leg: LegRun, o: Outcome)
    requires x.pump.lease.Some? && !x.pump.swallow && x.pump.status.Idle?
    ensures var plan := Consider(x.pump, Query(sql), Scatter(merged, Some(leg)));
            var y := OnMessage(x, Query(sql), o, Scatter(merged, Some(leg)), None, false);
            && plan.Scattered? && plan.leg == leg
            && y.pump == x.pump.(extended := false, lease := LegRan(x.pump.lease.value, leg))
  {
  }

  /** A Query that changes nothing, forwarded from a boundary: the connection comes back as it was, idle. */
  lemma QuietCycleReleases(y: Client, sql: string)
    requires y.pump.lease.Some? && !y.pump.swallow && !y.pump.draining && AtBoundary(y.pump.lease.value)
    ensures var z := OnMessage(y, Query(sql), QUIET, PASS, None, false);
            && z.pump.lease.Some? && z.pump.lease.value.unread == [Data, ReadyForQuery(Idle)]
            && var q := OnResponse(z).pump;
               && q.lease.Some? && q.lease.value.unread == [ReadyForQuery(Idle)]
               && OnBackend(q).released.Some?
               && var (d, dirty), c := OnBackend(q).released.value, y.pump.lease.value;
                  && dirty == y.pump.dirty && AtBoundary(d)
                  && d.server == c.server.(tx := Idle) && d.cache == c.cache
  {
    SecondQuery(y, sql);
    assert [] + [Data, ReadyForQuery(Idle)] == [Data, ReadyForQuery(Idle)];
  }

  /** The connection that a session gives back, with its dirty flag, after a scatter leg on it and one more,
      uneventful, Query. */
  function AfterOwnLeg(x: Client, sql: string, merged: Option<seq<Backend>>, leg: LegRun): (Conn, bool)
    requires x.pump.lease.Some? && Open(x.pump.lease.value) && LegRan(x.pump.lease.value, leg).Some?
    requires !x.pump.swallow && !x.pump.draining && x.pump.status.Idle?
  {
    LegResult(x.pump.lease.value, leg);
    ScatterRuns(x, sql, merged, leg, QUIET);
    var y := OnMessage(x, Query(sql), QUIET, Scatter(merged, Some(leg)), None, false);
    QuietCycleReleases(y, sql);
    OnBackend(OnResponse(OnMessage(y, Query(sql), QUIET, PASS, None, false)).pump).released.value
  }

  /** Exactly when that connection is clean in the pool. The leg's reports, and any that were still unread when
      it ran, reach the client library's cache without raising the dirty flag; so the connection is clean if
      and only if the flag was up already, so that DISCARD ALL is run, or the parameters are back at the
      baseline after all of them. */
  lemma OwnLegParkedCleanExactly(x: Client, sql: string, merged: Option<seq<Backend>>, leg: LegRun, discard: Outcome,
                                 defaults: map<string, string>)
    requires SafeClient(x, defaults) && x.seen.phase.AtRest? && x.pump.lease.Some?
    requires !x.pump.swallow && !x.pump.draining && x.pump.status.Idle?
    requires Open(x.pump.lease.value) && LegRan(x.pump.lease.value, leg).Some?
    requires CheckinDetached(AfterOwnLeg(x, sql, merged, leg).0, AfterOwnLeg(x, sql, merged, leg).1, discard).Some?
    ensures var (c, dirty) := AfterOwnLeg(x, sql, merged, leg);
            ParkedClean(CheckinDetached(c, dirty, discard).value, defaults) <==>
            x.pump.dirty || AtBaseline(AllReported(x.pump.lease.value, leg), defaults)
  {
    var c := x.pump.lease.value;
    var (d, dirty) := AfterOwnLeg(x, sql, merged, leg);
    SafeAtRestIsOpen(x, defaults);
    AfterOwnLegIs(x, sql, merged, leg);
    LegCache(c, leg);
    LegParked(c, leg, d, x.pump.registry, x.pump.dirty, discard, defaults);
  }

  /** What the client library has cached after a leg: the reports that were unread, then the leg's. */
  function AllReported(c: Conn, leg: LegRun): map<string, string> {
    Reported(c.cache, Flushed(c).unread + Statuses(leg.o.reports))
  }

  lemma AfterOwnLegIs(x: Client, sql: string, merged: Option<seq<Backend>>, leg: LegRun)
    requires x.pump.lease.Some? && Open(x.pump.lease.value) && LegRan(x.pump.lease.value, leg).Some?
    requires !x.pump.swallow && !x.pump.draining && x.pump.status.Idle?
    ensures var (d, dirty) := AfterOwnLeg(x, sql, merged, leg);
            var c := LegRan(x.pump.lease.value, leg).value;
            dirty == x.pump.dirty && AtBoundary(d) && d.server == c.server.(tx := Idle) && d.cache == c.cache
  {
    LegResult(x.pump.lease.value, leg);
    ScatterRuns(x, sql, merged, leg, QUIET);
    QuietCycleReleases(OnMessage(x, Query(sql), QUIET, Scatter(merged, Some(leg)), None, false), sql);
  }

  lemma LegParked(c: Conn, leg: LegRun, d: Conn, registry: map<string, Statement>, dirty: bool, o: Outcome,
                  defaults: map<string, string>)
    requires LeaseOk(c, registry, dirty, defaults) && Open(c) && LegRan(c, leg).Some? && CacheTrue(LegRan(c, leg).value)
    requires AtBoundary(d) && d.cache == LegRan(c, leg).value.cache
    requires d.server == LegRan(c, leg).value.server.(tx := Idle) && CheckinDetached(d, dirty, o).Some?
    ensures ParkedClean(CheckinDetached(d, dirty, o).value, defaults) <==>
            dirty || AtBaseline(AllReported(c, leg), defaults)
  {
    LegResult(c, leg);
    LegCache(c, leg);
    if dirty {
      InStepCommand(d, DiscardAll, o);
      SimpleQueryKeeps(d, DiscardAll, o);
    }
  }

  /** And there are sessions in which it is not: the one of a refused batch, at rest with a connection whose
      dirty flag is down, and any scatter leg that reports a parameter that is off its default. */
  lemma OwnLegLeaks(startup: map<string, string>, defaults: map<string, string>, stmt: Statement, code: Code,
                    sql: string, merged: Option<seq<Backend>>, name: string, value: string, discard: Outcome)
    requires name !in TRACKED && Lookup(defaults, name) != value
    ensures var x := RefusedSession(startup, defaults, stmt, code, QUIET);
            var leg := LegRun(sql, QUIET.(reports := [(name, value)]), false);
            && x.seen.phase.AtRest? && x.pump.lease.Some? && !x.pump.swallow && !x.pump.draining && x.pump.status.Idle?
            && Open(x.pump.lease.value) && LegRan(x.pump.lease.value, leg).Some?
            && var (c, dirty) := AfterOwnLeg(x, sql, merged, leg);
               CheckinDetached(c, dirty, discard) == Some(c) && !ParkedClean(c, defaults)
  {
    var x := RefusedSession(startup, defaults, stmt, code, QUIET);
    var leg := LegRun(sql, QUIET.(reports := [(name, value)]), false);
    RefusedSessionHolds(startup, defaults, stmt, code, QUIET);
    SafeAtRestIsOpen(x, defaults);
    var c := x.pump.lease.value;
    ParseBuffered(Prepared(Connected(0, defaults), Start(startup)), stmt, QUIET);
    LegAnswers(c, leg);
    AfterOwnLegIs(x, sql, merged, leg);
    OwnLegParkedCleanExactly(x, sql, merged, leg, discard, defaults);
    ReportedLast(c.cache, Flushed(c).unread, name, value);
  }

  lemma LegAnswers(c: Conn, leg: LegRun)
    requires Open(c) && Flushed(c).server.mode.Ready? && !leg.o.shape.CopyFromClient? && !leg.breaks
    ensures LegRan(c, leg).Some?
  {
    QueryTaken(c, leg.sql, leg.o);
    DrainLaw(LegSent(c, leg));
  }

  lemma ReportedLast(params: map<string, string>, unread: seq<Backend>, name: string, value: string)
    ensures Lookup(Reported(params, unread + Statuses([(name, value)])), name) == value
  {
    var ms := unread + Statuses([(name, value)]);
    assert ms[|ms| - 1] == ParameterStatus(name, value);
  }

  /** Exactly when a leg leaves the session's connection where a dedicated connection of its own would be: nothing
      of the session's was left for it to swallow, and it changed neither the transaction status nor a
      statement of the session's nor a parameter that counts. */
  lemma OwnLegUnnoticedExactly(c: Conn, leg: LegRun, d: Reaction, p: Pump, t: Trace)
    requires Attuned(c, d, p, t) && Open(c) && LegRan(c, leg).Some?
    ensures var f := Flushed(c);
            Attuned(LegRan(c, leg).value, d, p, t) <==>
            && f.unread == [] && leg.o.tx == f.server.tx && (forall n <- leg.o.dealloc :: n !in f.server.stmts)
            && (forall n: string :: Compared(n, p.startup, Reported(t.carried, d.replies)) ==>
                  Lookup(Reported(f.server.params, Statuses(leg.o.reports)), n) == Lookup(f.server.params, n))
  {
    var f, e := Flushed(c), LegRan(c, leg).value;
    LegResult(c, leg);
    FlushedNothing(e);
    assert |d.replies| == |t.relayed| + |f.unread|;
    assert t.relayed + [] == t.relayed;
    if forall n <- leg.o.dealloc :: n !in f.server.stmts {
      assert f.server.stmts - leg.o.dealloc == f.server.stmts;
    } else {
      var n :| n in leg.o.dealloc && n in f.server.stmts;
      assert n !in e.server.stmts;
    }
  }

  /** The connection of a scatter leg is clean in the pool exactly when the leg's query left no
      transaction open, or reported a parameter, so that DISCARD ALL is run and has to succeed. */
  lemma LegParkedCleanExactly(l: Leg, o: Outcome, defaults: map<string, string>)
    requires LegOk(l, defaults) && CheckinDetached(l.conn, l.dirty, o).Some?
    ensures ParkedClean(CheckinDetached(l.conn, l.dirty, o).value, defaults) <==>
            l.dirty || l.conn.server.tx.Idle?
  {
    DetachExactly(l.conn, map[], l.dirty, o, defaults);
  }
}

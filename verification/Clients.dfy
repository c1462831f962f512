/**
 What every event of one session keeps. `SafeClient` is kept whatever hooks refuse and connections
 suffer, by every client that waits for its answers, as long as a scatter leg on the session's connection
 reports nothing that the dirty flag does not tell of; it is what the pool depends on. `ClientInv` is kept
 by orderly events; it is what the client depends on.
 */
module Clients {
  import opened Protocol
  import opened Connection
  import opened Session
  import opened Shapes
  import opened Phases
  import opened Leases
  import opened Mirror
  import opened Accounting

  /** The connection fits the client's phase, owes only what the pump knows of, and carries nothing the
      pump would not clean up. */
  ghost predicate SafeConn(c: Conn, p: Pump, phase: Phase) {
    && OnlyPipelined(c) && Shape(c, phase)
    && (Owed(c) >= 1 ==> p.hygiene.awaiting)
    && (p.swallow ==> Open(c))
  }

  ghost predicate Fit(x: Client, defaults: map<string, string>) {
    && LeaseInv(x.pump, defaults)
    && (x.pump.lease.Some? ==> SafeConn(x.pump.lease.value, x.pump, x.seen.phase))
  }

  /** The session cannot be told from one with a connection of its own. */
  ghost predicate Mirrored(x: Client, defaults: map<string, string>) {
    MirrorInv(x.pump, x.seen) && x.seen.origin.defaults == defaults
  }

  ghost predicate SafeClient(x: Client, defaults: map<string, string>) {
    Fit(x, defaults) && Mirrored(x, defaults)
  }

  ghost predicate ClientInv(x: Client, defaults: map<string, string>) {
    && CycleInv(x.pump, x.seen.phase)
    && LeaseInv(x.pump, defaults)
    && Mirrored(x, defaults)
    && Accounted(x.seen)
  }

  lemma InvIsSafe(x: Client, defaults: map<string, string>)
    requires ClientInv(x, defaults)
    ensures SafeClient(x, defaults)
  {
    if x.pump.lease.Some? {
      OwedIsKnown(x.pump, x.seen.phase);
      if x.pump.swallow {
        SwallowIsOpen(x.pump, x.seen.phase);
      }
    }
  }

  lemma SwallowIsOpen(p: Pump, phase: Phase)
    requires CycleInv(p, phase) && p.swallow && p.lease.Some?
    ensures Open(p.lease.value)
  {
    BoundaryIsOpen(p.lease.value);
  }

  /** What checking in a session's lease needs to know of it. */
  lemma SafeToCheckIn(x: Client, defaults: map<string, string>)
    requires SafeClient(x, defaults) && x.pump.lease.Some?
    ensures OnlyPipelined(x.pump.lease.value) && Owed(x.pump.lease.value) <= Allowed(x.pump.hygiene)
  {
    ShapeOwes(x.pump.lease.value, x.seen.phase);
  }

  lemma OpenedInv(startup: map<string, string>, defaults: map<string, string>)
    ensures ClientInv(Opened(startup, defaults), defaults) && SafeClient(Opened(startup, defaults), defaults)
  {
  }

  lemma SeenPhase(x: Client, m: Frontend, o: Outcome, hook: Hook, supply: Option<Conn>, fault: bool)
    ensures var t := SeenMessage(x, m, o, hook, supply, fault);
            && t.phase ==
               AfterHearingAll(AfterSending(x.seen.phase, m, o), OnFrontend(x.pump, m, o, hook, supply, fault).told)
            && t.origin.defaults == x.seen.origin.defaults
  {
  }

  // ---------------------------------------------------------------- safety

  lemma FitHolds(y: Client, c: Conn, defaults: map<string, string>)
    requires LeaseInv(y.pump, defaults) && y.pump.lease == Some(c) && SafeConn(c, y.pump, y.seen.phase)
    ensures Fit(y, defaults)
  {
  }

  /** A message that is answered locally meets a connection with nothing in store. */
  lemma AnsweredIsOpen(x: Client, m: Frontend, hook: Hook, defaults: map<string, string>)
    requires Fit(x, defaults) && MaySend(x.seen.phase, m) && Consider(x.pump, m, hook).Answer?
    requires x.pump.lease.Some?
    ensures Open(x.pump.lease.value)
  {
  }

  lemma AnswerSafe(x: Client, m: Frontend, o: Outcome, hook: Hook, supply: Option<Conn>, fault: bool,
                   defaults: map<string, string>)
    requires Fit(x, defaults) && MaySend(x.seen.phase, m) && Consider(x.pump, m, hook).Answer?
    requires LeaseInv(OnFrontend(x.pump, m, o, hook, supply, fault).pump, defaults)
    ensures Fit(OnMessage(x, m, o, hook, supply, fault), defaults)
  {
    var y := OnMessage(x, m, o, hook, supply, fault);
    PlanKeeps(x.pump, m, hook);
    assert y.pump == Consider(x.pump, m, hook).pump;
    if x.pump.lease.Some? {
      AnsweredIsOpen(x, m, hook, defaults);
      ShapeOwes(x.pump.lease.value, x.seen.phase);
      FitHolds(y, x.pump.lease.value, defaults);
    }
  }

  /** Only a Query or Sync, both of which the pump notes, adds to what a connection owes. */
  lemma WrittenOwes(c: Conn, m: Frontend, o: Outcome)
    requires OnlyPipelined(c) && !m.Query? && !m.Sync? && !m.Run?
    ensures Owed(Written(c, m, o)) == Owed(c)
  {
    FlushKeepsOwed(c);
    QuietKeepsOwed(Flushed(c), m, o);
    WrittenIs(c, m, o);
  }

  lemma LeasedSafe(p: Pump, phase: Phase, supply: Option<Conn>)
    requires !p.swallow && (p.lease.Some? || (supply.Some? && Suppliable(supply.value)))
    requires p.lease.Some? ==> SafeConn(p.lease.value, p, phase)
    ensures SafeConn(Leased(p, supply).lease.value, Leased(p, supply), phase)
  {
    if p.lease.None? {
      PreparedAtBoundary(supply.value, p);
      ShapeOwes(Prepared(supply.value, p), phase);
    }
  }

  lemma WrittenSafe(q: Pump, phase: Phase, m: Frontend, o: Outcome)
    requires q.lease.Some? && !q.swallow && SafeConn(q.lease.value, q, phase) && MaySend(phase, m)
    ensures SafeConn(Written(q.lease.value, m, o), Passed(q, m, o), AfterSending(phase, m, o))
  {
    var c := q.lease.value;
    WriteShape(c, phase, m, o);
    if !m.Query? && !m.Sync? {
      WrittenOwes(c, m, o);
    }
  }

  lemma PassSafe(x: Client, m: Frontend, o: Outcome, hook: Hook, supply: Option<Conn>, fault: bool,
                 defaults: map<string, string>)
    requires Fit(x, defaults) && MaySend(x.seen.phase, m) && Consider(x.pump, m, hook).Pass?
    requires supply.Some? ==> Suppliable(supply.value)
    requires !OnFrontend(x.pump, m, o, hook, supply, fault).ended
    requires LeaseInv(OnFrontend(x.pump, m, o, hook, supply, fault).pump, defaults)
    ensures Fit(OnMessage(x, m, o, hook, supply, fault), defaults)
  {
    var plan, phase := Consider(x.pump, m, hook), x.seen.phase;
    PlanKeeps(x.pump, m, hook);
    if !fault {
      var l := Leased(plan.pump, supply);
      LeasedSafe(plan.pump, phase, supply);
      KindKeeps(phase, m, plan.m, o);
      WrittenSafe(l, phase, plan.m, o);
      PassedBy(x, m, o, hook, supply);
      FitHolds(OnMessage(x, m, o, hook, supply, fault), Written(l.lease.value, plan.m, o), defaults);
    }
  }

  lemma PassedBy(x: Client, m: Frontend, o: Outcome, hook: Hook, supply: Option<Conn>)
    requires Consider(x.pump, m, hook).Pass? && (Consider(x.pump, m, hook).pump.lease.Some? || supply.Some?)
    ensures var plan, y := Consider(x.pump, m, hook), OnMessage(x, m, o, hook, supply, false);
            && y.pump == Passed(Leased(plan.pump, supply), plan.m, o)
            && y.seen.phase == AfterSending(x.seen.phase, m, o)
  {
  }

  lemma ScatteredIsOpen(x: Client, m: Frontend, hook: Hook, defaults: map<string, string>)
    requires Fit(x, defaults) && MaySend(x.seen.phase, m) && Consider(x.pump, m, hook).Scattered?
    ensures x.seen.phase.AtRest? && x.pump.lease.Some? && Open(x.pump.lease.value)
  {
    PlanKeeps(x.pump, m, hook);
  }

  /** The session's own connection after a scatter. */
  lemma ScatterSafe(x: Client, m: Frontend, o: Outcome, hook: Hook, supply: Option<Conn>, fault: bool,
                    defaults: map<string, string>)
    requires Fit(x, defaults) && MaySend(x.seen.phase, m) && Consider(x.pump, m, hook).Scattered?
    requires LeaseInv(OnFrontend(x.pump, m, o, hook, supply, fault).pump, defaults)
    ensures Fit(OnMessage(x, m, o, hook, supply, fault), defaults)
  {
    var plan, y := Consider(x.pump, m, hook), OnMessage(x, m, o, hook, supply, fault);
    PlanKeeps(x.pump, m, hook);
    ScatteredIsOpen(x, m, hook, defaults);
    if plan.pump.lease.Some? {
      var d := plan.pump.lease.value;
      LegResult(x.pump.lease.value, plan.leg);
      BoundaryIsOpen(d);
      ShapeOwes(d, y.seen.phase);
      FitHolds(y, d, defaults);
    }
  }

  lemma MessageFit(x: Client, m: Frontend, o: Outcome, hook: Hook, supply: Option<Conn>, fault: bool,
                   defaults: map<string, string>)
    requires Fit(x, defaults) && MaySend(x.seen.phase, m) && PlanTold(x.pump, Consider(x.pump, m, hook))
    requires supply.Some? ==> ParkedClean(supply.value, defaults)
    requires !OnFrontend(x.pump, m, o, hook, supply, fault).ended
    ensures Fit(OnMessage(x, m, o, hook, supply, fault), defaults)
  {
    if Consider(x.pump, m, hook).Scattered? {
      ScatteredIsOpen(x, m, hook, defaults);
    }
    FrontendLease(x.pump, m, o, hook, supply, fault, defaults);
    if Consider(x.pump, m, hook).Answer? {
      AnswerSafe(x, m, o, hook, supply, fault, defaults);
    } else if Consider(x.pump, m, hook).Scattered? {
      ScatterSafe(x, m, o, hook, supply, fault, defaults);
    } else {
      PassSafe(x, m, o, hook, supply, fault, defaults);
    }
  }

  /** What reading leaves of a safe connection. */
  lemma ReadSafe(c: Conn, p: Pump, phase: Phase)
    requires SafeConn(c, p, phase) && c.unread != []
    ensures var d, after := Next(c), AfterHearing(phase, c.unread[0]);
            && OnlyPipelined(d) && Shape(d, after) && (p.swallow ==> Open(d))
            && (c.unread[0].ReadyForQuery? ==> AtBoundary(d) && Owed(d) == 0)
            && (!c.unread[0].ReadyForQuery? ==> Owed(d) == Owed(c))
  {
    ReadShape(c, phase);
    ReadyCountHead(c.unread);
    if p.swallow {
      ReadOpen(c);
    }
  }

  /** A connection that is given back, or kept by a session that ends, is between cycles. */
  lemma ResponseFit(x: Client, defaults: map<string, string>)
    requires Fit(x, defaults) && x.pump.lease.Some? && x.pump.lease.value.unread != []
    ensures var turn := OnBackend(x.pump);
            && (!turn.ended ==> Fit(OnResponse(x), defaults))
            && (turn.ended ==> turn.pump.lease.Some? && AtBoundary(turn.pump.lease.value))
            && (turn.released.Some? ==> AtBoundary(turn.released.value.0) && turn.released.value.0.server.tx.Idle?)
  {
    var c, p := x.pump.lease.value, x.pump;
    ReadSafe(c, p, x.seen.phase);
    BackendLease(p, defaults);
    ResponsePhase(x);
    if c.unread[0].ReadyForQuery? {
      ReadReady(p);
    } else {
      ReadKeeps(p);
    }
    if !OnBackend(p).ended && OnBackend(p).pump.lease.Some? {
      FitHolds(OnResponse(x), Next(c), defaults);
    }
  }

  lemma ResponsePhase(x: Client)
    requires x.pump.lease.Some? && x.pump.lease.value.unread != []
    ensures OnBackend(x.pump).told == [x.pump.lease.value.unread[0]]
    ensures OnResponse(x).seen.phase == AfterHearing(x.seen.phase, x.pump.lease.value.unread[0])
    ensures OnBackend(x.pump).pump.swallow == x.pump.swallow
  {
    HearOne(x.seen.phase, x.pump.lease.value.unread[0]);
  }

  lemma CancelFit(x: Client, o: Outcome, defaults: map<string, string>)
    requires Fit(x, defaults)
    ensures Fit(OnCancel(x, o), defaults)
  {
    if x.pump.lease.Some? {
      var c := x.pump.lease.value;
      CancelLease(x.pump, x.seen.phase, o, defaults);
      CancelShape(c, x.seen.phase, o);
      CancelKeepsOwed(c, o);
      FitHolds(OnCancel(x, o), Cancel(c, o), defaults);
    }
  }

  /** Every message of a client that waits for its answers; a scatter leg on the session's connection may
      change nothing that the dirty flag does not tell of. */
  lemma MessageSafe(x: Client, m: Frontend, o: Outcome, hook: Hook, supply: Option<Conn>, fault: bool,
                    defaults: map<string, string>)
    requires SafeClient(x, defaults) && MaySend(x.seen.phase, m) && PlanTold(x.pump, Consider(x.pump, m, hook))
    requires supply.Some? ==> ParkedClean(supply.value, defaults)
    requires !OnFrontend(x.pump, m, o, hook, supply, fault).ended
    ensures SafeClient(OnMessage(x, m, o, hook, supply, fault), defaults)
  {
    MessageFit(x, m, o, hook, supply, fault, defaults);
    if Consider(x.pump, m, hook).Scattered? {
      ScatteredIsOpen(x, m, hook, defaults);
    }
    MessageMirrored(x, m, o, hook, supply, fault, defaults);
  }

  lemma ResponseSafe(x: Client, defaults: map<string, string>)
    requires SafeClient(x, defaults) && x.pump.lease.Some? && x.pump.lease.value.unread != []
    ensures var turn := OnBackend(x.pump);
            && (!turn.ended ==> SafeClient(OnResponse(x), defaults))
            && (turn.ended ==> turn.pump.lease.Some? && AtBoundary(turn.pump.lease.value))
            && (turn.released.Some? ==> AtBoundary(turn.released.value.0) && turn.released.value.0.server.tx.Idle?)
  {
    ResponseFit(x, defaults);
    ResponseMirror(x);
  }

  lemma CancelSafe(x: Client, o: Outcome, defaults: map<string, string>)
    requires SafeClient(x, defaults)
    ensures SafeClient(OnCancel(x, o), defaults)
  {
    CancelFit(x, o, defaults);
    CancelMirror(x, o);
  }

  lemma LossSafe(x: Client, defaults: map<string, string>)
    requires SafeClient(x, defaults)
    ensures SafeClient(OnLoss(x), defaults)
  {
    LossMirror(x);
  }

  // ---------------------------------------------------------------- the full invariant

  lemma MessageInv(x: Client, m: Frontend, o: Outcome, hook: Hook, supply: Option<Conn>, fault: bool,
                   defaults: map<string, string>)
    requires ClientInv(x, defaults)
    requires Orderly(x.pump, x.seen.phase, m, o, hook, supply, fault)
    requires supply.Some? ==> ParkedClean(supply.value, defaults)
    requires !OnFrontend(x.pump, m, o, hook, supply, fault).ended
    ensures ClientInv(OnMessage(x, m, o, hook, supply, fault), defaults)
  {
    MessageInCycle(x, m, o, hook, supply, fault, defaults);
    OrderlyPlan(x.pump, x.seen.phase, m, o, hook, supply, fault);
    FrontendLease(x.pump, m, o, hook, supply, fault, defaults);
    MessageMirrored(x, m, o, hook, supply, fault, defaults);
    MessageAccounted(x, m, o, hook, supply, fault);
  }

  /** In an orderly session a scatter does not touch the session's connection. */
  lemma OrderlyPlan(p: Pump, phase: Phase, m: Frontend, o: Outcome, hook: Hook, supply: Option<Conn>, fault: bool)
    requires Orderly(p, phase, m, o, hook, supply, fault)
    ensures !Consider(p, m, hook).Scattered?
  {
    PlanKeeps(p, m, hook);
  }

  lemma MessageInCycle(x: Client, m: Frontend, o: Outcome, hook: Hook, supply: Option<Conn>, fault: bool,
                       defaults: map<string, string>)
    requires CycleInv(x.pump, x.seen.phase) && Orderly(x.pump, x.seen.phase, m, o, hook, supply, fault)
    requires supply.Some? ==> ParkedClean(supply.value, defaults)
    requires !OnFrontend(x.pump, m, o, hook, supply, fault).ended
    ensures var y := OnMessage(x, m, o, hook, supply, fault); CycleInv(y.pump, y.seen.phase)
  {
    SeenPhase(x, m, o, hook, supply, fault);
    FrontendCycle(x.pump, x.seen.phase, m, o, hook, supply, fault);
  }

  lemma MessageMirrored(x: Client, m: Frontend, o: Outcome, hook: Hook, supply: Option<Conn>, fault: bool,
                        defaults: map<string, string>)
    requires Mirrored(x, defaults) && MaySend(x.seen.phase, m)
    requires Consider(x.pump, m, hook).Scattered? && x.pump.lease.Some? ==> Open(x.pump.lease.value)
    requires supply.Some? ==> ParkedClean(supply.value, defaults)
    requires !OnFrontend(x.pump, m, o, hook, supply, fault).ended
    ensures Mirrored(OnMessage(x, m, o, hook, supply, fault), defaults)
  {
    SeenPhase(x, m, o, hook, supply, fault);
    MessageMirror(x, m, o, hook, supply, fault);
  }

  lemma ResponseInv(x: Client, defaults: map<string, string>)
    requires ClientInv(x, defaults)
    requires x.pump.lease.Some? && x.pump.lease.value.unread != [] && !OnBackend(x.pump).ended
    ensures ClientInv(OnResponse(x), defaults)
  {
    BackendCycle(x.pump, x.seen.phase);
    BackendLease(x.pump, defaults);
    ResponseMirror(x);
    ResponseAccounted(x);
  }

  lemma LossInv(x: Client, defaults: map<string, string>)
    requires ClientInv(x, defaults) && x.pump.lease.Some?
    requires LossInStep(x.seen.phase, x.pump, x.pump.hygiene.awaiting)
    ensures ClientInv(OnLoss(x), defaults)
  {
    LostCycle(x.pump, x.seen.phase);
    LossMirror(x);
    LossAccounted(x);
  }

  lemma CancelInv(x: Client, o: Outcome, defaults: map<string, string>)
    requires ClientInv(x, defaults)
    ensures ClientInv(OnCancel(x, o), defaults)
  {
    CancelCycle(x.pump, x.seen.phase, o);
    CancelLease(x.pump, x.seen.phase, o, defaults);
    CancelMirror(x, o);
    AccountedFrame(x.seen, OnCancel(x, o).seen);
  }

  lemma DrainInv(x: Client, p: Pump, defaults: map<string, string>)
    requires p == x.pump.(draining := true)
    ensures ClientInv(x, defaults) ==> ClientInv(x.(pump := p), defaults)
    ensures SafeClient(x, defaults) ==> SafeClient(x.(pump := p), defaults)
  {
    if Mirrored(x, defaults) {
      MirrorFrame(x.pump, x.seen, p, x.seen);
    }
  }
}

/**
 Response cycles of one session: where the client stands against what the pump's flags say and what
 the upstream connection still has to say. `CycleInv` is kept by every event of an orderly session.
 */
module Phases {
  import opened Protocol
  import opened Connection
  import opened Session
  import opened Shapes

  /** No message of the current cycle has gone upstream; a lease held now is held by an open
      transaction. */
  predicate Untouched(p: Pump) {
    && !p.hygiene.awaiting && p.fedSinceReady == 0
    && (p.lease.Some? ==> AtBoundary(p.lease.value) && !p.lease.value.server.tx.Idle?)
  }

  predicate InFlight(p: Pump) {
    && !p.swallow && p.hygiene.awaiting && p.fedSinceReady > 0
    && p.lease.Some? && p.lease.value.fed == []
  }

  predicate CycleInv(p: Pump, phase: Phase) {
    && (p.lease.None? ==> p.status.Idle?)
    && (p.lease.Some? ==>
          p.status == p.lease.value.status && OnlyPipelined(p.lease.value) && Shape(p.lease.value, phase))
    && match phase
       case AtRest => !p.swallow && Untouched(p)
       case Waiting(_) => InFlight(p) && Busy(p.lease.value, phase)
       case CopyingIn(extended) => InFlight(p) && (extended || Busy(p.lease.value, phase))
       case _ =>
         && (p.swallow || p.lease.None? || p.fedSinceReady == 0 ==> Untouched(p))
         && (phase.Pending? && p.lease.Some? && Busy(p.lease.value, phase) ==> p.hygiene.awaiting)
  }

  // ---------------------------------------------------------------- premises

  /** An upstream loss is answered in step with the client exactly when a reported loss meets a
      client that is inside a batch if and only if the pump takes the cycle for an extended one,
      and no open transaction is lost silently. */
  predicate LossInStep(phase: Phase, p: Pump, report: bool) {
    && (report ==> (p.extended <==> InBatch(phase)))
    && (p.status.Idle? || (report && !p.extended))
  }

  /** Hooks reply and scatter on simple cycles only, and scatter only while no connection is leased. */
  predicate HookInStep(p: Pump, m: Frontend, hook: Hook) {
    m.Query? || m.Parse? ==>
      && (hook.Reply? ==> m.Query? && Plain(hook.messages))
      && (hook.Scatter? ==>
            m.Query? && p.status.Idle? && p.lease.None? && (hook.merged.Some? ==> Plain(hook.merged.value)))
  }

  /** A batch is refused, by a hook or for a duplicate statement, only before any of it has been
      sent upstream. */
  predicate RefusalInStep(p: Pump, m: Frontend, hook: Hook) {
    var plan := Consider(p, m, hook);
    plan.Answer? && plan.pump.swallow && !p.swallow ==> p.fedSinceReady == 0
  }

  predicate FaultInStep(p: Pump, phase: Phase, m: Frontend, o: Outcome, hook: Hook, supply: Option<Conn>, fault: bool) {
    var plan := Consider(p, m, hook);
    fault && plan.Pass? && (p.lease.Some? || supply.Some?) ==>
      var q := Recorded(if plan.pump.lease.Some? then plan.pump else Attached(plan.pump, supply.value), plan.m);
      LossInStep(AfterSending(phase, m, o), q, q.hygiene.awaiting || q.fedSinceReady > 0)
  }

  /** The client waits for its answers, and hooks keep to what the code supports. */
  predicate Civil(p: Pump, phase: Phase, m: Frontend, hook: Hook) {
    MaySend(phase, m) && HookInStep(p, m, hook)
  }

  predicate Orderly(p: Pump, phase: Phase, m: Frontend, o: Outcome, hook: Hook, supply: Option<Conn>, fault: bool) {
    Civil(p, phase, m, hook) && RefusalInStep(p, m, hook) && FaultInStep(p, phase, m, o, hook, supply, fault)
  }

  /** A connection as the pool hands it out. */
  predicate Suppliable(c: Conn) {
    AtBoundary(c) && c.server.tx.Idle? && c.server.stmts == map[] && c.cache == c.server.params
  }

  // ---------------------------------------------------------------- every event keeps the invariant

  /** What a plan leaves of the locals. */
  predicate Modest(p: Pump, plan: Plan) {
    match plan
    case Quit(q) => q == p.(extended := q.extended)
    case Pass(q, _) => q == p.(extended := q.extended)
    case Answer(q, _) =>
      q == p.(extended := q.extended, swallow := q.swallow, registry := q.registry, status := q.status)
    case Scattered(q, _, leg) =>
      p.status.Idle? && p.lease.Some? && q == p.(extended := q.extended, lease := LegRan(p.lease.value, leg))
  }

  lemma HookedModest(p: Pump, m: Frontend, hook: Hook)
    requires m.Query? || m.Parse?
    ensures Modest(p, Hooked(p, m, hook))
    ensures Hooked(p, m, hook).Pass? ==> hook.Forward? && Hooked(p, m, hook).m == Rewrite(m, hook.rewritten)
    ensures Hooked(p, m, hook).Scattered? ==> hook.Scatter? && m.Query?
  {
    if hook.Forward? {
      CheckedModest(p, Rewrite(m, hook.rewritten));
    }
  }

  lemma CheckedModest(p: Pump, m: Frontend)
    ensures Modest(p, Checked(p, m)) && (Checked(p, m).Pass? ==> Checked(p, m).m == m)
  {
  }

  lemma PlanKeeps(p: Pump, m: Frontend, hook: Hook)
    ensures var plan := Consider(p, m, hook);
            && Modest(p, plan)
            && (plan.Pass? ==>
                  && !p.swallow
                  && plan.m == Rewrite(m, if hook.Forward? then hook.rewritten else None) && SameKind(m, plan.m)
                  && (p.lease.None? ==> !m.Sync? && !m.Flush? && !m.Close?))
            && (plan.Scattered? ==> hook.Scatter? && m.Query? && !p.swallow)
  {
    if m.Query? || m.Parse? {
      HookedModest(p.(extended := m.Parse?), m, hook);
    }
  }

  /** Messages answered by the pump itself. */
  lemma AnswerCycle(p: Pump, phase: Phase, m: Frontend, o: Outcome, hook: Hook)
    requires CycleInv(p, phase) && Civil(p, phase, m, hook) && RefusalInStep(p, m, hook)
    requires Consider(p, m, hook).Answer?
    ensures var plan := Consider(p, m, hook);
            CycleInv(plan.pump, AfterHearingAll(AfterSending(phase, m, o), plan.told))
  {
    if p.swallow || (p.lease.None? && !(m.Query? || m.Parse?)) {
      AnswerUnhooked(p, phase, m, o, hook);
    } else if m.Query? {
      AnswerQuery(p, phase, m, o, hook);
    } else {
      AnswerParse(p, phase, m, o, hook);
    }
  }

  lemma AnswerUnhooked(p: Pump, phase: Phase, m: Frontend, o: Outcome, hook: Hook)
    requires CycleInv(p, phase) && MaySend(phase, m) && Consider(p, m, hook).Answer?
    requires p.swallow || (p.lease.None? && !(m.Query? || m.Parse?))
    ensures var plan := Consider(p, m, hook);
            CycleInv(plan.pump, AfterHearingAll(AfterSending(phase, m, o), plan.told))
  {
    if p.lease.Some? {
      BoundaryIsOpen(p.lease.value);
    }
    if m.Sync? {
      HearOne(AfterSending(phase, m, o), ReadyForQuery(if p.swallow then LeaseStatus(p) else p.status));
    } else if !p.swallow && m.Close? {
      HearOne(AfterSending(phase, m, o), CloseComplete);
    }
  }

  /** What a hook answers to a Query ahead of ReadyForQuery. */
  function HookFront(hook: Hook): seq<Backend> {
    match hook
    case Deny(code) => [ErrorResponse(code)]
    case Reply(messages) => messages
    case Scatter(merged, _) => if merged.Some? then merged.value else [ErrorResponse(NotSupported)]
    case _ => []
  }

  lemma AnswerQuery(p: Pump, phase: Phase, m: Frontend, o: Outcome, hook: Hook)
    requires CycleInv(p, phase) && Civil(p, phase, m, hook) && !p.swallow && m.Query?
    requires Consider(p, m, hook).Answer?
    ensures var plan := Consider(p, m, hook);
            CycleInv(plan.pump, AfterHearingAll(AfterSending(phase, m, o), plan.told))
  {
    QueryAnswered(p, m, hook);
    RestKept(p, HookFront(hook), if hook.Scatter? then Idle else LeaseStatus(p));
  }

  lemma QueryAnswered(p: Pump, m: Frontend, hook: Hook)
    requires m.Query? && !p.swallow && HookInStep(p, m, hook) && Consider(p, m, hook).Answer?
    ensures Plain(HookFront(hook)) && Consider(p, m, hook).pump == p.(extended := false)
    ensures Consider(p, m, hook).told ==
            HookFront(hook) + [ReadyForQuery(if hook.Scatter? then Idle else LeaseStatus(p))]
  {
  }

  lemma RestKept(p: Pump, front: seq<Backend>, s: TxStatus)
    requires CycleInv(p, AtRest) && Plain(front)
    ensures CycleInv(p.(extended := false), AfterHearingAll(Waiting(false), front + [ReadyForQuery(s)]))
  {
    HearLast(front, s);
  }

  /** Plain messages do not end the wait; ReadyForQuery does. */
  lemma HearLast(front: seq<Backend>, s: TxStatus)
    requires Plain(front)
    ensures AfterHearingAll(Waiting(false), front + [ReadyForQuery(s)]) == AtRest
  {
    PlainHeard(front);
    assert (front + [ReadyForQuery(s)])[..|front|] == front;
  }

  lemma {:induction false} PlainHeard(ms: seq<Backend>)
    requires Plain(ms)
    ensures AfterHearingAll(Waiting(false), ms) == Waiting(false)
  {
    if ms != [] {
      PlainAppend(ms[..|ms| - 1], [ms[|ms| - 1]]);
      assert ms == ms[..|ms| - 1] + [ms[|ms| - 1]];
      PlainHeard(ms[..|ms| - 1]);
    }
  }

  /** A Parse refused by its hook, or answered from the registry. */
  lemma AnswerParse(p: Pump, phase: Phase, m: Frontend, o: Outcome, hook: Hook)
    requires CycleInv(p, phase) && Civil(p, phase, m, hook) && !p.swallow && m.Parse?
    requires RefusalInStep(p, m, hook) && Consider(p, m, hook).Answer?
    ensures var plan := Consider(p, m, hook);
            CycleInv(plan.pump, AfterHearingAll(AfterSending(phase, m, o), plan.told))
  {
    ParseAnswered(p, m, hook);
    HearOne(Batch, Consider(p, m, hook).told[0]);
    if Untouched(p) && p.lease.Some? {
      BoundaryIsOpen(p.lease.value);
    }
  }

  lemma ParseAnswered(p: Pump, m: Frontend, hook: Hook)
    requires m.Parse? && !p.swallow && HookInStep(p, m, hook) && Consider(p, m, hook).Answer?
    ensures var plan := Consider(p, m, hook);
            && plan.pump == p.(extended := true, swallow := plan.pump.swallow)
            && |plan.told| == 1 && plan.told == [plan.told[0]]
            && (plan.told[0].ErrorResponse? || plan.told[0].ParseComplete?)
  {
  }

  lemma HearOne(phase: Phase, m: Backend)
    ensures AfterHearingAll(phase, [m]) == AfterHearing(phase, m)
  {
    assert [m][..0] == [];
  }

  // ---------------------------------------------------------------- forwarding

  lemma PreparedAtBoundary(c: Conn, p: Pump)
    requires Suppliable(c)
    ensures var d := Prepared(c, p);
            AtBoundary(d) && d.server.tx.Idle? && d.status.Idle? && Open(d) && OnlyPipelined(d) && d.id == c.id
  {
    BoundaryIsOpen(Prepared(c, p));
  }

  predicate CanWrite(q: Pump, phase: Phase) {
    && q.lease.Some? && !q.swallow
    && q.status == q.lease.value.status && OnlyPipelined(q.lease.value) && Shape(q.lease.value, phase)
    && (phase.AtRest? ==> AtBoundary(q.lease.value))
    && (phase.CopyingIn? ==> InFlight(q) && (phase.extended || Busy(q.lease.value, phase)))
  }

  lemma LeasedCanWrite(p: Pump, phase: Phase, supply: Option<Conn>)
    requires CycleInv(p, phase) && !p.swallow
    requires p.lease.Some? || (supply.Some? && Suppliable(supply.value))
    ensures CanWrite(Leased(p, supply), phase)
    ensures p.hygiene == Leased(p, supply).hygiene && p.fedSinceReady == Leased(p, supply).fedSinceReady
  {
    if p.lease.None? {
      PreparedAtBoundary(supply.value, p);
    }
  }

  /** Messages written upstream. */
  lemma WriteCycle(q: Pump, phase: Phase, m: Frontend, o: Outcome)
    requires CanWrite(q, phase) && MaySend(phase, m)
    ensures CycleInv(Passed(q, m, o), AfterSending(phase, m, o))
  {
    var c := q.lease.value;
    WriteShape(c, phase, m, o);
    WrittenIs(c, m, o);
    if phase.AtRest? {
      FlushedNothing(c);
    }
  }

  lemma LossHeard(phase: Phase, extended: bool, report: bool)
    ensures AfterHearingAll(phase, LossNotice(extended, report)) ==
            if !report then phase
            else
              var heard := AfterHearing(phase, ErrorResponse(ConnectionFailure));
              if extended then heard else AfterHearing(heard, ReadyForQuery(Idle))
  {
    HearOne(phase, ErrorResponse(ConnectionFailure));
    if report && !extended {
      assert LossNotice(extended, report)[..1] == [ErrorResponse(ConnectionFailure)];
    }
  }

  lemma LoseCycle(q: Pump, phase: Phase, report: bool)
    requires !q.swallow && (report ==> phase != AtRest) && (!report ==> InBatch(phase) && !phase.CopyingIn?)
    requires LossInStep(phase, q, report)
    ensures var turn := Lose(q, report); CycleInv(turn.pump, AfterHearingAll(phase, turn.told))
  {
    LossHeard(phase, q.extended, report);
  }

  lemma FaultCycle(l: Pump, phase: Phase, m: Frontend, m': Frontend, o: Outcome)
    requires !l.swallow && MaySend(phase, m)
    requires phase.CopyingIn? ==> l.hygiene.awaiting
    requires m.Query? <==> m'.Query?
    requires m.Sync? <==> m'.Sync?
    requires m.Flush? <==> m'.Flush?
    requires var q := Recorded(l, m');
             LossInStep(AfterSending(phase, m, o), q, q.hygiene.awaiting || q.fedSinceReady > 0)
    ensures var q := Recorded(l, m');
            var turn := Lose(q, q.hygiene.awaiting || q.fedSinceReady > 0);
            CycleInv(turn.pump, AfterHearingAll(AfterSending(phase, m, o), turn.told))
  {
    var q := Recorded(l, m');
    LoseCycle(q, AfterSending(phase, m, o), q.hygiene.awaiting || q.fedSinceReady > 0);
  }

  /** A hook may rewrite the SQL of a message, not its kind. */
  predicate SameKind(m: Frontend, m': Frontend) {
    && (m.Query? <==> m'.Query?) && (m.Parse? <==> m'.Parse?)
    && (!m.Query? && !m.Parse? ==> m' == m)
  }

  lemma KindKeeps(phase: Phase, m: Frontend, m': Frontend, o: Outcome)
    requires SameKind(m, m') && MaySend(phase, m)
    ensures MaySend(phase, m') && AfterSending(phase, m', o) == AfterSending(phase, m, o)
  {
  }

  lemma PassCycle(p: Pump, phase: Phase, m: Frontend, m': Frontend, o: Outcome, supply: Option<Conn>, fault: bool)
    requires CycleInv(p, phase) && !p.swallow && MaySend(phase, m)
    requires p.lease.Some? || (supply.Some? && Suppliable(supply.value))
    requires SameKind(m, m')
    requires fault ==>
               var q := Recorded(Leased(p, supply), m');
               LossInStep(AfterSending(phase, m, o), q, q.hygiene.awaiting || q.fedSinceReady > 0)
    ensures var turn := Forwarded(p, m', o, supply, fault);
            !turn.ended && CycleInv(turn.pump, AfterHearingAll(AfterSending(phase, m, o), turn.told))
  {
    LeasedCanWrite(p, phase, supply);
    KindKeeps(phase, m, m', o);
    var l := Leased(p, supply);
    if fault {
      var q := Recorded(l, m');
      FaultCycle(l, phase, m, m', o);
      assert Forwarded(p, m', o, supply, fault) == Lose(q, q.hygiene.awaiting || q.fedSinceReady > 0);
    } else {
      WriteCycle(l, phase, m', o);
      assert Forwarded(p, m', o, supply, fault) == Carry(Passed(l, m', o), []).(forwarded := Some(m'));
    }
  }

  /** A client message keeps the invariant. */
  lemma FrontendCycle(p: Pump, phase: Phase, m: Frontend, o: Outcome, hook: Hook, supply: Option<Conn>, fault: bool)
    requires CycleInv(p, phase) && Orderly(p, phase, m, o, hook, supply, fault)
    requires supply.Some? ==> Suppliable(supply.value)
    ensures var turn := OnFrontend(p, m, o, hook, supply, fault);
            !turn.ended ==> CycleInv(turn.pump, AfterHearingAll(AfterSending(phase, m, o), turn.told))
  {
    PlanKeeps(p, m, hook);
    match Consider(p, m, hook)
    case Answer(_, _) => AnswerCycle(p, phase, m, o, hook);
    case Quit(_) =>
    case Pass(q, m') =>
      if q.lease.Some? || supply.Some? {
        assert CycleInv(q, phase);
        PassCycle(q, phase, m, m', o, supply, fault);
      }
  }

  // ---------------------------------------------------------------- reading

  /** What reading any message other than ReadyForQuery does to the locals. */
  lemma ReadKeeps(p: Pump)
    requires p.lease.Some? && p.lease.value.unread != [] && !p.lease.value.unread[0].ReadyForQuery?
    ensures var turn := OnBackend(p);
            && turn.pump.lease == Some(Next(p.lease.value))
            && turn.pump.swallow == p.swallow && turn.pump.fedSinceReady == p.fedSinceReady
            && turn.pump.hygiene.awaiting == p.hygiene.awaiting && turn.pump.status == p.status
            && turn.told == [p.lease.value.unread[0]] && !turn.ended && turn.released.None?
  {
  }

  lemma BatchGoesOn(q: Pump, d: Conn, phase: Phase)
    requires q.lease == Some(d) && OnlyPipelined(d) && q.status == d.status && Shape(d, phase)
    requires InBatch(phase) && !phase.CopyingIn? && !q.swallow && q.fedSinceReady > 0
    requires phase.Pending? && Busy(d, phase) ==> q.hygiene.awaiting
    ensures CycleInv(q, phase)
  {
  }

  lemma CycleGoesOn(q: Pump, d: Conn, phase: Phase)
    requires q.lease == Some(d) && d.fed == [] && q.status == d.status && Shape(d, phase)
    requires !q.swallow && q.fedSinceReady > 0 && q.hygiene.awaiting
    requires phase.Waiting? || phase.CopyingIn?
    requires phase == CopyingIn(true) || Busy(d, phase)
    ensures CycleInv(q, phase)
  {
  }

  lemma CycleEnds(q: Pump)
    requires !q.swallow && Untouched(q)
    requires q.status == if q.lease.Some? then q.lease.value.status else Idle
    ensures CycleInv(q, AtRest)
  {
    if q.lease.Some? {
      BoundaryIsOpen(q.lease.value);
    }
  }

  predicate CleanTurn(turn: Turn, phase: Phase) {
    && (!turn.ended ==> CycleInv(turn.pump, phase))
    && (turn.ended ==> turn.pump.lease.Some? && AtBoundary(turn.pump.lease.value))
    && (turn.released.Some? ==> AtBoundary(turn.released.value.0) && turn.released.value.0.server.tx.Idle?)
  }

  lemma ReadLast(p: Pump, phase: Phase)
    requires CycleInv(p, phase) && p.lease.Some?
    requires p.lease.value.unread != [] && p.lease.value.unread[0].ReadyForQuery?
    ensures phase.Waiting? || phase == CopyingIn(false)
    ensures CleanTurn(OnBackend(p), AtRest) && OnBackend(p).told == [p.lease.value.unread[0]]
  {
    ReadShape(p.lease.value, phase);
    if !OnBackend(p).ended {
      CycleEnds(OnBackend(p).pump);
    }
  }

  lemma ReadOn(p: Pump, phase: Phase)
    requires CycleInv(p, phase) && p.lease.Some?
    requires p.lease.value.unread != [] && !p.lease.value.unread[0].ReadyForQuery?
    ensures CycleInv(OnBackend(p).pump, AfterHearing(phase, p.lease.value.unread[0]))
    ensures phase != AtRest && !p.swallow
  {
    var c := p.lease.value;
    var after := AfterHearing(phase, c.unread[0]);
    ReadShape(c, phase);
    ReadKeeps(p);
    if after.Waiting? || after.CopyingIn? {
      PendingFlies(p, phase);
      CycleGoesOn(OnBackend(p).pump, Next(c), after);
    } else {
      if Open(c) {
        ReadOpen(c);
        OpenNotPending(Next(c));
      }
      BatchGoesOn(OnBackend(p).pump, Next(c), after);
    }
  }

  /** A client that hears of its COPY has something in flight. */
  lemma PendingFlies(p: Pump, phase: Phase)
    requires CycleInv(p, phase) && p.lease.Some? && p.lease.value.unread != []
    requires phase.Waiting? || phase.CopyingIn? || (phase.Pending? && p.lease.value.unread[0].CopyInResponse?)
    ensures InFlight(p)
  {
    ReadShape(p.lease.value, phase);
  }

  /** Reading one upstream message keeps the invariant. A ReadyForQuery only ever reaches a client
      that waits for one, and a connection given back by a detach is between cycles and idle. */
  lemma BackendCycle(p: Pump, phase: Phase)
    requires CycleInv(p, phase) && p.lease.Some? && p.lease.value.unread != []
    ensures CleanTurn(OnBackend(p), AfterHearingAll(phase, OnBackend(p).told))
    ensures phase != AtRest && !p.swallow
    ensures p.lease.value.unread[0].ReadyForQuery? ==> phase.Waiting? || phase == CopyingIn(false)
    ensures p.lease.value.unread[0].CopyInResponse? ==> phase.Waiting? || phase.Pending?
  {
    var m := p.lease.value.unread[0];
    HearOne(phase, m);
    if m.ReadyForQuery? {
      ReadLast(p, phase);
    } else {
      ReadKeeps(p);
      ReadOn(p, phase);
      ReadShape(p.lease.value, phase);
    }
  }

  // ---------------------------------------------------------------- other events

  lemma LostCycle(p: Pump, phase: Phase)
    requires CycleInv(p, phase) && p.lease.Some?
    requires LossInStep(phase, p, p.hygiene.awaiting)
    ensures var turn := OnUpstreamLost(p); CycleInv(turn.pump, AfterHearingAll(phase, turn.told))
  {
    LoseCycle(p, phase, p.hygiene.awaiting);
  }

  /** A cancel request keeps the invariant, whatever it stops. */
  lemma CancelCycle(p: Pump, phase: Phase, o: Outcome)
    requires CycleInv(p, phase)
    ensures CycleInv(OnCancelRequest(p, o), phase)
  {
    if p.lease.Some? {
      CancelShape(p.lease.value, phase, o);
    }
  }

  /** Whenever a session ends, sanitizing its lease starts with no more owed than the pump knows. */
  lemma OwedIsKnown(p: Pump, phase: Phase)
    requires CycleInv(p, phase) && p.lease.Some?
    ensures Owed(p.lease.value) <= Allowed(p.hygiene)
    ensures Owed(p.lease.value) >= 1 ==> p.hygiene.awaiting
  {
    ShapeOwes(p.lease.value, phase);
  }
}

/**
 ReadyForQuery accounting, as a property of a session's trace.
 */
module Accounting {
  import opened Protocol
  import opened Connection
  import opened Session
  import opened Shapes
  import opened Phases

  function Completed(t: Trace): int {
    if t.phase.AtRest? then t.cycle else t.cycle - 1
  }

  /** Cycle `k` has been answered by a ReadyForQuery. */
  predicate Answered(told: seq<Told>, k: nat) {
    exists i :: 0 <= i < |told| && told[i].cycle == k && told[i].m.ReadyForQuery?
  }

  /** Cycle numbers never go back, a ReadyForQuery is the last message of its cycle, and it belongs
      to a completed one. */
  predicate InOrder(told: seq<Told>, cycle: nat, completed: int) {
    && (forall i :: 0 <= i < |told| ==> 1 <= told[i].cycle <= cycle)
    && (forall i :: 0 <= i < |told| && told[i].m.ReadyForQuery? ==> told[i].cycle <= completed)
    && (forall i, j :: 0 <= i < j < |told| ==>
          told[i].cycle <= told[j].cycle && (told[i].m.ReadyForQuery? ==> told[i].cycle < told[j].cycle))
  }

  predicate AllAnswered(told: seq<Told>, completed: int) {
    forall k: nat :: 1 <= k <= completed ==> Answered(told, k)
  }

  /** Every completed cycle is answered by a ReadyForQuery, nothing of the same cycle follows it
      (so there is exactly one, and it is the last response), and the current cycle has none. */
  predicate Accounted(t: Trace) {
    && (t.phase != AtRest ==> t.cycle >= 1)
    && InOrder(t.told, t.cycle, Completed(t))
    && AllAnswered(t.told, Completed(t))
  }

  /** ReadyForQuery can only be the last message, and only for a client that is due one. */
  predicate Due(phase: Phase, ms: seq<Backend>) {
    && (forall i :: 0 <= i < |ms| - 1 ==> !ms[i].ReadyForQuery?)
    && (ms != [] && ms[|ms| - 1].ReadyForQuery? ==> !InBatch(AfterHearingAll(phase, ms[..|ms| - 1])))
  }

  lemma {:induction false} StillTalking(phase: Phase, ms: seq<Backend>)
    requires phase != AtRest && Due(phase, ms)
    ensures AfterHearingAll(phase, ms) == AtRest <==> ms != [] && ms[|ms| - 1].ReadyForQuery?
  {
    if ms != [] {
      StillTalking(phase, ms[..|ms| - 1]);
    }
  }

  lemma SendAccounted(t: Trace, m: Frontend, o: Outcome)
    requires Accounted(t) && MaySend(t.phase, m)
    ensures Accounted(Send1(t, m, o)) && Send1(t, m, o).phase != AtRest
  {
  }

  lemma AnsweredLater(told: seq<Told>, more: seq<Told>, k: nat)
    requires Answered(told, k)
    ensures Answered(told + more, k)
  {
    var i :| 0 <= i < |told| && told[i].cycle == k && told[i].m.ReadyForQuery?;
    assert (told + more)[i] == told[i];
  }

  lemma HearInOrder(told: seq<Told>, cycle: nat, ms: seq<Backend>, done: bool)
    requires InOrder(told, cycle, cycle - 1) && cycle >= 1
    requires forall i :: 0 <= i < |ms| - 1 ==> !ms[i].ReadyForQuery?
    requires done == (ms != [] && ms[|ms| - 1].ReadyForQuery?)
    ensures InOrder(told + Tagged(cycle, ms), cycle, if done then cycle else cycle - 1)
  {
    var all, n := told + Tagged(cycle, ms), |told|;
    assert forall i :: 0 <= i < n ==> all[i] == told[i];
    assert forall i :: n <= i < |all| ==> all[i] == Told(cycle, ms[i - n]);
  }

  lemma HearAnswered(told: seq<Told>, cycle: nat, ms: seq<Backend>, done: bool)
    requires AllAnswered(told, cycle - 1) && cycle >= 1
    requires done == (ms != [] && ms[|ms| - 1].ReadyForQuery?)
    ensures AllAnswered(told + Tagged(cycle, ms), if done then cycle else cycle - 1)
  {
    var all := told + Tagged(cycle, ms);
    forall k: nat | 1 <= k <= (if done then cycle else cycle - 1) ensures Answered(all, k) {
      if k < cycle {
        AnsweredLater(told, Tagged(cycle, ms), k);
      } else {
        assert all[|all| - 1] == Told(k, ms[|ms| - 1]);
      }
    }
  }

  lemma HearAccounted(t: Trace, ms: seq<Backend>)
    requires Accounted(t) && t.phase != AtRest && Due(t.phase, ms)
    ensures Accounted(Hear(t, ms))
  {
    var done := ms != [] && ms[|ms| - 1].ReadyForQuery?;
    StillTalking(t.phase, ms);
    HearInOrder(t.told, t.cycle, ms, done);
    HearAnswered(t.told, t.cycle, ms, done);
  }

  lemma AccountedFrame(t: Trace, u: Trace)
    requires Accounted(t) && u.phase == t.phase && u.cycle == t.cycle && u.told == t.told
    ensures Accounted(u)
  {
  }

  lemma SeenTold(x: Client, m: Frontend, o: Outcome, hook: Hook, supply: Option<Conn>, fault: bool)
    ensures var t, u := Hear(Send1(x.seen, m, o), OnFrontend(x.pump, m, o, hook, supply, fault).told),
                        SeenMessage(x, m, o, hook, supply, fault);
            u.phase == t.phase && u.cycle == t.cycle && u.told == t.told
  {
  }

  /** A client message is answered in step whichever way the pump deals with it. */
  lemma ToldInStep(p: Pump, phase: Phase, m: Frontend, o: Outcome, hook: Hook, supply: Option<Conn>, fault: bool)
    requires Orderly(p, phase, m, o, hook, supply, fault)
    ensures Due(AfterSending(phase, m, o), OnFrontend(p, m, o, hook, supply, fault).told)
  {
    PlanKeeps(p, m, hook);
    match Consider(p, m, hook)
    case Answer(_, told) => AnswerDue(p, phase, m, o, hook);
    case Quit(_) =>
    case Pass(q, m') =>
      if (q.lease.Some? || supply.Some?) && fault {
        var r := Recorded(Leased(q, supply), m');
        LossDue(AfterSending(phase, m, o), r, r.hygiene.awaiting || r.fedSinceReady > 0);
      }
  }

  lemma AnswerDue(p: Pump, phase: Phase, m: Frontend, o: Outcome, hook: Hook)
    requires Civil(p, phase, m, hook) && Consider(p, m, hook).Answer?
    ensures Due(AfterSending(phase, m, o), Consider(p, m, hook).told)
  {
    if m.Query? && !p.swallow {
      QueryAnswered(p, m, hook);
      FrontDue(HookFront(hook), if hook.Scatter? then Idle else LeaseStatus(p));
    } else if m.Parse? && !p.swallow {
      ParseAnswered(p, m, hook);
    } else {
      UnhookedDue(p, phase, m, o, hook);
    }
  }

  lemma FrontDue(front: seq<Backend>, s: TxStatus)
    requires Plain(front)
    ensures Due(Waiting(false), front + [ReadyForQuery(s)])
  {
    PlainHeard(front);
    assert (front + [ReadyForQuery(s)])[..|front|] == front;
  }

  lemma UnhookedDue(p: Pump, phase: Phase, m: Frontend, o: Outcome, hook: Hook)
    requires MaySend(phase, m) && Consider(p, m, hook).Answer? && (p.swallow || !(m.Query? || m.Parse?))
    ensures Due(AfterSending(phase, m, o), Consider(p, m, hook).told)
  {
  }

  lemma LossDue(phase: Phase, q: Pump, report: bool)
    requires LossInStep(phase, q, report)
    ensures Due(phase, Lose(q, report).told)
  {
    var told := Lose(q, report).told;
    if report && !q.extended {
      assert told[..1] == [ErrorResponse(ConnectionFailure)];
      HearOne(phase, ErrorResponse(ConnectionFailure));
    }
  }

  lemma MessageAccounted(x: Client, m: Frontend, o: Outcome, hook: Hook, supply: Option<Conn>, fault: bool)
    requires Accounted(x.seen) && Orderly(x.pump, x.seen.phase, m, o, hook, supply, fault)
    ensures Accounted(SeenMessage(x, m, o, hook, supply, fault))
  {
    var told := OnFrontend(x.pump, m, o, hook, supply, fault).told;
    ToldInStep(x.pump, x.seen.phase, m, o, hook, supply, fault);
    SendAccounted(x.seen, m, o);
    HearAccounted(Send1(x.seen, m, o), told);
    SeenTold(x, m, o, hook, supply, fault);
    AccountedFrame(Hear(Send1(x.seen, m, o), told), SeenMessage(x, m, o, hook, supply, fault));
  }

  lemma ResponseDue(p: Pump, phase: Phase)
    requires CycleInv(p, phase) && p.lease.Some? && p.lease.value.unread != []
    ensures phase != AtRest && Due(phase, OnBackend(p).told)
  {
    BackendCycle(p, phase);
    if !p.lease.value.unread[0].ReadyForQuery? {
      ReadKeeps(p);
    }
  }

  lemma ResponseAccounted(x: Client)
    requires Accounted(x.seen) && CycleInv(x.pump, x.seen.phase)
    requires x.pump.lease.Some? && x.pump.lease.value.unread != []
    ensures Accounted(OnResponse(x).seen)
  {
    var told := OnBackend(x.pump).told;
    ResponseDue(x.pump, x.seen.phase);
    HearAccounted(x.seen, told);
    AccountedFrame(Hear(x.seen, told), OnResponse(x).seen);
  }

  /** Losing the upstream under a simple query in flight is answered by one error and one
      ReadyForQuery(Idle). */
  lemma LossAccounted(x: Client)
    requires Accounted(x.seen) && x.seen.phase != AtRest
    requires LossInStep(x.seen.phase, x.pump, x.pump.hygiene.awaiting)
    ensures Accounted(OnLoss(x).seen)
    ensures x.pump.hygiene.awaiting && !x.pump.extended ==>
              && OnUpstreamLost(x.pump).told == [ErrorResponse(ConnectionFailure), ReadyForQuery(Idle)]
              && OnLoss(x).seen.phase.AtRest?
              && OnLoss(x).pump.status.Idle?
  {
    var told := OnUpstreamLost(x.pump).told;
    LossDue(x.seen.phase, x.pump, x.pump.hygiene.awaiting);
    StillTalking(x.seen.phase, told);
    HearAccounted(x.seen, told);
    AccountedFrame(Hear(x.seen, told), OnLoss(x).seen);
  }
}

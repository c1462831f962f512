/**
 What sessions and pool guarantee in every run, with nothing left for the reader to unfold.
 */
module Theorems {
  import opened Protocol
  import opened Connection
  import opened Session
  import opened Shapes
  import opened Phases
  import opened Leases
  import opened Mirror
  import opened Accounting
  import opened Clients
  import opened World
  import opened Custody
  import opened Runs
  import opened Wires

  // ---------------------------------------------------------------- the pool

  /** In every state of every fair run, each idle connection has no named statement, no open transaction,
      no response unread or owed, nothing buffered, and reports baseline parameters. */
  lemma IdleConnectionsAreClean(ws: seq<World>, es: seq<Event>, defaults: map<string, string>, k: nat, i: nat)
    requires IsFairRun(ws, es) && ws[0] == Empty(defaults) && k < |ws| && i < |ws[k].idle|
    ensures var c := ws[k].idle[i];
            && c.server.stmts == map[] && c.server.tx.Idle? && c.status.Idle?
            && c.unread == [] && c.fed == [] && Owed(c) == 0
            && forall n: string :: n !in TRACKED ==> Lookup(c.server.params, n) == Lookup(defaults, n)
  {
    RunSafe(ws, es, defaults, k);
    RunDefaults(ws, es, k);
  }

  /** In every state of every run, whatever clients do, a connection a session holds is held by no other
      session, lent to no scatter leg and not parked. */
  lemma HeldByOneSession(ws: seq<World>, es: seq<Event>, defaults: map<string, string>, k: nat, sid: nat)
    requires IsRun(ws, es) && ws[0] == Empty(defaults) && k < |ws|
    requires sid in ws[k].clients && ws[k].clients[sid].pump.lease.Some?
    ensures var w, id := ws[k], ws[k].clients[sid].pump.lease.value.id;
            && (forall s <- w.clients :: s != sid && w.clients[s].pump.lease.Some? ==>
                  w.clients[s].pump.lease.value.id != id)
            && (forall l <- w.legs :: w.legs[l].conn.id != id)
            && (forall i :: 0 <= i < |w.idle| ==> w.idle[i].id != id)
  {
    var w := ws[k];
    RunPlace(ws, es, defaults, k);
    var idle, held, lent := Ids(w.idle), Held(w.clients), Lent(w.legs);
    forall s | s in w.clients && s != sid && w.clients[s].pump.lease.Some? ensures held[s] != held[sid] {
    }
    forall l | l in w.legs ensures lent[l] != held[sid] {
    }
    forall i | 0 <= i < |w.idle| ensures w.idle[i].id != held[sid] {
      assert held[sid] !in idle && idle[i] == w.idle[i].id;
    }
  }

  // ---------------------------------------------------------------- at most once

  /** In every run, whatever clients do, losses, failed writes and failed clean-ups included, each client message
      is written once at most, to one connection, in the order the messages were sent. What else the proxy writes is the
      replay of statements that the same session had parsed before, the query of a scatter leg, or a
      command, Sync or CopyFail of its own. A client's Query, Bind, Execute or COPY data is never written
      again, and no session's statements are replayed for another. */
  lemma NeverResent(ws: seq<World>, es: seq<Event>, defaults: map<string, string>, k: nat)
    requires IsRun(ws, es) && ws[0] == Empty(defaults) && k < |ws|
    ensures var log := ws[k].log;
            && (forall i, j :: 0 <= i < j < |log| && log[i].entry.FromClient? && log[j].entry.FromClient? ==>
                  log[i].entry.serial < log[j].entry.serial)
            && (forall i :: 0 <= i < |log| ==>
                  match log[i].entry
                  case FromClient(_, _) => log[i].session.Some?
                  case Replay(_, stmts) =>
                    forall n <- stmts ::
                      log[i].session.Some? && Parsed(log[..i], log[i].session.value, n, stmts[n])
                  case LegQuery(_) => true
                  case Own(m) => m.Run? || m.Sync? || m.CopyFail?)
  {
    RunLog(ws, es, defaults, k);
    var log := ws[k].log;
    assert forall i :: 0 <= i < |log| ==> Follows(log[..i], log[i]);
  }

  /** The log is what the connections received, each of them exactly its own lines. */
  lemma LogIsOnTheWires(ws: seq<World>, es: seq<Event>, defaults: map<string, string>, k: nat)
    requires IsRun(ws, es) && ws[0] == Empty(defaults) && k < |ws|
    ensures var w := ws[k];
            && (forall i :: 0 <= i < |w.idle| ==> w.idle[i].wire == OnWire(w.log, w.idle[i].id))
            && (forall l <- w.legs :: w.legs[l].conn.wire == OnWire(w.log, w.legs[l].conn.id))
            && (forall s <- w.clients :: w.clients[s].pump.lease.Some? ==>
                  w.clients[s].pump.lease.value.wire == OnWire(w.log, w.clients[s].pump.lease.value.id))
  {
    RunLog(ws, es, defaults, k);
    assert forall i :: 0 <= i < |ws[k].idle| ==> OnFile(ws[k].log, ws[k].idle[i]);
    assert forall s <- ws[k].clients :: LeaseOnFile(ws[k].log, ws[k].clients[s].pump);
    assert forall l <- ws[k].legs :: OnFile(ws[k].log, ws[k].legs[l].conn);
  }

  /** Nothing is attributed to a session that its client did not send: a client message in the log is the
      message of an event of that session, as the hook of the event let it pass, under the event's number. */
  lemma WrittenWasSent(ws: seq<World>, es: seq<Event>, defaults: map<string, string>, k: nat, i: nat)
    requires IsRun(ws, es) && ws[0] == Empty(defaults) && k < |ws|
    requires i < |ws[k].log| && ws[k].log[i].entry.FromClient?
    ensures exists j :: 0 <= j < k && Forwards(ws[j], es[j], ws[k].log[i])
  {
    var j := LineWasSent(ws, es, defaults, k, i);
  }

  // ---------------------------------------------------------------- transparency

  /** The registry lists exactly the named statements of the dedicated connection. */
  predicate Listed(x: Client) {
    x.pump.registry == Dedicated(x.seen.origin, x.seen.history).server.stmts
  }

  /** Transaction-mode transparency. In every state of every fair run, a session whose registry was not
      upset and whose connection no scatter leg disturbed has been relayed a prefix of what a dedicated
      connection would have answered, and its leased connection is in the dedicated connection's state. */
  lemma SharedLooksDedicated(ws: seq<World>, es: seq<Event>, defaults: map<string, string>, k: nat, sid: nat)
    requires IsFairRun(ws, es) && ws[0] == Empty(defaults) && k < |ws|
    requires sid in ws[k].clients && ws[k].clients[sid].seen.intact && ws[k].clients[sid].seen.solo
    ensures var x := ws[k].clients[sid];
            var d := Dedicated(x.seen.origin, x.seen.history);
            && Listed(x)
            && x.seen.relayed <= d.replies
            && (x.pump.lease.None? ==> x.seen.relayed == d.replies)
            && (x.pump.lease.Some? ==>
                  var f := Flushed(x.pump.lease.value);
                  && f.server.stmts == d.server.stmts && f.server.tx == d.server.tx && f.server.mode == d.server.mode
                  && x.seen.relayed + f.unread == d.replies
                  && forall n: string :: Compared(n, x.pump.startup, Reported(x.seen.carried, d.replies)) ==>
                       Lookup(f.server.params, n) == Lookup(d.server.params, n))
  {
    RunSafe(ws, es, defaults, k);
    assert Mirrored(ws[k].clients[sid], ws[k].defaults);
  }

  /** The same at the moment a message is forwarded: the connection it is written to, attached only now
      if need be, is where the dedicated connection is. */
  lemma ForwardedRunsAsDedicated(ws: seq<World>, es: seq<Event>, defaults: map<string, string>, k: nat)
    requires IsFairRun(ws, es) && ws[0] == Empty(defaults) && k < |es|
    requires es[k].Speak? && ws[k].clients[es[k].sid].seen.intact && ws[k].clients[es[k].sid].seen.solo
    requires Consider(ws[k].clients[es[k].sid].pump, es[k].m, es[k].hook).Pass?
    requires ws[k].clients[es[k].sid].pump.lease.Some? || SupplyFor(ws[k], es[k]).Some?
    ensures var x, e := ws[k].clients[es[k].sid], es[k];
            var q := Consider(x.pump, e.m, e.hook).pump;
            && (q.lease.Some? || SupplyFor(ws[k], e).Some?)
            && var f, d := Flushed(Leased(q, SupplyFor(ws[k], e)).lease.value),
                           Dedicated(x.seen.origin, x.seen.history);
               && f.server.stmts == d.server.stmts && f.server.tx == d.server.tx && f.server.mode == d.server.mode
               && x.seen.relayed + f.unread == d.replies
               && forall n: string :: Compared(n, q.startup, Reported(x.seen.carried, d.replies)) ==>
                    Lookup(f.server.params, n) == Lookup(d.server.params, n)
  {
    RunSafe(ws, es, defaults, k);
    ForwardedMirrors(ws[k], es[k]);
  }

  lemma ForwardedMirrors(w: World, e: Event)
    requires SafeInv(w) && Enabled(w, e) && e.Speak?
    requires w.clients[e.sid].seen.intact && w.clients[e.sid].seen.solo
    requires Consider(w.clients[e.sid].pump, e.m, e.hook).Pass?
    requires w.clients[e.sid].pump.lease.Some? || SupplyFor(w, e).Some?
    ensures var x := w.clients[e.sid];
            var q := Consider(x.pump, e.m, e.hook).pump;
            && (q.lease.Some? || SupplyFor(w, e).Some?)
            && var p := Leased(q, SupplyFor(w, e));
               && p.startup == q.startup
               && Attuned(p.lease.value, Dedicated(x.seen.origin, x.seen.history), p, x.seen)
  {
    var x := w.clients[e.sid];
    if SupplyFor(w, e).Some? {
      SuppliedClean(w, e);
    }
    PlanKeeps(x.pump, e.m, e.hook);
    assert Mirrored(x, w.defaults);
    PlanMirrors(x.pump, x.seen, e.m, e.hook, SupplyFor(w, e));
  }

  /** An event by which session `sid` upsets its registry. */
  predicate UpsetBy(w: World, e: Event, sid: nat)
    requires sid in w.clients && Enabled(w, e)
  {
    && e.Speak? && e.sid == sid
    && var x := w.clients[sid];
       match Consider(x.pump, e.m, e.hook)
       case Quit(_) => false
       case Answer(_, _) => ClosesLocally(x.pump, e.m) && e.m.target.OfPortal? && e.m.name in x.pump.registry
       case Pass(q, m') =>
         !e.fault && Upsets(Dedicated(x.seen.origin, x.seen.history).server, q.registry, m', e.o)
       case Scattered(_, _, _) => false
  }

  lemma SpeakIntact(x: Client, m: Frontend, o: Outcome, hook: Hook, supply: Option<Conn>, fault: bool)
    requires !OnFrontend(x.pump, m, o, hook, supply, fault).ended && x.seen.intact
    ensures SeenMessage(x, m, o, hook, supply, fault).intact <==>
            match Consider(x.pump, m, hook)
            case Quit(_) => true
            case Answer(_, _) => !(ClosesLocally(x.pump, m) && m.target.OfPortal? && m.name in x.pump.registry)
            case Pass(q, m') =>
              fault || !Upsets(Dedicated(x.seen.origin, x.seen.history).server, q.registry, m', o)
            case Scattered(_, _, _) => true
  {
  }

  /** Upsetting traffic is visible at once: the registry differs. */
  lemma UpsetShows(x: Client, m: Frontend, o: Outcome, hook: Hook, supply: Option<Conn>)
    requires MirrorInv(x.pump, x.seen) && x.seen.intact && !m.Run?
    requires !OnFrontend(x.pump, m, o, hook, supply, false).ended
    requires !SeenMessage(x, m, o, hook, supply, false).intact
    ensures !Listed(OnMessage(x, m, o, hook, supply, false))
  {
    var t := x.seen;
    var ideal := Dedicated(t.origin, t.history).server;
    var y := OnMessage(x, m, o, hook, supply, false);
    SpeakIntact(x, m, o, hook, supply, false);
    PlanKeeps(x.pump, m, hook);
    match Consider(x.pump, m, hook)
    case Answer(q, _) =>
      AnswerSeen(x, m, o, hook, supply, false);
      assert m.name in ideal.stmts && m.name !in y.pump.registry;
    case Pass(q, m') => PassUpsetShows(x, m, o, hook, supply);
  }

  lemma PassUpsetShows(x: Client, m: Frontend, o: Outcome, hook: Hook, supply: Option<Conn>)
    requires MirrorInv(x.pump, x.seen) && x.seen.intact && !m.Run?
    requires Consider(x.pump, m, hook).Pass? && (Consider(x.pump, m, hook).pump.lease.Some? || supply.Some?)
    requires var plan := Consider(x.pump, m, hook);
             Upsets(Dedicated(x.seen.origin, x.seen.history).server, plan.pump.registry, plan.m, o)
    ensures !Listed(OnMessage(x, m, o, hook, supply, false))
  {
    var t, plan := x.seen, Consider(x.pump, m, hook);
    PlanKeeps(x.pump, m, hook);
    PlanIsClientMessage(x.pump, m, hook);
    PassFields(plan.pump, plan.m, o, supply);
    PassSeen(x, m, o, hook, supply);
    DedicatedStep(t.origin, t.history, Ran(plan.m, o));
    UpsetsExactly(Dedicated(t.origin, t.history).server, plan.m, o);
  }

  /** A step of `sid` keeps its mark exactly when it does not upset the registry. */
  lemma StepIntact(w: World, e: Event, sid: nat)
    requires Enabled(w, e) && sid in w.clients && sid in Step(w, e).clients && w.clients[sid].seen.intact
    ensures Step(w, e).clients[sid].seen.intact <==> !UpsetBy(w, e, sid)
  {
    if e.Speak? && e.sid == sid {
      SpeakResult(w, e);
      SpeakIntact(w.clients[sid], e.m, e.o, e.hook, SupplyFor(w, e), e.fault);
    } else {
      OthersIntact(w, e, sid);
    }
  }

  lemma StepUpsetShows(w: World, e: Event, sid: nat)
    requires SafeInv(w) && Enabled(w, e) && sid in w.clients && sid in Step(w, e).clients
    requires w.clients[sid].seen.intact && !Step(w, e).clients[sid].seen.intact
    ensures !Listed(Step(w, e).clients[sid])
  {
    assert Mirrored(w.clients[sid], w.defaults);
    StepIntact(w, e, sid);
    UpsetIsSpoken(w, e, sid);
    SpeakResult(w, e);
    UpsetShows(w.clients[sid], e.m, e.o, e.hook, SupplyFor(w, e));
  }

  /** An upsetting event is a message of the session's, and a write fault plays no part in it. */
  lemma UpsetIsSpoken(w: World, e: Event, sid: nat)
    requires sid in w.clients && Enabled(w, e) && UpsetBy(w, e, sid)
    ensures e.Speak? && e.sid == sid && !e.m.Run?
    ensures e.fault ==> Consider(w.clients[sid].pump, e.m, e.hook).Answer?
  {
  }

  lemma OthersIntact(w: World, e: Event, sid: nat)
    requires Enabled(w, e) && sid in w.clients && sid in Step(w, e).clients
    requires !(e.Speak? && e.sid == sid)
    ensures w.clients[sid].seen.intact ==> Step(w, e).clients[sid].seen.intact
    ensures w.clients[sid].seen.solo ==> Step(w, e).clients[sid].seen.solo
  {
    if !Concerns(e, sid) {
      Elsewhere(w, e, sid);
    } else if e.Listen? {
      ListenResult(w, e);
    } else {
      OtherResult(w, e, sid);
    }
  }

  /** A scatter leg that disturbs the connection of session `sid`. */
  predicate Disturbs(w: World, e: Event, sid: nat)
    requires sid in w.clients
  {
    && e.Speak? && e.sid == sid
    && var p := w.clients[sid].pump;
       var plan := Consider(p, e.m, e.hook);
       plan.Scattered? && plan.pump.lease.Some? && p.lease.Some? && !Harmless(p.lease.value, plan.leg)
  }

  lemma StepSolo(w: World, e: Event, sid: nat)
    requires Enabled(w, e) && sid in w.clients && sid in Step(w, e).clients && w.clients[sid].seen.solo
    ensures Step(w, e).clients[sid].seen.solo <==> !Disturbs(w, e, sid)
  {
    if e.Speak? && e.sid == sid {
      SpeakResult(w, e);
      PlanKeeps(w.clients[sid].pump, e.m, e.hook);
      SpeakSolo(w.clients[sid], e.m, e.o, e.hook, SupplyFor(w, e), e.fault);
    } else {
      OthersIntact(w, e, sid);
    }
  }

  lemma SpeakSolo(x: Client, m: Frontend, o: Outcome, hook: Hook, supply: Option<Conn>, fault: bool)
    requires x.seen.solo && (Consider(x.pump, m, hook).Scattered? ==> x.pump.lease.Some?)
    ensures var plan := Consider(x.pump, m, hook);
            SeenMessage(x, m, o, hook, supply, fault).solo <==>
            !(plan.Scattered? && plan.pump.lease.Some? && !Harmless(x.pump.lease.value, plan.leg))
  {
  }

  /** Session `sid` lives in all states from `a` to `b`. */
  predicate Lives(ws: seq<World>, sid: nat, a: nat, b: nat) {
    a <= b < |ws| && forall k :: a <= k <= b ==> sid in ws[k].clients
  }

  lemma RunStep(ws: seq<World>, es: seq<Event>, sid: nat, k: nat)
    requires IsRun(ws, es) && k < |es| && sid in ws[k + 1].clients
    ensures Enabled(ws[k], es[k]) && ws[k + 1] == Step(ws[k], es[k]) && sid in Step(ws[k], es[k]).clients
  {
  }

  lemma {:induction false} IntactRun(ws: seq<World>, es: seq<Event>, sid: nat, a: nat, b: nat)
    requires IsRun(ws, es) && Lives(ws, sid, a, b) && ws[a].clients[sid].seen.intact
    requires forall k :: a <= k < b ==> !UpsetBy(ws[k], es[k], sid)
    ensures ws[b].clients[sid].seen.intact
  {
    if a < b {
      var k := b - 1;
      IntactRun(ws, es, sid, a, k);
      RunStep(ws, es, sid, k);
      StepIntact(ws[k], es[k], sid);
    }
  }

  /** When the marks of a session stand: no event since it was opened has upset its registry or disturbed its
      connection. */
  lemma {:induction false} UndisturbedSinceOpening(ws: seq<World>, es: seq<Event>, sid: nat, a: nat, k: nat)
    requires IsRun(ws, es) && a < k < |ws| && es[a].Opens? && es[a].sid == sid && Lives(ws, sid, a + 1, k)
    requires forall j :: a < j < k ==> !UpsetBy(ws[j], es[j], sid) && !Disturbs(ws[j], es[j], sid)
    ensures ws[k].clients[sid].seen.intact && ws[k].clients[sid].seen.solo
    decreases k
  {
    if k == a + 1 {
      OtherResult(ws[a], es[a], sid);
    } else {
      var n := k - 1;
      UndisturbedSinceOpening(ws, es, sid, a, n);
      RunStep(ws, es, sid, n);
      StepIntact(ws[n], es[n], sid);
      StepSolo(ws[n], es[n], sid);
    }
  }

  lemma ListedWhileIntact(x: Client, defaults: map<string, string>)
    requires SafeClient(x, defaults) && x.seen.intact
    ensures Listed(x)
  {
  }

  lemma ListedUntilUpset(ws: seq<World>, es: seq<Event>, defaults: map<string, string>, sid: nat, a: nat, b: nat)
    requires IsFairRun(ws, es) && ws[0] == Empty(defaults) && Lives(ws, sid, a, b) && ws[a].clients[sid].seen.intact
    requires forall k :: a <= k < b ==> !UpsetBy(ws[k], es[k], sid)
    ensures Listed(ws[b].clients[sid])
  {
    IntactRun(ws, es, sid, a, b);
    RunSafe(ws, es, defaults, b);
    ListedWhileIntact(ws[b].clients[sid], ws[b].defaults);
  }

  lemma UnlistedAfterUpset(ws: seq<World>, es: seq<Event>, defaults: map<string, string>, sid: nat, a: nat, k: nat)
    requires IsFairRun(ws, es) && ws[0] == Empty(defaults) && Lives(ws, sid, a, k + 1) && a <= k
    requires ws[a].clients[sid].seen.intact
    requires (forall j :: a <= j < k ==> !UpsetBy(ws[j], es[j], sid)) && UpsetBy(ws[k], es[k], sid)
    ensures !Listed(ws[k + 1].clients[sid])
  {
    IntactRun(ws, es, sid, a, k);
    RunSafe(ws, es, defaults, k);
    RunStep(ws, es, sid, k);
    StepIntact(ws[k], es[k], sid);
    StepUpsetShows(ws[k], es[k], sid);
  }

  /** Exactly when the registry can be trusted: over any stretch of a fair run, the registry lists the
      dedicated connection's statements in every state if and only if no event of the stretch is
      one of the upsetting ones. */
  lemma ListedExactlyUntilUpset(ws: seq<World>, es: seq<Event>, defaults: map<string, string>, sid: nat, a: nat, b: nat)
    requires IsFairRun(ws, es) && ws[0] == Empty(defaults) && Lives(ws, sid, a, b)
    requires ws[a].clients[sid].seen.intact
    ensures (forall k :: a <= k <= b ==> Listed(ws[k].clients[sid])) <==>
            (forall k :: a <= k < b ==> !UpsetBy(ws[k], es[k], sid))
  {
    if k :| a <= k < b && UpsetBy(ws[k], es[k], sid) {
      var first := FirstUpset(ws, es, sid, a, k);
      UnlistedAfterUpset(ws, es, defaults, sid, a, first);
    } else {
      forall k | a <= k <= b ensures Listed(ws[k].clients[sid]) {
        ListedUntilUpset(ws, es, defaults, sid, a, k);
      }
    }
  }

  /** From `a` on, up to the upsetting event at `b`, there is a first one. */
  lemma {:induction false} FirstUpset(ws: seq<World>, es: seq<Event>, sid: nat, a: nat, b: nat) returns (k: nat)
    requires a <= b < |es| && |es| < |ws|
    requires forall j :: a <= j <= b ==> sid in ws[j].clients && Enabled(ws[j], es[j])
    requires UpsetBy(ws[b], es[b], sid)
    ensures a <= k <= b && UpsetBy(ws[k], es[k], sid)
    ensures forall j :: a <= j < k ==> !UpsetBy(ws[j], es[j], sid)
    decreases b - a
  {
    if UpsetBy(ws[a], es[a], sid) {
      k := a;
    } else {
      k := FirstUpset(ws, es, sid, a + 1, b);
    }
  }

  // ---------------------------------------------------------------- response cycles

  /** In every orderly run, cycles are answered one for one: any two responses of one cycle are in order and
      the first is not a ReadyForQuery, and each completed cycle has its ReadyForQuery. */
  lemma CyclesAnsweredOnce(ws: seq<World>, es: seq<Event>, defaults: map<string, string>, k: nat, sid: nat)
    requires IsOrderlyRun(ws, es) && ws[0] == Empty(defaults) && k < |ws| && sid in ws[k].clients
    ensures var t := ws[k].clients[sid].seen;
            && (forall i, j :: 0 <= i < j < |t.told| && t.told[i].cycle == t.told[j].cycle ==>
                  !t.told[i].m.ReadyForQuery?)
            && (forall c: nat :: 1 <= c < t.cycle ==> Answered(t.told, c))
            && (t.cycle >= 1 ==> (Answered(t.told, t.cycle) <==> t.phase.AtRest?))
  {
    RunInv(ws, es, defaults, k);
    AccountedMeans(ws[k].clients[sid].seen);
  }

  lemma AccountedMeans(t: Trace)
    requires Accounted(t)
    ensures (forall i, j :: 0 <= i < j < |t.told| && t.told[i].cycle == t.told[j].cycle ==>
               !t.told[i].m.ReadyForQuery?)
    ensures (forall c: nat :: 1 <= c < t.cycle ==> Answered(t.told, c))
    ensures (t.cycle >= 1 ==> (Answered(t.told, t.cycle) <==> t.phase.AtRest?))
  {
  }

  /** What a waiting client waits for is there to be read. */
  lemma WaitingCanRead(x: Client, defaults: map<string, string>)
    requires ClientInv(x, defaults) && x.seen.phase.Waiting?
    ensures x.pump.lease.Some? && x.pump.lease.value.unread != []
  {
  }

  /** Reading leaves less to read. */
  lemma ListenReads(w: World, sid: nat, ret: Return)
    requires Enabled(w, Listen(sid, ret)) && sid in Step(w, Listen(sid, ret)).clients
    ensures var p, q := w.clients[sid].pump, Step(w, Listen(sid, ret)).clients[sid].pump;
            q.lease.Some? ==> |q.lease.value.unread| == |p.lease.value.unread| - 1
  {
    ListenResult(w, Listen(sid, ret));
  }

  lemma RunOn(ws: seq<World>, es: seq<Event>, e: Event)
    requires IsOrderlyRun(ws, es) && Enabled(ws[|es|], e) && Fair(ws[|es|], e) && InStep(ws[|es|], e)
    ensures IsOrderlyRun(ws + [Step(ws[|es|], e)], es + [e])
  {
    var all, more := ws + [Step(ws[|es|], e)], es + [e];
    assert forall i :: 0 <= i <= |es| ==> all[i] == ws[i];
    assert forall i :: 0 <= i < |es| ==> more[i] == es[i];
  }

  lemma WaitingListens(ws: seq<World>, es: seq<Event>, defaults: map<string, string>, sid: nat, ret: Return)
    requires IsOrderlyRun(ws, es) && ws[0] == Empty(defaults)
    requires sid in ws[|es|].clients && ws[|es|].clients[sid].seen.phase.Waiting?
    ensures Enabled(ws[|es|], Listen(sid, ret)) && Unread(ws[|es|].clients[sid]) >= 1
  {
    RunInv(ws, es, defaults, |es|);
    WaitingCanRead(ws[|es|].clients[sid], ws[|es|].defaults);
  }

  function Unread(x: Client): nat {
    if x.pump.lease.Some? then |x.pump.lease.value.unread| else 0
  }

  /** No client waits in vain: every orderly run can be continued, by reading alone what the upstream has
      already sent, until the client no longer waits or its draining session is over. */
  lemma {:induction false} WaitingEnds(ws: seq<World>, es: seq<Event>, defaults: map<string, string>, sid: nat,
                                       ret: Return)
    returns (all: seq<World>, n: nat)
    requires IsOrderlyRun(ws, es) && ws[0] == Empty(defaults) && sid in ws[|es|].clients
    ensures n <= Unread(ws[|es|].clients[sid])
    ensures var more := seq(n, _ => Listen(sid, ret));
            && IsOrderlyRun(all, es + more) && ws <= all
            && (sid in all[|es| + n].clients ==> !all[|es| + n].clients[sid].seen.phase.Waiting?)
    decreases Unread(ws[|es|].clients[sid])
  {
    var w, e := ws[|es|], Listen(sid, ret);
    if !w.clients[sid].seen.phase.Waiting? {
      all, n := ws, 0;
      assert es + seq(0, _ => e) == es;
    } else {
      WaitingListens(ws, es, defaults, sid, ret);
      if sid !in Step(w, e).clients {
        RunOn(ws, es, e);
        all, n := ws + [Step(w, e)], 1;
        assert seq(1, _ => e) == [e];
      } else {
        all, n := ReadOnward(ws, es, defaults, sid, ret);
      }
    }
  }

  lemma {:induction false} ReadOnward(ws: seq<World>, es: seq<Event>, defaults: map<string, string>, sid: nat,
                                      ret: Return)
    returns (all: seq<World>, n: nat)
    requires IsOrderlyRun(ws, es) && ws[0] == Empty(defaults) && sid in ws[|es|].clients
    requires Enabled(ws[|es|], Listen(sid, ret)) && sid in Step(ws[|es|], Listen(sid, ret)).clients
    ensures n <= Unread(ws[|es|].clients[sid])
    ensures var more := seq(n, _ => Listen(sid, ret));
            && IsOrderlyRun(all, es + more) && ws <= all
            && (sid in all[|es| + n].clients ==> !all[|es| + n].clients[sid].seen.phase.Waiting?)
    decreases Unread(ws[|es|].clients[sid]), 0
  {
    var w, e := ws[|es|], Listen(sid, ret);
    RunOn(ws, es, e);
    ListenReads(w, sid, ret);
    var rest;
    all, rest := WaitingEnds(ws + [Step(w, e)], es + [e], defaults, sid, ret);
    n := rest + 1;
    assert es + [e] + seq(rest, _ => e) == es + seq(n, _ => e);
  }

  lemma ReadKeepsDraining(p: Pump)
    requires p.lease.Some? && p.lease.value.unread != []
    ensures OnBackend(p).pump.draining == p.draining
  {
  }

  // ---------------------------------------------------------------- pinning

  /** The event reads the ReadyForQuery(Idle) of session `sid`. */
  predicate ReadsIdle(w: World, e: Event, sid: nat) {
    && e.Listen? && e.sid == sid && sid in w.clients
    && w.clients[sid].pump.lease.Some? && w.clients[sid].pump.lease.value.unread != []
    && w.clients[sid].pump.lease.value.unread[0] == ReadyForQuery(Idle)
  }

  /** The connection of session `sid` is lost, by itself or under a message. */
  predicate Fails(w: World, e: Event, sid: nat) {
    && sid in w.clients
    && ((e.Lost? && e.sid == sid) ||
        (e.Speak? && e.sid == sid && e.fault && Consider(w.clients[sid].pump, e.m, e.hook).Pass?))
  }

  /** The same, or it breaks under a scatter leg. */
  predicate Breaks(w: World, e: Event, sid: nat) {
    || Fails(w, e, sid)
    || (e.Speak? && e.sid == sid && sid in w.clients &&
        var plan := Consider(w.clients[sid].pump, e.m, e.hook); plan.Scattered? && plan.pump.lease.None?)
  }

  /** A lease is given up only when ReadyForQuery(Idle) is read or the connection is lost, and its
      dirty flag is cleared only then. */
  lemma PinnedStep(w: World, e: Event, sid: nat)
    requires Enabled(w, e) && sid in w.clients && sid in Step(w, e).clients
    requires w.clients[sid].pump.lease.Some? && !ReadsIdle(w, e, sid) && !Breaks(w, e, sid)
    ensures var p, q := w.clients[sid].pump, Step(w, e).clients[sid].pump;
            && q.lease.Some? && q.lease.value.id == p.lease.value.id
            && (p.dirty ==> q.dirty)
  {
    if e.Speak? && e.sid == sid {
      SpeakResult(w, e);
      SpeakPinned(w.clients[sid].pump, e.m, e.o, e.hook, SupplyFor(w, e), e.fault);
    } else if e.Listen? && e.sid == sid {
      ListenResult(w, e);
      ListenPinned(w.clients[sid].pump);
    } else {
      OthersPinned(w, e, sid);
    }
  }

  lemma OthersPinned(w: World, e: Event, sid: nat)
    requires Enabled(w, e) && sid in w.clients && sid in Step(w, e).clients
    requires w.clients[sid].pump.lease.Some?
    requires !((e.Speak? || e.Listen?) && e.sid == sid) && !Breaks(w, e, sid)
    ensures var p, q := w.clients[sid].pump, Step(w, e).clients[sid].pump;
            && q.lease.Some? && q.lease.value.id == p.lease.value.id && q.dirty == p.dirty
  {
    if !Concerns(e, sid) {
      Elsewhere(w, e, sid);
    } else {
      OtherResult(w, e, sid);
    }
  }

  lemma SpeakPinned(p: Pump, m: Frontend, o: Outcome, hook: Hook, supply: Option<Conn>, fault: bool)
    requires p.lease.Some?
    requires var plan := Consider(p, m, hook); (fault ==> !plan.Pass?) && (plan.Scattered? ==> plan.pump.lease.Some?)
    ensures var turn := OnFrontend(p, m, o, hook, supply, fault);
            && turn.pump.lease.Some? && turn.pump.lease.value.id == p.lease.value.id
            && (p.dirty ==> turn.pump.dirty)
  {
    PlanKeeps(p, m, hook);
    if Consider(p, m, hook).Scattered? {
      DrainLaw(LegSent(p.lease.value, Consider(p, m, hook).leg));
    }
  }

  lemma ListenPinned(p: Pump)
    requires p.lease.Some? && p.lease.value.unread != [] && p.lease.value.unread[0] != ReadyForQuery(Idle)
    ensures var q := OnBackend(p).pump;
            q.lease.Some? && q.lease.value.id == p.lease.value.id && (p.dirty ==> q.dirty)
  {
    if p.lease.value.unread[0].ReadyForQuery? {
      ReadReady(p);
    } else {
      ReadKeeps(p);
      ReadOther(p);
    }
  }

  /** Transaction pinning: between any two states of a run with no ReadyForQuery(Idle) and no loss in
      between, a session that holds a connection holds the same one. */
  lemma {:induction false} PinnedRun(ws: seq<World>, es: seq<Event>, sid: nat, a: nat, b: nat)
    requires IsRun(ws, es) && Lives(ws, sid, a, b) && ws[a].clients[sid].pump.lease.Some?
    requires forall k :: a <= k < b ==> !ReadsIdle(ws[k], es[k], sid) && !Breaks(ws[k], es[k], sid)
    ensures ws[b].clients[sid].pump.lease.Some?
    ensures ws[b].clients[sid].pump.lease.value.id == ws[a].clients[sid].pump.lease.value.id
    ensures ws[a].clients[sid].pump.dirty ==> ws[b].clients[sid].pump.dirty
  {
    if a < b {
      var k := b - 1;
      PinnedRun(ws, es, sid, a, k);
      RunStep(ws, es, sid, k);
      PinnedStep(ws[k], es[k], sid);
    }
  }

  /** A session without a connection is idle in its client's eyes, and an idle session at rest has
      none: in an orderly run a scatter never runs on the session's own lease. */
  lemma DetachedExactlyWhenIdle(ws: seq<World>, es: seq<Event>, defaults: map<string, string>, k: nat, sid: nat)
    requires IsOrderlyRun(ws, es) && ws[0] == Empty(defaults) && k < |ws| && sid in ws[k].clients
    ensures var x := ws[k].clients[sid];
            && (x.pump.lease.None? ==> x.pump.status.Idle?)
            && (x.seen.phase.AtRest? && x.pump.status.Idle? ==> x.pump.lease.None?)
  {
    RunInv(ws, es, defaults, k);
  }

  // ---------------------------------------------------------------- shutdown

  lemma SignalEnds(w: World, sid: nat, ret: Return)
    requires sid in w.clients
    ensures var h := w.clients[sid].pump.hygiene;
            sid !in Step(w, Shutdown(sid, ret)).clients <==> !h.awaiting && h.copy == NoCopy
  {
    StepClients(w, Shutdown(sid, ret));
  }

  /** In a fair run, a session that the signal ends has been sent every ReadyForQuery its connection owes it. */
  lemma ShutdownLeavesNothingUnanswered(ws: seq<World>, es: seq<Event>, defaults: map<string, string>, k: nat,
                                        sid: nat)
    requires IsFairRun(ws, es) && ws[0] == Empty(defaults) && k < |es| && sid in ws[k].clients
    requires es[k].Shutdown? && es[k].sid == sid && sid !in ws[k + 1].clients
    ensures ws[k].clients[sid].pump.lease.Some? ==> Owed(ws[k].clients[sid].pump.lease.value) == 0
    ensures IsOrderlyRun(ws, es) ==> ws[k].clients[sid].seen.phase.AtRest? || InBatch(ws[k].clients[sid].seen.phase)
  {
    RunSafe(ws, es, defaults, k);
    assert SafeClient(ws[k].clients[sid], ws[k].defaults);
    SignalEnds(ws[k], sid, es[k].ret);
    if IsOrderlyRun(ws, es) {
      RunInv(ws, es, defaults, k);
    }
  }

  /** The event reads an upstream ReadyForQuery of session `sid`. */
  predicate ReadsReady(w: World, e: Event, sid: nat) {
    && e.Listen? && e.sid == sid && sid in w.clients
    && w.clients[sid].pump.lease.Some? && w.clients[sid].pump.lease.value.unread != []
    && w.clients[sid].pump.lease.value.unread[0].ReadyForQuery?
  }

  lemma DrainingStep(w: World, e: Event, sid: nat)
    requires Enabled(w, e) && sid in w.clients && sid in Step(w, e).clients && w.clients[sid].pump.draining
    ensures Concerns(e, sid) ==> !e.Opens?
    ensures Step(w, e).clients[sid].pump.draining && !ReadsReady(w, e, sid)
  {
    if !Concerns(e, sid) {
      Elsewhere(w, e, sid);
    } else if e.Speak? {
      SpeakResult(w, e);
      SpeakKeepsDraining(w.clients[sid].pump, e.m, e.o, e.hook, SupplyFor(w, e), e.fault);
    } else if e.Listen? {
      ListenResult(w, e);
      ReadKeepsDraining(w.clients[sid].pump);
    } else {
      OtherResult(w, e, sid);
    }
  }

  lemma SpeakKeepsDraining(p: Pump, m: Frontend, o: Outcome, hook: Hook, supply: Option<Conn>, fault: bool)
    ensures OnFrontend(p, m, o, hook, supply, fault).pump.draining == p.draining
    ensures OnFrontend(p, m, o, hook, supply, fault).pump.hygiene.copy == p.hygiene.copy
  {
    PlanKeeps(p, m, hook);
  }

  /** A draining session is gone with the first ReadyForQuery it reads: one that drains at `a` and lives
      at `b` has read none in between, and drains still. */
  lemma {:induction false} DrainingEndsAtNextReady(ws: seq<World>, es: seq<Event>, sid: nat, a: nat, b: nat)
    requires IsRun(ws, es) && Lives(ws, sid, a, b) && ws[a].clients[sid].pump.draining
    ensures ws[b].clients[sid].pump.draining
    ensures forall k :: a <= k < b ==> !ReadsReady(ws[k], es[k], sid)
  {
    if a < b {
      var n := b - 1;
      DrainingEndsAtNextReady(ws, es, sid, a, n);
      RunStep(ws, es, sid, n);
      DrainingStep(ws[n], es[n], sid);
      forall k | a <= k < b ensures !ReadsReady(ws[k], es[k], sid) {
        assert k < n || k == n;
      }
    }
  }

  /** The event reads the message with which a COPY of session `sid` begins. */
  predicate ReadsCopy(w: World, e: Event, sid: nat) {
    && e.Listen? && e.sid == sid && sid in w.clients
    && w.clients[sid].pump.lease.Some? && w.clients[sid].pump.lease.value.unread != []
    && (w.clients[sid].pump.lease.value.unread[0].CopyInResponse? ||
        w.clients[sid].pump.lease.value.unread[0].CopyOutResponse?)
  }

  /** A COPY began at `j`, and up to `k` no ReadyForQuery has been read. */
  predicate CopyOpen(ws: seq<World>, es: seq<Event>, sid: nat, j: nat, k: nat)
    requires j < k <= |es| && |es| < |ws|
  {
    ReadsCopy(ws[j], es[j], sid) && forall i :: j < i < k ==> !ReadsReady(ws[i], es[i], sid)
  }

  /** Session `sid`, opened at `a`, has read the beginning of a COPY and no ReadyForQuery since. */
  predicate InCopySince(ws: seq<World>, es: seq<Event>, sid: nat, a: nat, k: nat)
    requires k <= |es| && |es| < |ws|
  {
    exists j :: a < j < k && CopyOpen(ws, es, sid, j, k)
  }

  lemma CopyStep(w: World, e: Event, sid: nat)
    requires Enabled(w, e) && sid in w.clients && sid in Step(w, e).clients
    ensures var before, after := w.clients[sid].pump.hygiene.copy, Step(w, e).clients[sid].pump.hygiene.copy;
            after != NoCopy <==> ReadsCopy(w, e, sid) || (before != NoCopy && !ReadsReady(w, e, sid))
  {
    if !Concerns(e, sid) {
      Elsewhere(w, e, sid);
    } else if e.Speak? {
      SpeakResult(w, e);
      SpeakKeepsDraining(w.clients[sid].pump, e.m, e.o, e.hook, SupplyFor(w, e), e.fault);
    } else if e.Listen? {
      ListenResult(w, e);
      ReadCopyFlag(w.clients[sid].pump);
    } else {
      OtherResult(w, e, sid);
    }
  }

  lemma ReadCopyFlag(p: Pump)
    requires p.lease.Some? && p.lease.value.unread != []
    ensures var m, after := p.lease.value.unread[0], OnBackend(p).pump.hygiene.copy;
            after != NoCopy <==>
            m.CopyInResponse? || m.CopyOutResponse? || (p.hygiene.copy != NoCopy && !m.ReadyForQuery?)
  {
  }

  /** What the copy flag of a session means: a COPY began since the last ReadyForQuery read, whatever
      has become of the connection it ran on. */
  lemma {:induction false} CopyFlagMeans(ws: seq<World>, es: seq<Event>, sid: nat, a: nat, k: nat)
    requires IsRun(ws, es) && a < k < |ws| && es[a].Opens? && es[a].sid == sid && Lives(ws, sid, a + 1, k)
    ensures ws[k].clients[sid].pump.hygiene.copy != NoCopy <==> InCopySince(ws, es, sid, a, k)
    decreases k
  {
    if k == a + 1 {
      OtherResult(ws[a], es[a], sid);
    } else {
      var n := k - 1;
      CopyFlagMeans(ws, es, sid, a, n);
      RunStep(ws, es, sid, n);
      CopyStep(ws[n], es[n], sid);
      CopyOpenStep(ws, es, sid, a, n, k);
    }
  }

  lemma CopyOpenStep(ws: seq<World>, es: seq<Event>, sid: nat, a: nat, n: nat, k: nat)
    requires a < n < |es| && |ws| == |es| + 1 && k == n + 1
    ensures InCopySince(ws, es, sid, a, k) <==>
            ReadsCopy(ws[n], es[n], sid) || (InCopySince(ws, es, sid, a, n) && !ReadsReady(ws[n], es[n], sid))
  {
    if ReadsCopy(ws[n], es[n], sid) {
      assert CopyOpen(ws, es, sid, n, k);
    } else {
      if j :| a < j < n && CopyOpen(ws, es, sid, j, n) && !ReadsReady(ws[n], es[n], sid) {
        assert CopyOpen(ws, es, sid, j, k);
      }
      if j :| a < j < k && CopyOpen(ws, es, sid, j, k) {
        assert CopyOpen(ws, es, sid, j, n);
      }
    }
  }

  /** The event forwards a Query, Sync or Flush of session `sid`, and the write succeeds. */
  predicate StartsWait(w: World, e: Event, sid: nat) {
    && e.Speak? && e.sid == sid && sid in w.clients && !e.fault
    && var plan := Consider(w.clients[sid].pump, e.m, e.hook); plan.Pass? && StartsCycle(plan.m)
  }

  /** A cycle was started at `j`, and up to `k` no ReadyForQuery has been read and no loss has been noticed. */
  predicate WaitOpen(ws: seq<World>, es: seq<Event>, sid: nat, j: nat, k: nat)
    requires j < k <= |es| && |es| < |ws|
  {
    && StartsWait(ws[j], es[j], sid)
    && forall i :: j < i < k ==> !ReadsReady(ws[i], es[i], sid) && !Fails(ws[i], es[i], sid)
  }

  /** Session `sid`, opened at `a`, has forwarded a Query, Sync or Flush, and neither read a ReadyForQuery nor
      lost its connection since. */
  predicate AwaitsSince(ws: seq<World>, es: seq<Event>, sid: nat, a: nat, k: nat)
    requires k <= |es| && |es| < |ws|
  {
    exists j :: a < j < k && WaitOpen(ws, es, sid, j, k)
  }

  lemma SpeakAwaits(p: Pump, m: Frontend, o: Outcome, hook: Hook, supply: Option<Conn>, fault: bool)
    requires !OnFrontend(p, m, o, hook, supply, fault).ended
    ensures var plan := Consider(p, m, hook);
            OnFrontend(p, m, o, hook, supply, fault).pump.hygiene.awaiting <==>
            if plan.Pass? then !fault && (p.hygiene.awaiting || StartsCycle(plan.m)) else p.hygiene.awaiting
  {
    PlanKeeps(p, m, hook);
  }

  lemma ReadAwaits(p: Pump)
    requires p.lease.Some? && p.lease.value.unread != []
    ensures OnBackend(p).pump.hygiene.awaiting <==> p.hygiene.awaiting && !p.lease.value.unread[0].ReadyForQuery?
  {
  }

  lemma AwaitStep(w: World, e: Event, sid: nat)
    requires Enabled(w, e) && sid in w.clients && sid in Step(w, e).clients
    ensures var before, after := w.clients[sid].pump.hygiene.awaiting, Step(w, e).clients[sid].pump.hygiene.awaiting;
            after <==> StartsWait(w, e, sid) || (before && !ReadsReady(w, e, sid) && !Fails(w, e, sid))
  {
    if !Concerns(e, sid) {
      Elsewhere(w, e, sid);
    } else if e.Speak? {
      SpeakResult(w, e);
      SpeakAwaits(w.clients[sid].pump, e.m, e.o, e.hook, SupplyFor(w, e), e.fault);
    } else if e.Listen? {
      ListenResult(w, e);
      ReadAwaits(w.clients[sid].pump);
    } else {
      OtherResult(w, e, sid);
    }
  }

  lemma WaitOpenStep(ws: seq<World>, es: seq<Event>, sid: nat, a: nat, n: nat, k: nat)
    requires a < n < |es| && |ws| == |es| + 1 && k == n + 1
    ensures AwaitsSince(ws, es, sid, a, k) <==>
            || StartsWait(ws[n], es[n], sid)
            || (AwaitsSince(ws, es, sid, a, n) && !ReadsReady(ws[n], es[n], sid) && !Fails(ws[n], es[n], sid))
  {
    if StartsWait(ws[n], es[n], sid) {
      assert WaitOpen(ws, es, sid, n, k);
    } else {
      if j :| a < j < n && WaitOpen(ws, es, sid, j, n) && !ReadsReady(ws[n], es[n], sid) && !Fails(ws[n], es[n], sid) {
        assert WaitOpen(ws, es, sid, j, k);
      }
      if j :| a < j < k && WaitOpen(ws, es, sid, j, k) {
        assert WaitOpen(ws, es, sid, j, n);
      }
    }
  }

  /** What the awaiting flag of a session means, in every run: a Query, Sync or Flush was forwarded, and neither
      a ReadyForQuery read nor a loss since. That the answers to a Flush have been read does not lower it. */
  lemma {:induction false} AwaitingMeans(ws: seq<World>, es: seq<Event>, sid: nat, a: nat, k: nat)
    requires IsRun(ws, es) && a < k < |ws| && es[a].Opens? && es[a].sid == sid && Lives(ws, sid, a + 1, k)
    ensures ws[k].clients[sid].pump.hygiene.awaiting <==> AwaitsSince(ws, es, sid, a, k)
    decreases k
  {
    if k == a + 1 {
      OtherResult(ws[a], es[a], sid);
    } else {
      var n := k - 1;
      AwaitingMeans(ws, es, sid, a, n);
      RunStep(ws, es, sid, n);
      AwaitStep(ws[n], es[n], sid);
      WaitOpenStep(ws, es, sid, a, n, k);
    }
  }

  /** Exactly when the signal ends a session at once, in every run: unless the session has forwarded a Query,
      Sync or Flush and neither read a ReadyForQuery nor lost its connection since, or a COPY began and no
      ReadyForQuery was read since. */
  lemma ShutdownEndsExactly(ws: seq<World>, es: seq<Event>, a: nat, k: nat, sid: nat, ret: Return)
    requires IsRun(ws, es) && a < k < |ws| && es[a].Opens? && es[a].sid == sid && Lives(ws, sid, a + 1, k)
    ensures sid !in Step(ws[k], Shutdown(sid, ret)).clients <==>
            !AwaitsSince(ws, es, sid, a, k) && !InCopySince(ws, es, sid, a, k)
  {
    AwaitingMeans(ws, es, sid, a, k);
    CopyFlagMeans(ws, es, sid, a, k);
    SignalEnds(ws[k], sid, ret);
  }

  /** In an orderly run, by where the client stands: a session at rest is ended unless a COPY began after the
      last ReadyForQuery it read, and only a loss can have left that behind; a session with a Query, a Sync or
      COPY data in flight never is. */
  lemma ShutdownByPhase(ws: seq<World>, es: seq<Event>, defaults: map<string, string>, a: nat, k: nat, sid: nat,
                        ret: Return)
    requires IsOrderlyRun(ws, es) && ws[0] == Empty(defaults)
    requires a < k < |ws| && es[a].Opens? && es[a].sid == sid && Lives(ws, sid, a + 1, k)
    ensures var phase, ended := ws[k].clients[sid].seen.phase, sid !in Step(ws[k], Shutdown(sid, ret)).clients;
            && (phase.AtRest? ==> (ended <==> !InCopySince(ws, es, sid, a, k)))
            && (phase.AtRest? && !ended ==>
                  exists j, i :: a < j < i < k && CopyOpen(ws, es, sid, j, k) && Fails(ws[i], es[i], sid))
            && (phase.Waiting? || phase.CopyingIn? ==> !ended)
  {
    RunInv(ws, es, defaults, k);
    CopyFlagMeans(ws, es, sid, a, k);
    SignalEnds(ws[k], sid, ret);
    assert ClientInv(ws[k].clients[sid], ws[k].defaults);
    if ws[k].clients[sid].seen.phase.AtRest? && InCopySince(ws, es, sid, a, k) {
      var j :| a < j < k && CopyOpen(ws, es, sid, j, k);
      LossEndsCopy(ws, es, defaults, sid, j, k);
    }
  }

  /** A session in the middle of a cycle. */
  predicate MidCycle(x: Client) {
    x.pump.lease.Some? && x.pump.fedSinceReady > 0 && !x.pump.swallow && x.seen.phase != AtRest
  }

  lemma CopyIsMidCycle(x: Client, defaults: map<string, string>)
    requires ClientInv(x, defaults) && x.pump.lease.Some? && x.pump.lease.value.unread != []
    requires !x.pump.lease.value.unread[0].ReadyForQuery?
    ensures MidCycle(OnResponse(x))
  {
    BackendCycle(x.pump, x.seen.phase);
    ReadKeeps(x.pump);
    ResponsePhase(x);
  }

  lemma SpeakMidCycle(x: Client, m: Frontend, o: Outcome, hook: Hook, supply: Option<Conn>, fault: bool)
    requires MidCycle(x) && Orderly(x.pump, x.seen.phase, m, o, hook, supply, fault)
    requires fault ==> !Consider(x.pump, m, hook).Pass?
    requires !OnFrontend(x.pump, m, o, hook, supply, fault).ended
    ensures MidCycle(OnMessage(x, m, o, hook, supply, fault))
  {
    PlanKeeps(x.pump, m, hook);
    if Consider(x.pump, m, hook).Pass? {
      PassedBy(x, m, o, hook, supply);
    } else {
      MidCycleAnswer(x, m, o, hook);
      AnswerSeen(x, m, o, hook, supply, fault);
    }
  }

  /** In the middle of a cycle, only a Parse is answered without the connection, and that ends no cycle. */
  lemma MidCycleAnswer(x: Client, m: Frontend, o: Outcome, hook: Hook)
    requires MidCycle(x) && Civil(x.pump, x.seen.phase, m, hook) && RefusalInStep(x.pump, m, hook)
    requires Consider(x.pump, m, hook).Answer?
    ensures var plan := Consider(x.pump, m, hook);
            && plan.pump == x.pump.(extended := true) && !ClosesLocally(x.pump, m)
            && AfterHearingAll(AfterSending(x.seen.phase, m, o), plan.told) != AtRest
  {
    ParseAnswered(x.pump, m, hook);
    HearOne(AfterSending(x.seen.phase, m, o), Consider(x.pump, m, hook).told[0]);
  }

  lemma MidCycleStep(w: World, e: Event, sid: nat)
    requires Enabled(w, e) && InStep(w, e) && sid in w.clients && sid in Step(w, e).clients
    requires ClientInv(w.clients[sid], w.defaults)
    requires MidCycle(w.clients[sid]) && !ReadsReady(w, e, sid) && !Fails(w, e, sid)
    ensures MidCycle(Step(w, e).clients[sid])
  {
    var x := w.clients[sid];
    if !Concerns(e, sid) {
      Elsewhere(w, e, sid);
    } else if e.Speak? {
      SpeakResult(w, e);
      SpeakMidCycle(x, e.m, e.o, e.hook, SupplyFor(w, e), e.fault);
    } else if e.Listen? {
      ListenResult(w, e);
      CopyIsMidCycle(x, w.defaults);
    } else {
      OtherResult(w, e, sid);
    }
  }

  /** A COPY that no ReadyForQuery has ended is still on its way, or its connection was lost. */
  lemma {:induction false} LossEndsCopy(ws: seq<World>, es: seq<Event>, defaults: map<string, string>, sid: nat, j: nat,
                                        k: nat)
    requires IsOrderlyRun(ws, es) && ws[0] == Empty(defaults) && j < k < |ws| && Lives(ws, sid, j, k)
    requires CopyOpen(ws, es, sid, j, k)
    ensures MidCycle(ws[k].clients[sid]) || exists i :: j < i < k && Fails(ws[i], es[i], sid)
    decreases k
  {
    var n := k - 1;
    RunInv(ws, es, defaults, n);
    RunStep(ws, es, sid, n);
    if n == j {
      ListenResult(ws[n], es[n]);
      CopyIsMidCycle(ws[n].clients[sid], ws[n].defaults);
    } else {
      LossEndsCopy(ws, es, defaults, sid, j, n);
      if !Fails(ws[n], es[n], sid) && MidCycle(ws[n].clients[sid]) {
        MidCycleStep(ws[n], es[n], sid);
      }
    }
  }

  // ---------------------------------------------------------------- statements and losses

  /** No double Parse, across all sessions: whenever an event of a fair run forwards a named Parse, the
      connection it is written to does not hold that name. */
  lemma NoDoubleParse(ws: seq<World>, es: seq<Event>, defaults: map<string, string>, k: nat)
    requires IsFairRun(ws, es) && ws[0] == Empty(defaults) && k < |es| && es[k].Speak?
    requires var plan := Consider(ws[k].clients[es[k].sid].pump, es[k].m, es[k].hook);
             plan.Pass? && NamedParse(plan.m)
    requires ws[k].clients[es[k].sid].pump.lease.Some? || SupplyFor(ws[k], es[k]).Some?
    ensures var plan := Consider(ws[k].clients[es[k].sid].pump, es[k].m, es[k].hook);
            && (plan.pump.lease.Some? || SupplyFor(ws[k], es[k]).Some?)
            && plan.m.name !in Flushed(Leased(plan.pump, SupplyFor(ws[k], es[k])).lease.value).server.stmts
  {
    RunSafe(ws, es, defaults, k);
    ParseIsNew(ws[k], es[k]);
  }

  lemma ParseIsNew(w: World, e: Event)
    requires SafeInv(w) && Enabled(w, e) && e.Speak?
    requires var plan := Consider(w.clients[e.sid].pump, e.m, e.hook); plan.Pass? && NamedParse(plan.m)
    requires w.clients[e.sid].pump.lease.Some? || SupplyFor(w, e).Some?
    ensures var plan := Consider(w.clients[e.sid].pump, e.m, e.hook);
            && (plan.pump.lease.Some? || SupplyFor(w, e).Some?)
            && plan.m.name !in Flushed(Leased(plan.pump, SupplyFor(w, e)).lease.value).server.stmts
  {
    var x := w.clients[e.sid];
    if SupplyFor(w, e).Some? {
      SuppliedClean(w, e);
    }
    PlanKeeps(x.pump, e.m, e.hook);
    assert Fit(x, w.defaults);
    ForwardedParseIsNew(x.pump, e.m, e.hook, SupplyFor(w, e), w.defaults);
  }

  /** Whatever a session of a fair run went through, when a message of its client makes it attach, the message is
      written to a connection that has exactly the registered statements, each of them one the session itself
      has parsed, its overrides, its startup parameters where it has no override, and the defaults elsewhere. */
  lemma AttachRestores(ws: seq<World>, es: seq<Event>, defaults: map<string, string>, k: nat, n: string)
    requires IsFairRun(ws, es) && ws[0] == Empty(defaults) && k < |es| && es[k].Speak?
    requires Consider(ws[k].clients[es[k].sid].pump, es[k].m, es[k].hook).Pass?
    requires ws[k].clients[es[k].sid].pump.lease.None? && SupplyFor(ws[k], es[k]).Some?
    ensures var e, p := es[k], ws[k].clients[es[k].sid].pump;
            var q := Consider(p, e.m, e.hook).pump;
            var s := Leased(q, SupplyFor(ws[k], e)).lease.value.server;
            && s.stmts == p.registry && AllParsed(ws[k].log, e.sid, s.stmts)
            && (n in p.overrides ==> Lookup(s.params, n) == p.overrides[n])
            && (n !in p.overrides && n in TRACKED && n in p.startup ==> Lookup(s.params, n) == p.startup[n])
            && (n !in p.overrides && n !in TRACKED ==> Lookup(s.params, n) == Lookup(defaults, n))
  {
    RunSafe(ws, es, defaults, k);
    RunLog(ws, es, defaults, k);
    RunDefaults(ws, es, k);
    SuppliedClean(ws[k], es[k]);
    PlanKeeps(ws[k].clients[es[k].sid].pump, es[k].m, es[k].hook);
    PreparedLookup(Consider(ws[k].clients[es[k].sid].pump, es[k].m, es[k].hook).pump, SupplyFor(ws[k], es[k]).value,
                   defaults, n);
    assert AllParsed(ws[k].log, es[k].sid, ws[k].clients[es[k].sid].pump.registry);
  }

  lemma PreparedLookup(p: Pump, c: Conn, defaults: map<string, string>, n: string)
    requires ParkedClean(c, defaults)
    ensures n in p.overrides ==> Lookup(Prepared(c, p).server.params, n) == p.overrides[n]
    ensures n !in p.overrides && n in TRACKED && n in p.startup ==>
              Lookup(Prepared(c, p).server.params, n) == p.startup[n]
    ensures n !in p.overrides && n !in TRACKED ==> Lookup(Prepared(c, p).server.params, n) == Lookup(defaults, n)
  {
    OverlayLookup(c.cache, Named(p.startup), n);
    OverlayLookup(AfterStartup(c, p), p.overrides, n);
  }
}

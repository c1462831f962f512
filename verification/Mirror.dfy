/**
 Transparency. A session that shares connections in transaction mode is compared with a dedicated
 connection that sees only that session's traffic. As long as the registry is not upset, the two
 servers agree on named statements, transaction status, protocol mode and reported parameters, and
 the client is relayed exactly the dedicated connection's replies.
 */
module Mirror {
  import opened Protocol
  import opened Connection
  import opened Session
  import opened Shapes
  import opened Phases
  import opened Leases

  /** The names on which the two connections are compared: tracked startup parameters count only
      where the session named or changed them. */
  predicate Compared(n: string, startup: map<string, string>, changed: map<string, string>) {
    n !in TRACKED || n in startup || n in changed
  }

  ghost predicate SameParams(a: map<string, string>, b: map<string, string>, startup: map<string, string>,
                             changed: map<string, string>)
  {
    forall n: string :: Compared(n, startup, changed) ==> Lookup(a, n) == Lookup(b, n)
  }

  predicate SameState(a: Server, b: Server) {
    a.stmts == b.stmts && a.tx == b.tx && a.mode == b.mode
  }

  predicate NoReset(ms: seq<Backend>) {
    forall i :: 0 <= i < |ms| ==> !ms[i].ParameterReset?
  }

  predicate ClientTraffic(h: seq<Traffic>) {
    forall i :: 0 <= i < |h| ==> h[i].Ran? ==> !h[i].m.Run?
  }

  ghost predicate Grounded(p: Pump, t: Trace) {
    && t.origin.tx.Idle? && t.origin.mode.Ready?
    && t.origin.params == t.origin.defaults + Named(p.startup) + t.carried
    && ClientTraffic(t.history)
  }

  ghost predicate Attuned(c: Conn, d: Reaction, p: Pump, t: Trace) {
    var f := Flushed(c);
    && SameState(f.server, d.server)
    && t.relayed + f.unread == d.replies
    && SameParams(f.server.params, d.server.params, p.startup, Reported(t.carried, d.replies))
  }

  /** The session cannot be told from one with a connection of its own. */
  ghost predicate LooksDedicated(p: Pump, t: Trace) {
    var d := Dedicated(t.origin, t.history);
    && p.overrides == Reported(t.carried, t.relayed)
    && (p.lease.None? ==> t.relayed == d.replies && d.server.tx.Idle? && d.server.mode.Ready?)
    && (p.lease.Some? ==> Attuned(p.lease.value, d, p, t))
  }

  ghost predicate MirrorInv(p: Pump, t: Trace) {
    && Grounded(p, t)
    && (t.intact ==> p.registry == Dedicated(t.origin, t.history).server.stmts)
    && (t.intact && t.solo ==> LooksDedicated(p, t))
  }

  // ---------------------------------------------------------------- the dedicated connection

  lemma {:induction false} ReportedOver(base: map<string, string>, m: map<string, string>, ms: seq<Backend>)
    requires NoReset(ms)
    ensures Reported(base + m, ms) == base + Reported(m, ms)
  {
    if ms != [] {
      ReportedOver(base, m, ms[..|ms| - 1]);
    }
  }

  lemma NoteLookup(params: map<string, string>, m: Backend, n: string)
    requires !m.ParameterReset?
    ensures Lookup(Note(params, m), n) ==
            if m.ParameterStatus? && m.name == n then m.value else Lookup(params, n)
  {
  }

  lemma {:induction false} SameParamsReported(a: map<string, string>, b: map<string, string>,
                                              startup: map<string, string>, changed: map<string, string>,
                                              ms: seq<Backend>)
    requires NoReset(ms) && SameParams(a, b, startup, changed)
    ensures SameParams(Reported(a, ms), Reported(b, ms), startup, Reported(changed, ms))
  {
    if ms != [] {
      var front, last := ms[..|ms| - 1], ms[|ms| - 1];
      SameParamsReported(a, b, startup, changed, front);
      forall n: string | Compared(n, startup, Reported(changed, ms))
        ensures Lookup(Reported(a, ms), n) == Lookup(Reported(b, ms), n)
      {
        NoteLookup(Reported(a, front), last, n);
        NoteLookup(Reported(b, front), last, n);
      }
    }
  }

  lemma ReactNoReset(s: Server, m: Frontend, o: Outcome)
    requires !m.Run?
    ensures NoReset(React(s, m, o).replies)
  {
  }

  /** Servers in the same state react alike; only reported parameters may tell them apart. */
  lemma SameReaction(a: Server, b: Server, m: Frontend, o: Outcome)
    requires SameState(a, b) && !m.Run?
    ensures SameState(React(a, m, o).server, React(b, m, o).server)
    ensures React(a, m, o).replies == React(b, m, o).replies
  {
    match a.mode
    case Ready => SameWhenReady(a, b, m, o);
    case Copying(extended) => SameInCopy(a, b, extended, m, o);
    case Skip =>
  }

  lemma SameAbort(a: Server, b: Server, o: Outcome, extended: bool)
    requires SameState(a, b)
    ensures SameState(AbortBatch(a, o).server, AbortBatch(b, o).server)
    ensures AbortBatch(a, o).replies == AbortBatch(b, o).replies
    ensures SameState(AbortCopy(a, o, extended).server, AbortCopy(b, o, extended).server)
    ensures AbortCopy(a, o, extended).replies == AbortCopy(b, o, extended).replies
  {
  }

  lemma SameInCopy(a: Server, b: Server, extended: bool, m: Frontend, o: Outcome)
    requires SameState(a, b)
    ensures SameState(RunCopy(a, extended, m, o).server, RunCopy(b, extended, m, o).server)
    ensures RunCopy(a, extended, m, o).replies == RunCopy(b, extended, m, o).replies
  {
    SameAbort(a, b, o, extended);
  }

  lemma SameWhenReady(a: Server, b: Server, m: Frontend, o: Outcome)
    requires SameState(a, b) && !m.Run?
    ensures SameState(RunReady(a, m, o).server, RunReady(b, m, o).server)
    ensures RunReady(a, m, o).replies == RunReady(b, m, o).replies
  {
    if m.Query? || m.Execute? {
      SameExecuted(a, b, m, o);
    } else {
      SameAbort(a, b, o, true);
    }
  }

  lemma SameExecuted(a: Server, b: Server, m: Frontend, o: Outcome)
    requires SameState(a, b) && (m.Query? || m.Execute?)
    ensures SameState(RunReady(a, m, o).server, RunReady(b, m, o).server)
    ensures RunReady(a, m, o).replies == RunReady(b, m, o).replies
  {
    if m.Execute? && !o.ok {
      SameAbort(a, b, o, true);
    } else {
      SameEffects(a, b, o);
    }
  }

  lemma SameEffects(a: Server, b: Server, o: Outcome)
    requires SameState(a, b)
    ensures SameState(Executed(a, o), Executed(b, o))
  {
  }

  lemma {:induction false} DedicatedReports(origin: Server, h: seq<Traffic>)
    requires ClientTraffic(h)
    ensures NoReset(Dedicated(origin, h).replies)
    ensures Reports(origin, Dedicated(origin, h))
  {
    if h != [] {
      var before := Dedicated(origin, h[..|h| - 1]);
      DedicatedReports(origin, h[..|h| - 1]);
      match h[|h| - 1]
      case Ran(m, o) =>
        ReactNoReset(before.server, m, o);
        ReportsMatch(before.server, m, o);
        ReportedAppend(origin.params, before.replies, React(before.server, m, o).replies);
      case ClosedLocally(_) =>
      case Cancelled(o) =>
        CancelReports(before.server, o);
        ReportedAppend(origin.params, before.replies, CancelReaction(before.server, o).replies);
    }
  }

  lemma CancelReports(s: Server, o: Outcome)
    ensures Reports(s, CancelReaction(s, o)) && NoReset(CancelReaction(s, o).replies)
  {
    if s.mode.Copying? {
      AbortReports(s, o, s.mode.extended);
      AbortNoReset(s, o, s.mode.extended);
    }
  }

  lemma AbortNoReset(s: Server, o: Outcome, extended: bool)
    ensures NoReset(AbortCopy(s, o, extended).replies)
  {
  }

  /** What the dedicated connection reports now: its startup parameters, overridden by every change
      it ever reported. */
  lemma DedicatedParams(p: Pump, t: Trace)
    requires Grounded(p, t)
    ensures var d := Dedicated(t.origin, t.history);
            && d.server.params == t.origin.defaults + Named(p.startup) + Reported(t.carried, d.replies)
            && NoReset(d.replies)
  {
    DedicatedReports(t.origin, t.history);
    ReportedOver(t.origin.defaults + Named(p.startup), t.carried, Dedicated(t.origin, t.history).replies);
  }

  lemma DedicatedStep(origin: Server, h: seq<Traffic>, e: Traffic)
    ensures (h + [e])[..|h + [e]| - 1] == h
    ensures ClientTraffic(h) && (e.Ran? ==> !e.m.Run?) ==> ClientTraffic(h + [e])
  {
  }

  // ---------------------------------------------------------------- attaching

  lemma OverlayLookup(params: map<string, string>, wanted: map<string, string>, n: string)
    ensures Lookup(params + Differing(params, wanted), n) == if n in wanted then wanted[n] else Lookup(params, n)
  {
  }

  lemma PreparedParams(c: Conn, p: Pump, defaults: map<string, string>, n: string)
    requires ParkedClean(c, defaults) && Compared(n, p.startup, p.overrides)
    ensures Lookup(Prepared(c, p).server.params, n) == Lookup(defaults + Named(p.startup) + p.overrides, n)
  {
    OverlayLookup(c.cache, Named(p.startup), n);
    OverlayLookup(AfterStartup(c, p), p.overrides, n);
  }

  /** Replaying the session's state onto a clean connection reproduces the dedicated connection. */
  lemma AttachMirrors(p: Pump, t: Trace, c: Conn)
    requires MirrorInv(p, t) && t.intact && t.solo && p.lease.None?
    requires ParkedClean(c, t.origin.defaults)
    ensures Attuned(Prepared(c, p), Dedicated(t.origin, t.history), p, t)
  {
    var d := Dedicated(t.origin, t.history);
    var e := Prepared(c, p);
    DedicatedParams(p, t);
    FlushedNothing(e);
    assert t.relayed + [] == t.relayed;
    forall n: string | Compared(n, p.startup, Reported(t.carried, d.replies))
      ensures Lookup(e.server.params, n) == Lookup(d.server.params, n)
    {
      PreparedParams(c, p, t.origin.defaults, n);
    }
  }

  // ---------------------------------------------------------------- every event keeps the mirror

  /** Exactly the upsetting traffic makes the registry differ from the dedicated connection. */
  lemma UpsetsExactly(ideal: Server, m: Frontend, o: Outcome)
    requires NamedParse(m) ==> m.name !in ideal.stmts
    requires !m.Run?
    ensures NowRegistered(ideal.stmts, m) == React(ideal, m, o).server.stmts <==> !Upsets(ideal, ideal.stmts, m, o)
  {
    var listed, held := NowRegistered(ideal.stmts, m), React(ideal, m, o).server.stmts;
    if Upsets(ideal, ideal.stmts, m, o) {
      var n :| n in listed && n !in held;
    } else {
      assert forall n :: n in listed <==> n in held;
    }
  }

  lemma WriteMirrors(c: Conn, m: Frontend, o: Outcome, p: Pump, t: Trace)
    requires Grounded(p, t) && !m.Run?
    requires Attuned(c, Dedicated(t.origin, t.history), p, t)
    ensures Attuned(Written(c, m, o), Dedicated(t.origin, t.history + [Ran(m, o)]), p, t)
  {
    var d := Dedicated(t.origin, t.history);
    var f := Flushed(c);
    var r := React(f.server, m, o);
    DedicatedStep(t.origin, t.history, Ran(m, o));
    WrittenIs(c, m, o);
    SameReaction(f.server, d.server, m, o);
    ReactNoReset(f.server, m, o);
    ReportsMatch(f.server, m, o);
    ReportsMatch(d.server, m, o);
    SameParamsReported(f.server.params, d.server.params, p.startup, Reported(t.carried, d.replies), r.replies);
    ReportedAppend(t.carried, d.replies, r.replies);
    Regroup(t.relayed, f.unread, r.replies);
  }

  lemma ReadMirrors(c: Conn, d: Reaction, p: Pump, t: Trace)
    requires Attuned(c, d, p, t) && c.unread != []
    ensures Attuned(Next(c), d, p, t.(relayed := t.relayed + [c.unread[0]]))
    ensures c.unread[0] in d.replies
  {
    FlushedNext(c);
    var f := Flushed(c);
    assert t.relayed + [c.unread[0]] + f.unread[1..] == t.relayed + f.unread;
    assert d.replies[|t.relayed|] == c.unread[0];
  }

  lemma MirrorFrame(p: Pump, t: Trace, q: Pump, u: Trace)
    requires MirrorInv(p, t)
    requires q.lease == p.lease && q.registry == p.registry && q.overrides == p.overrides && q.startup == p.startup
    requires u.origin == t.origin && u.carried == t.carried && u.history == t.history && u.relayed == t.relayed
    requires u.intact ==> t.intact
    requires u.solo ==> t.solo
    ensures MirrorInv(q, u)
  {
  }

  lemma RestartMirrors(q: Pump, t: Trace)
    requires q.lease.None?
    ensures MirrorInv(q, Restart(t, q))
  {
  }

  /** Everything but a Close answered locally leaves the mirror as it is. */
  lemma AnswerMirror(p: Pump, t: Trace, m: Frontend, hook: Hook, u: Trace)
    requires MirrorInv(p, t) && Consider(p, m, hook).Answer?
    requires u.origin == t.origin && u.carried == t.carried && u.history == t.history && u.relayed == t.relayed
    requires u.intact == t.intact && u.solo == t.solo
    ensures var q := Consider(p, m, hook).pump;
            MirrorInv(q, if ClosesLocally(p, m) then SeenClose(u, p.registry, m) else u)
  {
    PlanKeeps(p, m, hook);
    var q := Consider(p, m, hook).pump;
    if ClosesLocally(p, m) {
      MirrorFrame(p, t, p, u);
      CloseMirror(p, u, m);
    } else {
      MirrorFrame(p, t, q, u);
    }
  }

  lemma CloseMirror(p: Pump, u: Trace, m: Frontend)
    requires MirrorInv(p, u) && m.Close? && p.lease.None?
    ensures MirrorInv(p.(registry := p.registry - {m.name}), SeenClose(u, p.registry, m))
  {
    var q := p.(registry := p.registry - {m.name});
    if m.target.OfStatement? {
      DedicatedStep(u.origin, u.history, ClosedLocally(m.name));
    } else if m.name !in p.registry {
      assert q.registry == p.registry;
      MirrorFrame(p, u, q, SeenClose(u, p.registry, m));
    }
  }

  lemma LeasedMirrors(p: Pump, t: Trace, supply: Option<Conn>)
    requires MirrorInv(p, t) && (p.lease.Some? || supply.Some?)
    requires supply.Some? ==> ParkedClean(supply.value, t.origin.defaults)
    ensures MirrorInv(Leased(p, supply), t)
  {
    if p.lease.None? && t.intact && t.solo {
      AttachMirrors(p, t, supply.value);
    }
  }

  /** A forwarded message. */
  lemma RanMirror(q: Pump, t: Trace, m: Frontend, o: Outcome, r: Pump, u: Trace)
    requires MirrorInv(q, t) && q.lease.Some? && !m.Run?
    requires NamedParse(m) ==> m.name !in q.registry
    requires r.lease == Some(Written(q.lease.value, m, o)) && r.registry == NowRegistered(q.registry, m)
    requires r.overrides == q.overrides && r.startup == q.startup
    requires u.origin == t.origin && u.carried == t.carried && u.relayed == t.relayed
    requires u.history == t.history + [Ran(m, o)]
    requires u.intact == (t.intact && !Upsets(Dedicated(t.origin, t.history).server, q.registry, m, o))
    requires u.solo == t.solo
    ensures MirrorInv(r, u)
  {
    DedicatedStep(t.origin, t.history, Ran(m, o));
    if u.intact {
      UpsetsExactly(Dedicated(t.origin, t.history).server, m, o);
      if u.solo {
        WriteMirrors(q.lease.value, m, o, q, t);
      }
    }
  }

  lemma PassFields(p: Pump, m: Frontend, o: Outcome, supply: Option<Conn>)
    requires p.lease.Some? || supply.Some?
    ensures var q, r := Leased(p, supply), Forwarded(p, m, o, supply, false).pump;
            && r.lease == Some(Written(q.lease.value, m, o))
            && r.registry == NowRegistered(p.registry, m) && q.registry == p.registry
            && r.overrides == p.overrides == q.overrides && r.startup == p.startup == q.startup
  {
  }

  lemma AnswerSeen(x: Client, m: Frontend, o: Outcome, hook: Hook, supply: Option<Conn>, fault: bool)
    requires Consider(x.pump, m, hook).Answer?
    ensures var u := Hear(Send1(x.seen, m, o), Consider(x.pump, m, hook).told);
            && SeenMessage(x, m, o, hook, supply, fault) ==
               (if ClosesLocally(x.pump, m) then SeenClose(u, x.pump.registry, m) else u)
            && u.origin == x.seen.origin && u.carried == x.seen.carried && u.history == x.seen.history
            && u.relayed == x.seen.relayed && u.intact == x.seen.intact && u.solo == x.seen.solo
            && OnFrontend(x.pump, m, o, hook, supply, fault).pump == Consider(x.pump, m, hook).pump
  {
  }

  lemma PassSeen(x: Client, m: Frontend, o: Outcome, hook: Hook, supply: Option<Conn>)
    requires Consider(x.pump, m, hook).Pass? && (Consider(x.pump, m, hook).pump.lease.Some? || supply.Some?)
    ensures var q, m' := Consider(x.pump, m, hook).pump, Consider(x.pump, m, hook).m;
            var t, u := x.seen, SeenMessage(x, m, o, hook, supply, false);
            && u.origin == t.origin && u.carried == t.carried && u.relayed == t.relayed
            && u.history == t.history + [Ran(m', o)]
            && u.intact == (t.intact && !Upsets(Dedicated(t.origin, t.history).server, q.registry, m', o))
            && u.solo == t.solo
            && OnFrontend(x.pump, m, o, hook, supply, false).pump == Forwarded(q, m', o, supply, false).pump
  {
  }

  lemma FaultSeen(x: Client, m: Frontend, o: Outcome, hook: Hook, supply: Option<Conn>)
    requires Consider(x.pump, m, hook).Pass? && (Consider(x.pump, m, hook).pump.lease.Some? || supply.Some?)
    ensures var y := OnMessage(x, m, o, hook, supply, true);
            y.seen == Restart(y.seen, y.pump).(origin := y.seen.origin) && y.pump.lease.None?
            && y.seen.origin == Restored(y.pump, x.seen.origin.defaults)
  {
  }

  lemma PlanMirrors(p: Pump, t: Trace, m: Frontend, hook: Hook, supply: Option<Conn>)
    requires MirrorInv(p, t)
    requires supply.Some? ==> ParkedClean(supply.value, t.origin.defaults)
    requires Consider(p, m, hook).Pass? && (Consider(p, m, hook).pump.lease.Some? || supply.Some?)
    ensures MirrorInv(Leased(Consider(p, m, hook).pump, supply), t)
  {
    PlanKeeps(p, m, hook);
    MirrorFrame(p, t, Consider(p, m, hook).pump, t);
    LeasedMirrors(Consider(p, m, hook).pump, t, supply);
  }

  lemma PlanIsClientMessage(p: Pump, m: Frontend, hook: Hook)
    requires Consider(p, m, hook).Pass? && !m.Run?
    ensures var plan := Consider(p, m, hook);
            !plan.m.Run? && (NamedParse(plan.m) ==> plan.m.name !in plan.pump.registry)
  {
  }

  lemma PassMirror(x: Client, m: Frontend, o: Outcome, hook: Hook, supply: Option<Conn>)
    requires MirrorInv(x.pump, x.seen) && !m.Run?
    requires supply.Some? ==> ParkedClean(supply.value, x.seen.origin.defaults)
    requires Consider(x.pump, m, hook).Pass? && (Consider(x.pump, m, hook).pump.lease.Some? || supply.Some?)
    ensures MirrorInv(OnFrontend(x.pump, m, o, hook, supply, false).pump, SeenMessage(x, m, o, hook, supply, false))
  {
    var q, m' := Consider(x.pump, m, hook).pump, Consider(x.pump, m, hook).m;
    PlanIsClientMessage(x.pump, m, hook);
    PlanMirrors(x.pump, x.seen, m, hook, supply);
    PassFields(q, m', o, supply);
    PassSeen(x, m, o, hook, supply);
    RanMirror(Leased(q, supply), x.seen, m', o, OnFrontend(x.pump, m, o, hook, supply, false).pump,
              SeenMessage(x, m, o, hook, supply, false));
  }

  /** A client message keeps the mirror. */
  lemma MessageMirror(x: Client, m: Frontend, o: Outcome, hook: Hook, supply: Option<Conn>, fault: bool)
    requires MirrorInv(x.pump, x.seen) && !m.Run?
    requires supply.Some? ==> ParkedClean(supply.value, x.seen.origin.defaults)
    requires Consider(x.pump, m, hook).Scattered? && x.pump.lease.Some? ==> Open(x.pump.lease.value)
    requires !OnFrontend(x.pump, m, o, hook, supply, fault).ended
    ensures var y := OnMessage(x, m, o, hook, supply, fault); MirrorInv(y.pump, y.seen)
  {
    match Consider(x.pump, m, hook)
    case Answer(_, told) =>
      AnswerSeen(x, m, o, hook, supply, fault);
      AnswerMirror(x.pump, x.seen, m, hook, Hear(Send1(x.seen, m, o), told));
    case Pass(_, _) =>
      if fault {
        FaultSeen(x, m, o, hook, supply);
        RestartMirrors(OnMessage(x, m, o, hook, supply, fault).pump, OnMessage(x, m, o, hook, supply, fault).seen);
      } else {
        PassMirror(x, m, o, hook, supply);
      }
    case Scattered(_, _, _) => LegMirror(x, m, o, hook, supply, fault);
  }

  /** A leg that does no harm leaves the session's connection where the dedicated one is. */
  lemma HarmlessAttunes(c: Conn, leg: LegRun, d: Reaction, p: Pump, t: Trace)
    requires Attuned(c, d, p, t) && Open(c) && LegRan(c, leg).Some? && Harmless(c, leg)
    ensures Attuned(LegRan(c, leg).value, d, p, t)
  {
    var f, e := Flushed(c), LegRan(c, leg).value;
    LegResult(c, leg);
    FlushedNothing(e);
    assert Statuses([]) == [];
    assert f.server.stmts - leg.o.dealloc == f.server.stmts;
    assert e.server == f.server;
  }

  lemma LegMirror(x: Client, m: Frontend, o: Outcome, hook: Hook, supply: Option<Conn>, fault: bool)
    requires MirrorInv(x.pump, x.seen) && Consider(x.pump, m, hook).Scattered?
    requires x.pump.lease.Some? ==> Open(x.pump.lease.value)
    ensures var y := OnMessage(x, m, o, hook, supply, fault); MirrorInv(y.pump, y.seen)
  {
    var p, t, plan, y := x.pump, x.seen, Consider(x.pump, m, hook), OnMessage(x, m, o, hook, supply, fault);
    PlanKeeps(p, m, hook);
    if plan.pump.lease.None? {
      RestartMirrors(plan.pump, Hear(Send1(t, m, o), plan.told));
    } else if y.seen.intact && y.seen.solo {
      var d := Dedicated(t.origin, t.history);
      HarmlessAttunes(p.lease.value, plan.leg, d, p, t);
      AttunedFrame(plan.pump.lease.value, d, p, t, y.pump, y.seen);
    }
  }

  lemma ReadNotes(p: Pump)
    requires p.lease.Some? && p.lease.value.unread != []
    requires p.lease.value.unread[0].ParameterStatus?
    ensures OnBackend(p).pump.overrides == Note(p.overrides, p.lease.value.unread[0])
    ensures OnBackend(p).pump.startup == p.startup
  {
  }

  lemma ReadKeepsNotes(p: Pump)
    requires p.lease.Some? && p.lease.value.unread != []
    requires !p.lease.value.unread[0].ParameterStatus? && !p.lease.value.unread[0].ParameterReset?
    ensures OnBackend(p).pump.overrides == p.overrides
    ensures OnBackend(p).pump.startup == p.startup
  {
  }

  lemma ReadOverrides(p: Pump, t: Trace)
    requires p.lease.Some? && p.lease.value.unread != [] && !p.lease.value.unread[0].ParameterReset?
    requires p.overrides == Reported(t.carried, t.relayed)
    ensures OnBackend(p).pump.overrides == Reported(t.carried, t.relayed + [p.lease.value.unread[0]])
    ensures OnBackend(p).pump.startup == p.startup
  {
    var m := p.lease.value.unread[0];
    if m.ParameterStatus? {
      ReadNotes(p);
    } else {
      ReadKeepsNotes(p);
    }
    assert (t.relayed + [m])[..|t.relayed|] == t.relayed;
  }

  lemma MirrorHolds(q: Pump, u: Trace, c: Conn, d: Reaction)
    requires Grounded(q, u) && d == Dedicated(u.origin, u.history)
    requires q.registry == d.server.stmts && q.overrides == Reported(u.carried, u.relayed)
    requires q.lease == Some(c) && Attuned(c, d, q, u)
    ensures MirrorInv(q, u)
  {
  }

  lemma MirrorDetached(q: Pump, u: Trace, c: Conn, d: Reaction)
    requires Grounded(q, u) && d == Dedicated(u.origin, u.history)
    requires q.registry == d.server.stmts && q.overrides == Reported(u.carried, u.relayed)
    requires q.lease.None? && Attuned(c, d, q, u) && AtBoundary(c) && c.server.tx.Idle?
    ensures MirrorInv(q, u)
  {
    FlushedNothing(c);
  }

  lemma ReadMirrored(x: Client, d: Reaction)
    requires MirrorInv(x.pump, x.seen) && x.seen.intact && x.seen.solo && d == Dedicated(x.seen.origin, x.seen.history)
    requires x.pump.lease.Some? && x.pump.lease.value.unread != []
    ensures var p, t, m := x.pump, x.seen, x.pump.lease.value.unread[0];
            var u := t.(relayed := t.relayed + [m]);
            && !m.ParameterReset?
            && Attuned(Next(p.lease.value), d, p, u)
            && OnBackend(p).pump.overrides == Reported(u.carried, u.relayed)
            && OnBackend(p).pump.startup == p.startup
  {
    ReadMirrors(x.pump.lease.value, d, x.pump, x.seen);
    DedicatedParams(x.pump, x.seen);
    ReadOverrides(x.pump, x.seen);
  }

  lemma ResponseSeen(x: Client)
    requires x.pump.lease.Some? && x.pump.lease.value.unread != []
    ensures var t, u := x.seen, OnResponse(x).seen;
            && u.relayed == t.relayed + [x.pump.lease.value.unread[0]]
            && u.origin == t.origin && u.carried == t.carried && u.history == t.history
            && u.intact == t.intact && u.solo == t.solo
  {
    if x.pump.lease.value.unread[0].ReadyForQuery? {
      ReadReady(x.pump);
    } else {
      ReadKeeps(x.pump);
    }
  }

  lemma ReadKeepsStartup(p: Pump)
    requires p.lease.Some? && p.lease.value.unread != []
    ensures OnBackend(p).pump.startup == p.startup && OnBackend(p).pump.registry == p.registry
  {
  }

  lemma AttunedFrame(c: Conn, d: Reaction, p: Pump, t: Trace, q: Pump, u: Trace)
    requires Attuned(c, d, p, t)
    requires q.startup == p.startup && u.relayed == t.relayed && u.carried == t.carried
    ensures Attuned(c, d, q, u)
  {
  }

  lemma ReadGoesOn(x: Client, d: Reaction)
    requires MirrorInv(x.pump, x.seen) && x.seen.intact && x.seen.solo && d == Dedicated(x.seen.origin, x.seen.history)
    requires x.pump.lease.Some? && x.pump.lease.value.unread != [] && OnBackend(x.pump).released.None?
    ensures MirrorInv(OnResponse(x).pump, OnResponse(x).seen)
  {
    var p, t, m := x.pump, x.seen, x.pump.lease.value.unread[0];
    ResponseSeen(x);
    ReadMirrored(x, d);
    AttunedFrame(Next(p.lease.value), d, p, t.(relayed := t.relayed + [m]), OnBackend(p).pump, OnResponse(x).seen);
    if m.ReadyForQuery? {
      ReadReady(p);
    } else {
      ReadKeeps(p);
      ReadOther(p);
    }
    MirrorHolds(OnBackend(p).pump, OnResponse(x).seen, Next(p.lease.value), d);
  }

  lemma ReadReleases(x: Client, d: Reaction)
    requires MirrorInv(x.pump, x.seen) && x.seen.intact && x.seen.solo && d == Dedicated(x.seen.origin, x.seen.history)
    requires x.pump.lease.Some? && x.pump.lease.value.unread != [] && OnBackend(x.pump).released.Some?
    requires var c := OnBackend(x.pump).released.value.0; AtBoundary(c) && c.server.tx.Idle?
    ensures MirrorInv(OnResponse(x).pump, OnResponse(x).seen)
  {
    var p, t, m := x.pump, x.seen, x.pump.lease.value.unread[0];
    ResponseSeen(x);
    ReadMirrored(x, d);
    AttunedFrame(Next(p.lease.value), d, p, t.(relayed := t.relayed + [m]), OnBackend(p).pump, OnResponse(x).seen);
    ReadReady(p);
    MirrorDetached(OnBackend(p).pump, OnResponse(x).seen, Next(p.lease.value), d);
  }

  /** Reading one upstream message keeps the mirror. */
  lemma ResponseMirror(x: Client)
    requires MirrorInv(x.pump, x.seen)
    requires x.pump.lease.Some? && x.pump.lease.value.unread != []
    requires var r := OnBackend(x.pump).released; r.Some? ==> AtBoundary(r.value.0) && r.value.0.server.tx.Idle?
    ensures MirrorInv(OnResponse(x).pump, OnResponse(x).seen)
  {
    if !x.seen.intact || !x.seen.solo {
      ResponseSeen(x);
      ReadKeepsStartup(x.pump);
    } else if OnBackend(x.pump).released.None? {
      ReadGoesOn(x, Dedicated(x.seen.origin, x.seen.history));
    } else {
      ReadReleases(x, Dedicated(x.seen.origin, x.seen.history));
    }
  }

  /** Losing the upstream: the mirror restarts from the state the next attach restores. */
  lemma LossMirror(x: Client)
    ensures MirrorInv(OnLoss(x).pump, OnLoss(x).seen)
    ensures OnLoss(x).pump.registry == x.pump.registry && OnLoss(x).pump.overrides == x.pump.overrides
  {
    RestartMirrors(OnUpstreamLost(x.pump).pump, Hear(x.seen, OnUpstreamLost(x.pump).told));
  }

  lemma SameCancel(a: Server, b: Server, o: Outcome)
    requires SameState(a, b)
    ensures SameState(CancelReaction(a, o).server, CancelReaction(b, o).server)
    ensures CancelReaction(a, o).replies == CancelReaction(b, o).replies
    ensures CancelReaction(a, o).server.stmts == a.stmts
  {
    if a.mode.Copying? {
      SameAbort(a, b, o, a.mode.extended);
    }
  }

  /** A cancel request stops the COPY of the dedicated connection as it stops the one of the lease. */
  lemma CancelAttunes(c: Conn, o: Outcome, p: Pump, t: Trace)
    requires Grounded(p, t) && c.fed == []
    requires Attuned(c, Dedicated(t.origin, t.history), p, t)
    ensures Attuned(Cancel(c, o), Dedicated(t.origin, t.history + [Cancelled(o)]), p, t)
  {
    var d, r := Dedicated(t.origin, t.history), CancelReaction(c.server, o);
    DedicatedStep(t.origin, t.history, Cancelled(o));
    FlushedNothing(c);
    FlushedNothing(Cancel(c, o));
    SameCancel(c.server, d.server, o);
    CancelReports(c.server, o);
    CancelReports(d.server, o);
    SameParamsReported(c.server.params, d.server.params, p.startup, Reported(t.carried, d.replies), r.replies);
    ReportedAppend(t.carried, d.replies, r.replies);
    Regroup(t.relayed, c.unread, r.replies);
  }

  /** A cancel request keeps the mirror. */
  lemma CancelMirror(x: Client, o: Outcome)
    requires MirrorInv(x.pump, x.seen)
    requires x.pump.lease.Some? ==> Shape(x.pump.lease.value, x.seen.phase)
    ensures MirrorInv(OnCancel(x, o).pump, OnCancel(x, o).seen)
  {
    if x.pump.lease.Some? {
      CancelShape(x.pump.lease.value, x.seen.phase, o);
      if x.pump.lease.value.server.mode.Copying? {
        CopyCancelMirror(x.pump, x.seen, o);
      } else {
        MirrorFrame(x.pump, x.seen, OnCancel(x, o).pump, x.seen);
      }
    }
  }

  lemma CopyCancelMirror(p: Pump, t: Trace, o: Outcome)
    requires MirrorInv(p, t) && p.lease.Some? && p.lease.value.fed == []
    ensures MirrorInv(p.(lease := Some(Cancel(p.lease.value, o))), t.(history := t.history + [Cancelled(o)]))
  {
    var c, h := p.lease.value, t.history + [Cancelled(o)];
    var q, u := p.(lease := Some(Cancel(c, o))), t.(history := h);
    DedicatedStep(t.origin, t.history, Cancelled(o));
    var d := Dedicated(t.origin, t.history);
    SameCancel(d.server, d.server, o);
    if t.intact && t.solo {
      CancelAttunes(c, o, p, t);
      AttunedFrame(Cancel(c, o), Dedicated(t.origin, h), p, t, q, u);
      MirrorHolds(q, u, Cancel(c, o), Dedicated(t.origin, h));
    }
  }
}

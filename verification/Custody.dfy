/** In every run, whatever clients, hooks and scatters do, each connection is in one place. */
module Custody {
  import opened Protocol
  import opened Connection
  import opened Session
  import opened Phases
  import opened Leases
  import opened Cleanups
  import opened World
  import Places

  function Ids(idle: seq<Conn>): seq<nat> {
    seq(|idle|, i requires 0 <= i < |idle| => idle[i].id)
  }

  function Held(clients: map<nat, Client>): map<nat, nat> {
    map s | s in clients && clients[s].pump.lease.Some? :: clients[s].pump.lease.value.id
  }

  function Lent(legs: map<nat, Leg>): map<nat, nat> {
    map l | l in legs :: legs[l].conn.id
  }

  predicate OnePlace(w: World) {
    Places.Apart(Ids(w.idle), Held(w.clients), Lent(w.legs), w.nextConn)
  }

  predicate Nowhere(w: World, id: nat) {
    Places.Free(Ids(w.idle), Held(w.clients), Lent(w.legs), w.nextConn, id)
  }

  lemma IdsPrefix(idle: seq<Conn>, n: nat)
    requires n <= |idle|
    ensures Ids(idle[..n]) == Ids(idle)[..n]
  {
  }

  lemma IdsWithout(idle: seq<Conn>, i: nat)
    requires i < |idle|
    ensures Ids(idle[..i] + idle[i + 1..]) == Ids(idle)[..i] + Ids(idle)[i + 1..]
  {
  }

  lemma IdsPush(idle: seq<Conn>, c: Conn)
    ensures Ids(idle + [c]) == Ids(idle) + [c.id]
  {
  }

  lemma HeldWithout(clients: map<nat, Client>, sid: nat)
    ensures Held(clients - {sid}) == Held(clients) - {sid}
  {
  }

  lemma HeldWith(clients: map<nat, Client>, sid: nat, x: Client)
    ensures Held(clients[sid := x]) ==
            if x.pump.lease.Some? then Held(clients)[sid := x.pump.lease.value.id] else Held(clients) - {sid}
  {
  }

  lemma LentWithout(legs: map<nat, Leg>, l: nat)
    ensures Lent(legs - {l}) == Lent(legs) - {l}
  {
  }

  lemma LentWith(legs: map<nat, Leg>, l: nat, leg: Leg)
    ensures Lent(legs[l := leg]) == Lent(legs)[l := leg.conn.id]
  {
  }

  /** The log and the counters have no part in where connections are. */
  lemma JournalPlace(w: World, log: seq<Line>, clock: nat, sessions: nat, id: nat)
    ensures var v := w.(log := log, clock := clock, sessions := sessions);
            (OnePlace(w) ==> OnePlace(v)) && (Nowhere(w, id) ==> Nowhere(v, id))
  {
  }

  /** A session may hold nothing, the connection it held, or one that was nowhere. */
  lemma PutPlace(w: World, sid: nat, x: Client)
    requires OnePlace(w)
    requires x.pump.lease.Some? ==>
               var id := x.pump.lease.value.id;
               (sid in Held(w.clients) && Held(w.clients)[sid] == id) || Nowhere(w, id)
    ensures OnePlace(w.(clients := w.clients[sid := x]))
    ensures x.pump.lease.None? && sid in Held(w.clients) ==>
              Nowhere(w.(clients := w.clients[sid := x]), Held(w.clients)[sid])
  {
    var idle, held, lent := Ids(w.idle), Held(w.clients), Lent(w.legs);
    HeldWith(w.clients, sid, x);
    Places.Release(idle, held, lent, w.nextConn, sid);
    if x.pump.lease.Some? {
      Places.Hold(idle, held, lent, w.nextConn, sid, x.pump.lease.value.id);
    }
  }

  lemma DropPlace(w: World, sid: nat)
    requires OnePlace(w)
    ensures OnePlace(w.(clients := w.clients - {sid}))
    ensures sid in Held(w.clients) ==> Nowhere(w.(clients := w.clients - {sid}), Held(w.clients)[sid])
  {
    HeldWithout(w.clients, sid);
    Places.Release(Ids(w.idle), Held(w.clients), Lent(w.legs), w.nextConn, sid);
  }

  /** A session that keeps its connection, or gives it up. */
  lemma UpdatePlace(w: World, sid: nat, x: Client)
    requires OnePlace(w) && sid in w.clients
    requires x.pump.lease.Some? ==>
               w.clients[sid].pump.lease.Some? && w.clients[sid].pump.lease.value.id == x.pump.lease.value.id
    ensures OnePlace(w.(clients := w.clients[sid := x]))
    ensures x.pump.lease.None? && w.clients[sid].pump.lease.Some? ==>
              Nowhere(w.(clients := w.clients[sid := x]), w.clients[sid].pump.lease.value.id)
  {
    PutPlace(w, sid, x);
  }

  lemma ReturnPlace(w: World, c: Conn, d: Option<Conn>, written: seq<Entry>, ret: Return)
    requires OnePlace(w) && Nowhere(w, c.id) && (d.Some? ==> d.value.id == c.id)
    ensures OnePlace(Returned(w, c, d, written, ret))
  {
    if d.Some? && ret.park {
      IdsPush(w.idle, d.value);
      Places.Push(Ids(w.idle), Held(w.clients), Lent(w.legs), w.nextConn, c.id);
    }
  }

  lemma DetachedPlace(w: World, c: Conn, dirty: bool, ret: Return)
    requires OnePlace(w) && Nowhere(w, c.id)
    ensures OnePlace(Detached(w, c, dirty, ret))
  {
    DetachWrites(c, dirty, ret.answers.discard);
    ReturnPlace(w, c, CheckinDetached(c, dirty, ret.answers.discard), DetachEntries(dirty), ret);
  }

  lemma FinishPlace(w: World, sid: nat, p: Pump, ret: Return)
    requires OnePlace(w) && sid in w.clients
    requires p.lease.Some? ==>
               w.clients[sid].pump.lease.Some? && w.clients[sid].pump.lease.value.id == p.lease.value.id
    ensures OnePlace(Finished(w, sid, p, ret))
  {
    DropPlace(w, sid);
    if p.lease.Some? {
      assert Held(w.clients)[sid] == p.lease.value.id;
      SanitizeWrites(p.lease.value, p.hygiene, ret.answers);
      ReturnPlace(w.(clients := w.clients - {sid}), p.lease.value, Sanitize(p.lease.value, p.hygiene, ret.answers),
                  SanitizeEntries(p.lease.value, p.hygiene, ret.answers), ret);
    }
  }

  // ---------------------------------------------------------------- checkouts

  lemma SupplyPlace(w: World, s: Supply)
    requires OnePlace(w) && CanSupply(w, s)
    ensures OnePlace(AfterSupply(w, s))
    ensures Supplied(w, s).Some? ==> Nowhere(AfterSupply(w, s), Supplied(w, s).value.id)
  {
    var n, ids, held, lent := Left(w, s), Ids(w.idle), Held(w.clients), Lent(w.legs);
    IdsPrefix(w.idle, n);
    Places.Close(ids, held, lent, w.nextConn, n);
    if s.Connect? {
      Places.Fresh(ids[..n], held, lent, w.nextConn);
    } else if s.Reuse? {
      Places.Take(ids, held, lent, w.nextConn, n);
    }
  }

  // ---------------------------------------------------------------- messages

  /** Which connection a session holds after a client message. */
  lemma MessageLease(p: Pump, m: Frontend, o: Outcome, hook: Hook, supply: Option<Conn>, fault: bool)
    requires supply.Some? ==> NeedsLease(p, m, hook)
    ensures var turn := OnFrontend(p, m, o, hook, supply, fault);
            turn.pump.lease.Some? ==>
              var id := turn.pump.lease.value.id;
              if p.lease.Some? then id == p.lease.value.id else supply.Some? && id == supply.value.id
  {
    PlanKeeps(p, m, hook);
    match Consider(p, m, hook)
    case Scattered(_, _, leg) => DrainLaw(LegSent(p.lease.value, leg));
    case Pass(q, m') => ForwardedLease(q, m', o, supply, fault);
    case _ =>
  }

  lemma ForwardedLease(q: Pump, m: Frontend, o: Outcome, supply: Option<Conn>, fault: bool)
    ensures var r := Forwarded(q, m, o, supply, fault).pump;
            r.lease.Some? ==>
              if q.lease.Some? then r.lease.value.id == q.lease.value.id
              else supply.Some? && r.lease.value.id == supply.value.id
  {
  }

  lemma NotedPlace(w: World, e: Event)
    requires OnePlace(w) && Enabled(w, e) && e.Speak?
    ensures var u, supply := Noted(w, e), SupplyFor(w, e);
            && OnePlace(u) && u.clients == w.clients
            && (supply.Some? ==> NeedsLease(w.clients[e.sid].pump, e.m, e.hook) && Nowhere(u, supply.value.id))
  {
    var u := Noted(w, e);
    if NeedsLease(w.clients[e.sid].pump, e.m, e.hook) {
      var v := AfterSupply(w, e.supply);
      SupplyPlace(w, e.supply);
      assert u == v.(log := u.log, clock := w.clock + 1);
      JournalPlace(v, u.log, w.clock + 1, v.sessions, if SupplyFor(w, e).Some? then SupplyFor(w, e).value.id else 0);
    } else {
      assert u == w.(log := u.log, clock := w.clock + 1);
      JournalPlace(w, u.log, w.clock + 1, w.sessions, 0);
    }
  }

  lemma SpeakPlace(w: World, e: Event)
    requires OnePlace(w) && Enabled(w, e) && e.Speak?
    ensures OnePlace(SpeakStep(w, e))
  {
    var x, supply, u := w.clients[e.sid], SupplyFor(w, e), Noted(w, e);
    NotedPlace(w, e);
    MessageLease(x.pump, e.m, e.o, e.hook, supply, e.fault);
    if OnFrontend(x.pump, e.m, e.o, e.hook, supply, e.fault).ended {
      MessageEnds(x.pump, e.m, e.o, e.hook, supply, e.fault);
      FinishPlace(u, e.sid, OnMessage(x, e.m, e.o, e.hook, supply, e.fault).pump, e.ret);
    } else {
      PutPlace(u, e.sid, OnMessage(x, e.m, e.o, e.hook, supply, e.fault));
    }
  }

  // ---------------------------------------------------------------- the other events

  lemma ResponseLease(p: Pump)
    requires p.lease.Some? && p.lease.value.unread != []
    ensures var turn := OnBackend(p);
            && (turn.pump.lease.Some? ==> turn.pump.lease.value.id == p.lease.value.id)
            && (turn.released.Some? ==> turn.pump.lease.None? && turn.released.value.0.id == p.lease.value.id)
  {
  }

  lemma ListenPlace(w: World, e: Event)
    requires OnePlace(w) && Enabled(w, e) && e.Listen?
    ensures OnePlace(ListenStep(w, e))
  {
    var x := w.clients[e.sid];
    var turn := OnBackend(x.pump);
    ResponseLease(x.pump);
    if turn.ended {
      FinishPlace(w, e.sid, turn.pump, e.ret);
    } else {
      UpdatePlace(w, e.sid, OnResponse(x));
      if turn.released.Some? {
        DetachedPlace(w.(clients := w.clients[e.sid := OnResponse(x)]), turn.released.value.0, turn.released.value.1,
                      e.ret);
      }
    }
  }

  lemma ShutdownPlace(w: World, e: Event)
    requires OnePlace(w) && Enabled(w, e) && e.Shutdown?
    ensures OnePlace(ShutdownStep(w, e))
  {
    var x := w.clients[e.sid];
    FinishPlace(w, e.sid, x.pump, e.ret);
    UpdatePlace(w, e.sid, x.(pump := OnShutdown(x.pump).pump));
  }

  lemma LegStartsPlace(w: World, e: Event)
    requires OnePlace(w) && Enabled(w, e) && e.LegStarts?
    ensures OnePlace(LegStartsStep(w, e))
  {
    var c, v := Supplied(w, e.supply).value, AfterSupply(w, e.supply);
    var b := LegSynced(c, e.startup);
    SupplyPlace(w, e.supply);
    if LegRan(b, e.run).Some? {
      var d := LegRan(b, e.run).value;
      DrainLaw(LegSent(b, e.run));
      LentWith(v.legs, e.leg, Leg(d, e.run.o.reports != []));
      Places.Lend(Ids(v.idle), Held(v.clients), Lent(v.legs), v.nextConn, e.leg, d.id);
    }
  }

  lemma LegEndsPlace(w: World, e: Event)
    requires OnePlace(w) && Enabled(w, e) && e.LegEnds?
    ensures OnePlace(LegEndsStep(w, e))
  {
    LegGone(w, e.leg);
    if e.back {
      DetachedPlace(w.(legs := w.legs - {e.leg}), w.legs[e.leg].conn, w.legs[e.leg].dirty, e.ret);
    }
  }

  lemma LegGone(w: World, l: nat)
    requires OnePlace(w) && l in w.legs
    ensures var v := w.(legs := w.legs - {l}); OnePlace(v) && Nowhere(v, w.legs[l].conn.id)
  {
    LentWithout(w.legs, l);
    Places.Return(Ids(w.idle), Held(w.clients), Lent(w.legs), w.nextConn, l);
  }

  lemma OpenPlace(w: World, sid: nat, startup: map<string, string>)
    requires OnePlace(w)
    ensures OnePlace(w.(clients := w.clients[sid := Opened(startup, w.defaults)], sessions := w.sessions + 1))
  {
    PutPlace(w, sid, Opened(startup, w.defaults));
  }

  lemma EvictPlace(w: World, i: nat)
    requires OnePlace(w) && i < |w.idle|
    ensures OnePlace(w.(idle := w.idle[..i] + w.idle[i + 1..]))
  {
    IdsWithout(w.idle, i);
    Places.Expire(Ids(w.idle), Held(w.clients), Lent(w.legs), w.nextConn, i);
  }

  lemma StepPlace(w: World, e: Event)
    requires OnePlace(w) && Enabled(w, e)
    ensures OnePlace(Step(w, e))
  {
    match e
    case Opens(sid, startup) => OpenPlace(w, sid, startup);
    case Speak(_, _, _, _, _, _, _) => SpeakPlace(w, e);
    case Listen(_, _) => ListenPlace(w, e);
    case Leave(sid, ret) => FinishPlace(w, sid, w.clients[sid].pump, ret);
    case Lost(sid) => UpdatePlace(w, sid, OnLoss(w.clients[sid]));
    case Broken(sid) => DropPlace(w, sid);
    case CancelRequest(sid, o) => UpdatePlace(w, sid, OnCancel(w.clients[sid], o));
    case Shutdown(_, _) => ShutdownPlace(w, e);
    case LegStarts(_, _, _, _) => LegStartsPlace(w, e);
    case LegEnds(_, _, _) => LegEndsPlace(w, e);
    case Evict(i) => EvictPlace(w, i);
  }

  lemma {:induction false} RunPlace(ws: seq<World>, es: seq<Event>, defaults: map<string, string>, k: nat)
    requires IsRun(ws, es) && ws[0] == Empty(defaults) && k < |ws|
    ensures OnePlace(ws[k])
  {
    if k > 0 {
      RunPlace(ws, es, defaults, k - 1);
      StepPlace(ws[k - 1], es[k - 1]);
    }
  }
}

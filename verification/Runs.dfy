/**
 What runs keep: the pool's invariant in every run, and each client's invariant in every orderly one.
 */
module Runs {
  import opened Protocol
  import opened Connection
  import opened Session
  import opened Phases
  import opened Leases
  import opened Clients
  import opened World

  // ---------------------------------------------------------------- one step, one session

  function Put(clients: map<nat, Client>, sid: nat, ended: bool, x: Client): map<nat, Client> {
    if ended then clients - {sid} else clients[sid := x]
  }

  /** The sessions after an event. */
  function ClientsAfter(w: World, e: Event): map<nat, Client>
    requires Enabled(w, e)
  {
    match e
    case Opens(sid, startup) => w.clients[sid := Opened(startup, w.defaults)]
    case Speak(sid, m, o, hook, _, fault, _) =>
      var x, supply := w.clients[sid], SupplyFor(w, e);
      Put(w.clients, sid, OnFrontend(x.pump, m, o, hook, supply, fault).ended,
          OnMessage(x, m, o, hook, supply, fault))
    case Listen(sid, _) =>
      Put(w.clients, sid, OnBackend(w.clients[sid].pump).ended, OnResponse(w.clients[sid]))
    case Leave(sid, _) => w.clients - {sid}
    case Lost(sid) => w.clients[sid := OnLoss(w.clients[sid])]
    case Broken(sid) => w.clients - {sid}
    case CancelRequest(sid, o) => w.clients[sid := OnCancel(w.clients[sid], o)]
    case Shutdown(sid, _) =>
      var turn := OnShutdown(w.clients[sid].pump);
      Put(w.clients, sid, turn.ended, w.clients[sid].(pump := turn.pump))
    case LegStarts(_, _, _, _) => w.clients
    case LegEnds(_, _, _) => w.clients
    case Evict(_) => w.clients
  }

  lemma ReturnedKeeps(w: World, c: Conn, d: Option<Conn>, written: seq<Entry>, ret: Return)
    ensures var v := Returned(w, c, d, written, ret);
            && v.clients == w.clients && v.defaults == w.defaults && v.legs == w.legs
            && v.nextConn == w.nextConn && v.clock == w.clock
  {
  }

  lemma DetachedKeeps(w: World, c: Conn, dirty: bool, ret: Return)
    ensures var v := Detached(w, c, dirty, ret);
            && v.clients == w.clients && v.defaults == w.defaults && v.legs == w.legs
            && v.nextConn == w.nextConn && v.clock == w.clock
  {
    ReturnedKeeps(w, c, CheckinDetached(c, dirty, ret.answers.discard), DetachEntries(dirty), ret);
  }

  lemma FinishedKeeps(w: World, sid: nat, p: Pump, ret: Return)
    ensures var v := Finished(w, sid, p, ret);
            && v.clients == w.clients - {sid} && v.defaults == w.defaults && v.legs == w.legs
            && v.nextConn == w.nextConn && v.clock == w.clock
  {
    if p.lease.Some? {
      var c := p.lease.value;
      ReturnedKeeps(w.(clients := w.clients - {sid}), c, Sanitize(c, p.hygiene, ret.answers),
                    SanitizeEntries(c, p.hygiene, ret.answers), ret);
    }
  }

  lemma SupplyKeeps(w: World, s: Supply)
    requires CanSupply(w, s)
    ensures var v := AfterSupply(w, s);
            && v.clients == w.clients && v.defaults == w.defaults && v.legs == w.legs
            && v.clock == w.clock && w.nextConn <= v.nextConn
  {
  }

  lemma NotedKeeps(w: World, e: Event)
    requires Enabled(w, e) && e.Speak?
    ensures var v := Noted(w, e);
            && v.clients == w.clients && v.defaults == w.defaults && v.legs == w.legs
            && v.clock == w.clock + 1 && w.nextConn <= v.nextConn
  {
    SupplyKeeps(w, e.supply);
  }

  lemma SpeakClients(w: World, e: Event)
    requires Enabled(w, e) && e.Speak?
    ensures SpeakStep(w, e).clients == ClientsAfter(w, e) && SpeakStep(w, e).defaults == w.defaults
  {
    var x, u := w.clients[e.sid], Noted(w, e);
    NotedKeeps(w, e);
    var turn := OnFrontend(x.pump, e.m, e.o, e.hook, SupplyFor(w, e), e.fault);
    FinishedKeeps(u, e.sid, turn.pump, e.ret);
  }

  lemma ListenClients(w: World, e: Event)
    requires Enabled(w, e) && e.Listen?
    ensures ListenStep(w, e).clients == ClientsAfter(w, e) && ListenStep(w, e).defaults == w.defaults
  {
    var x := w.clients[e.sid];
    var turn := OnBackend(x.pump);
    if turn.ended {
      FinishedKeeps(w, e.sid, turn.pump, e.ret);
    } else if turn.released.Some? {
      var (c, dirty) := turn.released.value;
      DetachedKeeps(w.(clients := w.clients[e.sid := OnResponse(x)]), c, dirty, e.ret);
    }
  }

  lemma ShutdownClients(w: World, e: Event)
    requires Enabled(w, e) && e.Shutdown?
    ensures ShutdownStep(w, e).clients == ClientsAfter(w, e) && ShutdownStep(w, e).defaults == w.defaults
  {
    FinishedKeeps(w, e.sid, OnShutdown(w.clients[e.sid].pump).pump, e.ret);
  }

  lemma LegClients(w: World, e: Event)
    requires Enabled(w, e) && (e.LegStarts? || e.LegEnds?)
    ensures Step(w, e).clients == w.clients && Step(w, e).defaults == w.defaults
  {
    if e.LegStarts? {
      SupplyKeeps(w, e.supply);
    } else {
      var l := w.legs[e.leg];
      DetachedKeeps(w.(legs := w.legs - {e.leg}), l.conn, l.dirty, e.ret);
    }
  }

  lemma StepClients(w: World, e: Event)
    requires Enabled(w, e)
    ensures Step(w, e).clients == ClientsAfter(w, e) && Step(w, e).defaults == w.defaults
  {
    match e
    case Opens(_, _) =>
    case Speak(_, _, _, _, _, _, _) => SpeakClients(w, e);
    case Listen(_, _) => ListenClients(w, e);
    case Leave(sid, ret) => FinishedKeeps(w, sid, w.clients[sid].pump, ret);
    case Lost(_) =>
    case Broken(_) =>
    case CancelRequest(_, _) =>
    case Shutdown(_, _) => ShutdownClients(w, e);
    case LegStarts(_, _, _, _) => LegClients(w, e);
    case LegEnds(_, _, _) => LegClients(w, e);
    case Evict(_) =>
  }

  /** The session whose event this is. */
  predicate Concerns(e: Event, sid: nat) {
    match e
    case LegStarts(_, _, _, _) => false
    case LegEnds(_, _, _) => false
    case Evict(_) => false
    case _ => e.sid == sid
  }

  lemma Elsewhere(w: World, e: Event, sid: nat)
    requires Enabled(w, e) && !Concerns(e, sid)
    ensures sid in Step(w, e).clients <==> sid in w.clients
    ensures sid in w.clients ==> Step(w, e).clients[sid] == w.clients[sid]
  {
    StepClients(w, e);
  }

  lemma SpeakResult(w: World, e: Event)
    requires Enabled(w, e) && e.Speak?
    ensures var x := w.clients[e.sid];
            var turn := OnFrontend(x.pump, e.m, e.o, e.hook, SupplyFor(w, e), e.fault);
            && (e.sid in Step(w, e).clients <==> !turn.ended)
            && (!turn.ended ==>
                  Step(w, e).clients[e.sid] == OnMessage(x, e.m, e.o, e.hook, SupplyFor(w, e), e.fault))
  {
    StepClients(w, e);
  }

  lemma ListenResult(w: World, e: Event)
    requires Enabled(w, e) && e.Listen?
    ensures e.sid in Step(w, e).clients <==> !OnBackend(w.clients[e.sid].pump).ended
    ensures e.sid in Step(w, e).clients ==> Step(w, e).clients[e.sid] == OnResponse(w.clients[e.sid])
  {
    StepClients(w, e);
  }

  /** What the other events make of their session. */
  lemma OtherResult(w: World, e: Event, sid: nat)
    requires Enabled(w, e) && Concerns(e, sid) && !e.Speak? && !e.Listen? && sid in Step(w, e).clients
    ensures var y := Step(w, e).clients[sid];
            match e
            case Opens(_, startup) => y == Opened(startup, w.defaults)
            case Lost(_) => y == OnLoss(w.clients[sid])
            case CancelRequest(_, o) => y == OnCancel(w.clients[sid], o)
            case Shutdown(_, _) =>
              !OnShutdown(w.clients[sid].pump).ended &&
              y == w.clients[sid].(pump := w.clients[sid].pump.(draining := true))
            case _ => false
  {
    StepClients(w, e);
  }

  lemma StepDefaults(w: World, e: Event)
    requires Enabled(w, e)
    ensures Step(w, e).defaults == w.defaults
  {
    StepClients(w, e);
  }

  lemma {:induction false} RunDefaults(ws: seq<World>, es: seq<Event>, k: nat)
    requires IsRun(ws, es) && k < |ws|
    ensures ws[k].defaults == ws[0].defaults
  {
    if k > 0 {
      RunDefaults(ws, es, k - 1);
      StepDefaults(ws[k - 1], es[k - 1]);
    }
  }

  // ---------------------------------------------------------------- orderly steps

  lemma SuppliedClean(w: World, e: Event)
    requires SafeInv(w) && Enabled(w, e) && e.Speak? && SupplyFor(w, e).Some?
    ensures ParkedClean(SupplyFor(w, e).value, w.defaults)
  {
    SupplySafe(w, e.supply);
  }

  lemma SpeakInv(w: World, e: Event)
    requires WorldInv(w) && Enabled(w, e) && InStep(w, e) && e.Speak? && e.sid in Step(w, e).clients
    ensures ClientInv(Step(w, e).clients[e.sid], w.defaults)
  {
    var supply := SupplyFor(w, e);
    if supply.Some? {
      SuppliedClean(w, e);
    }
    SpeakResult(w, e);
    MessageInv(w.clients[e.sid], e.m, e.o, e.hook, supply, e.fault, w.defaults);
  }

  lemma ListenInv(w: World, e: Event)
    requires WorldInv(w) && Enabled(w, e) && e.Listen? && e.sid in Step(w, e).clients
    ensures ClientInv(Step(w, e).clients[e.sid], w.defaults)
  {
    ListenResult(w, e);
    ResponseInv(w.clients[e.sid], w.defaults);
  }

  lemma OtherInv(w: World, e: Event, sid: nat)
    requires Enabled(w, e) && InStep(w, e) && (sid in w.clients ==> ClientInv(w.clients[sid], w.defaults))
    requires Concerns(e, sid) && !e.Speak? && !e.Listen? && sid in Step(w, e).clients
    ensures ClientInv(Step(w, e).clients[sid], w.defaults)
  {
    OtherResult(w, e, sid);
    match e
    case Opens(_, startup) => OpenedInv(startup, w.defaults);
    case Lost(_) => LossInv(w.clients[sid], w.defaults);
    case CancelRequest(_, o) => CancelInv(w.clients[sid], o, w.defaults);
    case Shutdown(_, _) => DrainInv(w.clients[sid], w.clients[sid].pump.(draining := true), w.defaults);
  }

  lemma ClientStep(w: World, e: Event, sid: nat)
    requires WorldInv(w) && Enabled(w, e) && InStep(w, e) && sid in Step(w, e).clients
    ensures ClientInv(Step(w, e).clients[sid], w.defaults)
  {
    if !Concerns(e, sid) {
      Elsewhere(w, e, sid);
    } else if e.Speak? {
      SpeakInv(w, e);
    } else if e.Listen? {
      ListenInv(w, e);
    } else {
      OtherInv(w, e, sid);
    }
  }

  /** Every orderly event of every session, of the scatter legs and of the pool keeps the invariant. */
  lemma StepInv(w: World, e: Event)
    requires WorldInv(w) && Enabled(w, e) && Fair(w, e) && InStep(w, e)
    ensures WorldInv(Step(w, e))
  {
    StepSafe(w, e);
    StepDefaults(w, e);
    forall sid | sid in Step(w, e).clients ensures ClientInv(Step(w, e).clients[sid], w.defaults) {
      ClientStep(w, e, sid);
    }
  }

  /** In every state of every orderly run. */
  lemma {:induction false} RunInv(ws: seq<World>, es: seq<Event>, defaults: map<string, string>, k: nat)
    requires IsOrderlyRun(ws, es) && ws[0] == Empty(defaults) && k < |ws|
    ensures WorldInv(ws[k])
  {
    if k > 0 {
      RunInv(ws, es, defaults, k - 1);
      StepInv(ws[k - 1], es[k - 1]);
    }
  }
}

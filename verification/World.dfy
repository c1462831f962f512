/**
 Any number of sessions in transaction mode, and any number of scatter legs, sharing one pool: a state
 machine whose labels are the events of all sessions, of the legs and of the pool, in any order. Every
 choice the code does not make itself (what clients send, what servers do, what hooks decide, what
 breaks, what expires) is in the label.

 A run asks nothing of anyone. In a fair run clients wait for their answers, and a scatter leg leaves
 nothing behind that its dirty flag does not tell of. In an orderly run, besides, losses and refusals
 meet the client where the code can answer them in step.
 */
module World {
  import opened Protocol
  import opened Connection
  import opened Session
  import opened Shapes
  import opened Phases
  import opened Leases
  import opened Clients

  /** A connection lent to a scatter leg, after the leg's query, and whether the query changed a parameter. */
  datatype Leg = Leg(conn: Conn, dirty: bool)

  /** One message or replay written to a connection, and the session it was written for, if any. */
  datatype Line = Line(conn: nat, session: Option<nat>, entry: Entry)

  /** `sessions` numbers sessions and `clock` numbers client messages, in the order they come. */
  datatype World = World(
    defaults: map<string, string>,
    idle: seq<Conn>,
    clients: map<nat, Client>,
    legs: map<nat, Leg>,
    nextConn: nat,
    log: seq<Line>,
    clock: nat,
    sessions: nat)

  /** What a checkout does to the idle stack: reuse an idle connection below `skip` closed ones, connect
      when none is left, or fail after closing `skip`. The stale ones it meets are probed. */
  datatype Supply =
    | Reuse(skip: nat, probed: set<nat>)
    | Connect(probed: set<nat>)
    | Fail(skip: nat, probed: set<nat>)

  /** What happens to a connection on its way back to the pool. */
  datatype Return = Return(answers: Answers, park: bool)

  datatype Event =
    | Opens(sid: nat, startup: map<string, string>)
    | Speak(sid: nat, m: Frontend, o: Outcome, hook: Hook, supply: Supply, fault: bool, ret: Return)
    | Listen(sid: nat, ret: Return)
    | Leave(sid: nat, ret: Return)
    | Lost(sid: nat)
    | Broken(sid: nat)
    | CancelRequest(sid: nat, o: Outcome)
    | Shutdown(sid: nat, ret: Return)
    | LegStarts(leg: nat, startup: map<string, string>, run: LegRun, supply: Supply)
    | LegEnds(leg: nat, back: bool, ret: Return)
    | Evict(index: nat)

  // ---------------------------------------------------------------- steps

  predicate NeedsLease(p: Pump, m: Frontend, hook: Hook) {
    p.lease.None? && Consider(p, m, hook).Pass?
  }

  predicate CanSupply(w: World, s: Supply) {
    match s
    case Reuse(skip, _) => skip < |w.idle|
    case Connect(_) => true
    case Fail(skip, _) => skip <= |w.idle|
  }

  /** How many idle connections a checkout does not look at. */
  function Left(w: World, s: Supply): nat
    requires CanSupply(w, s)
  {
    match s
    case Reuse(skip, _) => |w.idle| - 1 - skip
    case Connect(_) => 0
    case Fail(skip, _) => |w.idle| - skip
  }

  function Met(c: Conn, probed: set<nat>): Conn {
    if c.id in probed then Probed(c) else c
  }

  function Supplied(w: World, s: Supply): Option<Conn>
    requires CanSupply(w, s)
  {
    match s
    case Reuse(_, probed) => Some(Met(w.idle[Left(w, s)], probed))
    case Connect(_) => Some(Connected(w.nextConn, w.defaults))
    case Fail(_, _) => None
  }

  /** The probes of a checkout, from the top of the stack down. */
  function Probes(popped: seq<Conn>, probed: set<nat>): seq<Line> {
    if popped == [] then []
    else
      var c := popped[|popped| - 1];
      (if c.id in probed then [Line(c.id, None, Own(Sync))] else []) + Probes(popped[..|popped| - 1], probed)
  }

  function AfterSupply(w: World, s: Supply): World
    requires CanSupply(w, s)
  {
    w.(idle := w.idle[..Left(w, s)],
       nextConn := if s.Connect? then w.nextConn + 1 else w.nextConn,
       log := w.log + Probes(w.idle[Left(w, s)..], s.probed))
  }

  /** What the wire of `d` has more than the wire of `c`. */
  function Added(c: Conn, d: Conn): seq<Entry> {
    if |c.wire| <= |d.wire| then d.wire[|c.wire|..] else []
  }

  function Lines(conn: nat, session: Option<nat>, entries: seq<Entry>): seq<Line> {
    seq(|entries|, i requires 0 <= i < |entries| => Line(conn, session, entries[i]))
  }

  /** Note what was written to a connection. */
  function Logged(w: World, conn: nat, session: Option<nat>, entries: seq<Entry>): World {
    w.(log := w.log + Lines(conn, session, entries))
  }

  /** The connection `c` comes back as `d`, with `written` written to it; it is parked unless it is past its
      lifetime, and closed if it did not survive its clean-up. */
  function Returned(w: World, c: Conn, d: Option<Conn>, written: seq<Entry>, ret: Return): World {
    var v := Logged(w, c.id, None, written);
    if d.Some? && ret.park then v.(idle := v.idle + [d.value]) else v
  }

  /** A connection is given back by a detach or a scatter leg. */
  function Detached(w: World, c: Conn, dirty: bool, ret: Return): World {
    Returned(w, c, CheckinDetached(c, dirty, ret.answers.discard), DetachEntries(dirty), ret)
  }

  /** The session is over; its lease, if any, goes through `checkin`. */
  function Finished(w: World, sid: nat, p: Pump, ret: Return): World {
    var v := w.(clients := w.clients - {sid});
    if p.lease.Some? then
      Returned(v, p.lease.value, Sanitize(p.lease.value, p.hygiene, ret.answers),
               SanitizeEntries(p.lease.value, p.hygiene, ret.answers), ret)
    else v
  }

  predicate Enabled(w: World, e: Event) {
    match e
    case Opens(sid, _) => sid == w.sessions && sid !in w.clients
    case Speak(sid, m, o, _, supply, _, _) =>
      sid in w.clients && CanSupply(w, supply) && o.serial == w.clock && !m.Run?
    case Listen(sid, _) =>
      sid in w.clients && w.clients[sid].pump.lease.Some? && w.clients[sid].pump.lease.value.unread != []
    case Leave(sid, _) => sid in w.clients
    case Lost(sid) => sid in w.clients && w.clients[sid].pump.lease.Some?
    case Broken(sid) => sid in w.clients && w.clients[sid].pump.lease.Some?
    case CancelRequest(sid, _) => sid in w.clients
    case Shutdown(sid, _) => sid in w.clients
    case LegStarts(leg, _, _, supply) => leg !in w.legs && CanSupply(w, supply) && Supplied(w, supply).Some?
    case LegEnds(leg, _, _) => leg in w.legs
    case Evict(i) => i < |w.idle|
  }

  function SupplyFor(w: World, e: Event): Option<Conn>
    requires e.Speak? && e.sid in w.clients && CanSupply(w, e.supply)
  {
    if NeedsLease(w.clients[e.sid].pump, e.m, e.hook) then Supplied(w, e.supply) else None
  }

  /** Clients wait for their answers, a leg on a session's own connection reports nothing that the dirty flag does
      not tell of, and a pooled leg gives back no open transaction that DISCARD ALL would not be run in. */
  predicate Fair(w: World, e: Event)
    requires Enabled(w, e)
  {
    match e
    case Speak(sid, m, _, hook, _, _, _) =>
      && MaySend(w.clients[sid].seen.phase, m)
      && PlanTold(w.clients[sid].pump, Consider(w.clients[sid].pump, m, hook))
    case LegEnds(leg, back, _) => back ==> w.legs[leg].dirty || w.legs[leg].conn.server.tx.Idle?
    case _ => true
  }

  /** The event is answered in step: what the code's own handling of refusals and losses takes for granted. */
  predicate InStep(w: World, e: Event)
    requires Enabled(w, e)
  {
    match e
    case Speak(sid, m, o, hook, _, fault, _) =>
      Orderly(w.clients[sid].pump, w.clients[sid].seen.phase, m, o, hook, SupplyFor(w, e), fault)
    case Lost(sid) =>
      LossInStep(w.clients[sid].seen.phase, w.clients[sid].pump, w.clients[sid].pump.hygiene.awaiting)
    case _ => true
  }

  /** What a client message brings to a connection. */
  function SpeakLogged(w: World, sid: nat, p: Pump, m: Frontend, o: Outcome, hook: Hook, supply: Option<Conn>): World {
    var plan := Consider(p, m, hook);
    if plan.Pass? && (p.lease.Some? || supply.Some?) && (plan.pump.lease.Some? || supply.Some?) then
      var c := if p.lease.Some? then p.lease.value else supply.value;
      Logged(w, c.id, Some(sid), Added(c, Written(Leased(plan.pump, supply).lease.value, plan.m, o)))
    else if plan.Scattered? && p.lease.Some? then
      Logged(w, p.lease.value.id, Some(sid), [LegQuery(plan.leg.sql)])
    else w
  }

  /** The pool and the log after the checkout and the write of a client message. */
  function Noted(w: World, e: Event): World
    requires e.Speak? && Enabled(w, e)
  {
    var p := w.clients[e.sid].pump;
    var v := if NeedsLease(p, e.m, e.hook) then AfterSupply(w, e.supply) else w;
    SpeakLogged(v, e.sid, p, e.m, e.o, e.hook, SupplyFor(w, e)).(clock := w.clock + 1)
  }

  function Concluded(w: World, sid: nat, ended: bool, y: Client, ret: Return): World {
    if ended then Finished(w, sid, y.pump, ret) else w.(clients := w.clients[sid := y])
  }

  function SpeakStep(w: World, e: Event): World
    requires e.Speak? && Enabled(w, e)
  {
    var x, supply := w.clients[e.sid], SupplyFor(w, e);
    Concluded(Noted(w, e), e.sid, OnFrontend(x.pump, e.m, e.o, e.hook, supply, e.fault).ended,
              OnMessage(x, e.m, e.o, e.hook, supply, e.fault), e.ret)
  }

  function ListenStep(w: World, e: Event): World
    requires e.Listen? && Enabled(w, e)
  {
    var x := w.clients[e.sid];
    var turn := OnBackend(x.pump);
    if turn.ended then Finished(w, e.sid, turn.pump, e.ret)
    else
      var v := w.(clients := w.clients[e.sid := OnResponse(x)]);
      if turn.released.Some? then
        var (c, dirty) := turn.released.value;
        Detached(v, c, dirty, e.ret)
      else v
  }

  function ShutdownStep(w: World, e: Event): World
    requires e.Shutdown? && Enabled(w, e)
  {
    var turn := OnShutdown(w.clients[e.sid].pump);
    if turn.ended then Finished(w, e.sid, turn.pump, e.ret)
    else w.(clients := w.clients[e.sid := w.clients[e.sid].(pump := turn.pump)])
  }

  /** A scatter leg sets the session's tracked parameters on its connection. */
  function LegSynced(c: Conn, startup: map<string, string>): Conn {
    var sets := Differing(c.cache, Named(startup));
    c.(server := c.server.(params := c.cache + sets), cache := c.cache + sets,
       wire := c.wire + [Replay(sets, map[])])
  }

  /** A scatter leg takes a connection, prepares it, and runs its query to the end. */
  function LegStartsStep(w: World, e: Event): World
    requires e.LegStarts? && Enabled(w, e)
  {
    var c := Supplied(w, e.supply).value;
    var b := LegSynced(c, e.startup);
    var d := LegRan(b, e.run);
    var v := Logged(AfterSupply(w, e.supply), c.id, None, Added(c, LegSent(b, e.run)));
    if d.Some? then v.(legs := v.legs[e.leg := Leg(d.value, e.run.o.reports != [])]) else v
  }

  function LegEndsStep(w: World, e: Event): World
    requires e.LegEnds? && Enabled(w, e)
  {
    var v := w.(legs := w.legs - {e.leg});
    if e.back then Detached(v, w.legs[e.leg].conn, w.legs[e.leg].dirty, e.ret) else v
  }

  function Step(w: World, e: Event): World
    requires Enabled(w, e)
  {
    match e
    case Opens(sid, startup) =>
      w.(clients := w.clients[sid := Opened(startup, w.defaults)], sessions := w.sessions + 1)
    case Speak(_, _, _, _, _, _, _) => SpeakStep(w, e)
    case Listen(_, _) => ListenStep(w, e)
    case Leave(sid, ret) => Finished(w, sid, w.clients[sid].pump, ret)
    case Lost(sid) => w.(clients := w.clients[sid := OnLoss(w.clients[sid])])
    case Broken(sid) => w.(clients := w.clients - {sid})
    case CancelRequest(sid, o) => w.(clients := w.clients[sid := OnCancel(w.clients[sid], o)])
    case Shutdown(_, _) => ShutdownStep(w, e)
    case LegStarts(_, _, _, _) => LegStartsStep(w, e)
    case LegEnds(_, _, _) => LegEndsStep(w, e)
    case Evict(i) => w.(idle := w.idle[..i] + w.idle[i + 1..])
  }

  /** The states a run passes through. */
  predicate IsRun(ws: seq<World>, es: seq<Event>) {
    && |ws| == |es| + 1
    && forall i :: 0 <= i < |es| ==> Enabled(ws[i], es[i]) && ws[i + 1] == Step(ws[i], es[i])
  }

  predicate IsFairRun(ws: seq<World>, es: seq<Event>) {
    IsRun(ws, es) && forall i :: 0 <= i < |es| ==> Fair(ws[i], es[i])
  }

  predicate IsOrderlyRun(ws: seq<World>, es: seq<Event>) {
    IsFairRun(ws, es) && forall i :: 0 <= i < |es| ==> InStep(ws[i], es[i])
  }

  function Empty(defaults: map<string, string>): World {
    World(defaults, [], map[], map[], 0, [], 0, 0)
  }

  // ---------------------------------------------------------------- the invariants

  ghost predicate LegOk(l: Leg, defaults: map<string, string>) {
    AtBoundary(l.conn) && LeaseOk(l.conn, map[], l.dirty, defaults)
  }

  /** What every fair run keeps. */
  ghost predicate SafeInv(w: World) {
    && (forall i :: 0 <= i < |w.idle| ==> ParkedClean(w.idle[i], w.defaults))
    && (forall s <- w.clients :: SafeClient(w.clients[s], w.defaults))
    && (forall l <- w.legs :: LegOk(w.legs[l], w.defaults))
  }

  /** What every orderly run keeps. */
  ghost predicate WorldInv(w: World) {
    SafeInv(w) && forall s <- w.clients :: ClientInv(w.clients[s], w.defaults)
  }

  // ---------------------------------------------------------------- every fair step is safe

  lemma PutSafe(w: World, sid: nat, x: Client)
    requires SafeInv(w) && SafeClient(x, w.defaults)
    ensures SafeInv(w.(clients := w.clients[sid := x]))
  {
  }

  lemma DropSafe(w: World, sid: nat)
    requires SafeInv(w)
    ensures SafeInv(w.(clients := w.clients - {sid}))
  {
  }

  /** The log and the counters are no part of what is kept safe. */
  lemma JournalSafe(v: World, log: seq<Line>, clock: nat, sessions: nat)
    requires SafeInv(v)
    ensures SafeInv(v.(log := log, clock := clock, sessions := sessions))
  {
  }

  lemma ReturnSafe(w: World, c: Conn, d: Option<Conn>, written: seq<Entry>, ret: Return)
    requires SafeInv(w) && (d.Some? ==> ParkedClean(d.value, w.defaults))
    ensures SafeInv(Returned(w, c, d, written, ret))
  {
    JournalSafe(w, Logged(w, c.id, None, written).log, w.clock, w.sessions);
  }

  lemma GiveBackSafe(v: World, c: Conn, registry: map<string, Statement>, dirty: bool, ret: Return)
    requires SafeInv(v) && LeaseOk(c, registry, dirty, v.defaults)
    requires AtBoundary(c) && (dirty || c.server.tx.Idle?)
    ensures SafeInv(Detached(v, c, dirty, ret))
  {
    var d := CheckinDetached(c, dirty, ret.answers.discard);
    if d.Some? {
      DetachExactly(c, registry, dirty, ret.answers.discard, v.defaults);
    }
    ReturnSafe(v, c, d, DetachEntries(dirty), ret);
  }

  lemma FinishSafe(w: World, sid: nat, p: Pump, ret: Return)
    requires SafeInv(w) && LeaseInv(p, w.defaults)
    requires p.lease.Some? ==> OnlyPipelined(p.lease.value) && Owed(p.lease.value) <= Allowed(p.hygiene)
    ensures SafeInv(Finished(w, sid, p, ret))
  {
    DropSafe(w, sid);
    if p.lease.Some? {
      var d := Sanitize(p.lease.value, p.hygiene, ret.answers);
      if d.Some? {
        CheckinIsClean(p, ret.answers, w.defaults);
      }
      ReturnSafe(w.(clients := w.clients - {sid}), p.lease.value, d,
                 SanitizeEntries(p.lease.value, p.hygiene, ret.answers), ret);
    }
  }

  lemma SupplySafe(w: World, s: Supply)
    requires SafeInv(w) && CanSupply(w, s)
    ensures SafeInv(AfterSupply(w, s))
    ensures Supplied(w, s).Some? ==> ParkedClean(Supplied(w, s).value, w.defaults)
  {
    if s.Reuse? {
      MetClean(w.idle[Left(w, s)], s.probed, w.defaults);
    }
  }

  lemma MetClean(c: Conn, probed: set<nat>, defaults: map<string, string>)
    requires ParkedClean(c, defaults)
    ensures ParkedClean(Met(c, probed), defaults)
  {
  }

  lemma SpeakOn(u: World, sid: nat, m: Frontend, o: Outcome, hook: Hook, supply: Option<Conn>, fault: bool)
    requires SafeInv(u) && sid in u.clients && (supply.Some? ==> ParkedClean(supply.value, u.defaults))
    requires MaySend(u.clients[sid].seen.phase, m)
    requires PlanTold(u.clients[sid].pump, Consider(u.clients[sid].pump, m, hook))
    requires !OnFrontend(u.clients[sid].pump, m, o, hook, supply, fault).ended
    ensures SafeInv(u.(clients := u.clients[sid := OnMessage(u.clients[sid], m, o, hook, supply, fault)]))
  {
    MessageSafe(u.clients[sid], m, o, hook, supply, fault, u.defaults);
    PutSafe(u, sid, OnMessage(u.clients[sid], m, o, hook, supply, fault));
  }

  /** A message that ends its session leaves the lease alone. */
  lemma MessageEnds(p: Pump, m: Frontend, o: Outcome, hook: Hook, supply: Option<Conn>, fault: bool)
    requires OnFrontend(p, m, o, hook, supply, fault).ended
    ensures var q := OnFrontend(p, m, o, hook, supply, fault).pump; q == p.(extended := q.extended)
  {
    PlanKeeps(p, m, hook);
  }

  lemma SpeakEnds(u: World, sid: nat, m: Frontend, o: Outcome, hook: Hook, supply: Option<Conn>, fault: bool,
                  ret: Return)
    requires SafeInv(u) && sid in u.clients
    requires OnFrontend(u.clients[sid].pump, m, o, hook, supply, fault).ended
    ensures SafeInv(Finished(u, sid, OnFrontend(u.clients[sid].pump, m, o, hook, supply, fault).pump, ret))
  {
    var x := u.clients[sid];
    MessageEnds(x.pump, m, o, hook, supply, fault);
    if x.pump.lease.Some? {
      SafeToCheckIn(x, u.defaults);
    }
    FinishSafe(u, sid, OnFrontend(x.pump, m, o, hook, supply, fault).pump, ret);
  }

  lemma SpeakSafe(w: World, e: Event)
    requires SafeInv(w) && Enabled(w, e) && Fair(w, e) && e.Speak?
    ensures SafeInv(SpeakStep(w, e))
  {
    var supply, u := SupplyFor(w, e), Noted(w, e);
    NotedSafe(w, e);
    if OnFrontend(w.clients[e.sid].pump, e.m, e.o, e.hook, supply, e.fault).ended {
      SpeakEnds(u, e.sid, e.m, e.o, e.hook, supply, e.fault, e.ret);
    } else {
      SpeakOn(u, e.sid, e.m, e.o, e.hook, supply, e.fault);
    }
  }

  lemma NotedSafe(w: World, e: Event)
    requires SafeInv(w) && Enabled(w, e) && e.Speak?
    ensures var u, supply := Noted(w, e), SupplyFor(w, e);
            && SafeInv(u) && u.clients == w.clients && u.defaults == w.defaults
            && (supply.Some? ==> ParkedClean(supply.value, w.defaults))
  {
    var u := Noted(w, e);
    if NeedsLease(w.clients[e.sid].pump, e.m, e.hook) {
      SupplySafe(w, e.supply);
      assert u == AfterSupply(w, e.supply).(log := u.log, clock := w.clock + 1);
      JournalSafe(AfterSupply(w, e.supply), u.log, w.clock + 1, w.sessions);
    } else {
      assert u == w.(log := u.log, clock := w.clock + 1);
      JournalSafe(w, u.log, w.clock + 1, w.sessions);
    }
  }

  lemma ListenSafe(w: World, e: Event)
    requires SafeInv(w) && Enabled(w, e) && e.Listen?
    ensures SafeInv(ListenStep(w, e))
  {
    var x := w.clients[e.sid];
    var turn := OnBackend(x.pump);
    ResponseSafe(x, w.defaults);
    BackendLease(x.pump, w.defaults);
    if turn.ended {
      FinishSafe(w, e.sid, turn.pump, e.ret);
    } else {
      PutSafe(w, e.sid, OnResponse(x));
      if turn.released.Some? {
        var (c, dirty) := turn.released.value;
        GiveBackSafe(w.(clients := w.clients[e.sid := OnResponse(x)]), c, x.pump.registry, dirty, e.ret);
      }
    }
  }

  lemma LeaveSafe(w: World, sid: nat, ret: Return)
    requires SafeInv(w) && sid in w.clients
    ensures SafeInv(Finished(w, sid, w.clients[sid].pump, ret))
  {
    var x := w.clients[sid];
    if x.pump.lease.Some? {
      SafeToCheckIn(x, w.defaults);
    }
    FinishSafe(w, sid, x.pump, ret);
  }

  lemma OpenSafe(w: World, sid: nat, startup: map<string, string>)
    requires SafeInv(w)
    ensures SafeInv(w.(clients := w.clients[sid := Opened(startup, w.defaults)], sessions := w.sessions + 1))
  {
    var v := w.(clients := w.clients[sid := Opened(startup, w.defaults)]);
    OpenedInv(startup, w.defaults);
    PutSafe(w, sid, Opened(startup, w.defaults));
    JournalSafe(v, v.log, v.clock, w.sessions + 1);
  }

  lemma LostSafe(w: World, sid: nat)
    requires SafeInv(w) && sid in w.clients
    ensures SafeInv(w.(clients := w.clients[sid := OnLoss(w.clients[sid])]))
  {
    LossSafe(w.clients[sid], w.defaults);
    PutSafe(w, sid, OnLoss(w.clients[sid]));
  }

  lemma CancelledSafe(w: World, sid: nat, o: Outcome)
    requires SafeInv(w) && sid in w.clients
    ensures SafeInv(w.(clients := w.clients[sid := OnCancel(w.clients[sid], o)]))
  {
    CancelSafe(w.clients[sid], o, w.defaults);
    PutSafe(w, sid, OnCancel(w.clients[sid], o));
  }

  lemma ShutdownSafe(w: World, e: Event)
    requires SafeInv(w) && Enabled(w, e) && e.Shutdown?
    ensures SafeInv(ShutdownStep(w, e))
  {
    var x := w.clients[e.sid];
    var turn := OnShutdown(x.pump);
    if turn.ended {
      LeaveSafe(w, e.sid, e.ret);
    } else {
      DrainInv(x, turn.pump, w.defaults);
      PutSafe(w, e.sid, x.(pump := turn.pump));
    }
  }

  /** A leg leaves its connection between cycles, with nothing on it that its dirty flag does not tell. */
  lemma LegConnOk(c: Conn, startup: map<string, string>, run: LegRun, defaults: map<string, string>)
    requires ParkedClean(c, defaults) && LegRan(LegSynced(c, startup), run).Some?
    ensures LegOk(Leg(LegRan(LegSynced(c, startup), run).value, run.o.reports != []), defaults)
  {
    var b := LegSynced(c, startup);
    FlushedNothing(b);
    BoundaryIsOpen(b);
    LegBaseline(c.cache, startup, defaults);
    LegResult(b, run);
    LegLease(b, run, map[], run.o.reports != [], defaults);
  }

  lemma LegBaseline(cache: map<string, string>, startup: map<string, string>, defaults: map<string, string>)
    requires AtBaseline(cache, defaults)
    ensures AtBaseline(cache + Differing(cache, Named(startup)), defaults)
  {
    var sets := Differing(cache, Named(startup));
    forall n: string | n !in TRACKED ensures Lookup(cache + sets, n) == Lookup(defaults, n) {
      assert n !in sets;
    }
  }

  lemma LegStartsSafe(w: World, e: Event)
    requires SafeInv(w) && Enabled(w, e) && e.LegStarts?
    ensures SafeInv(LegStartsStep(w, e))
  {
    var c, v := Supplied(w, e.supply).value, AfterSupply(w, e.supply);
    var b := LegSynced(c, e.startup);
    var u := Logged(v, c.id, None, Added(c, LegSent(b, e.run)));
    SupplySafe(w, e.supply);
    JournalSafe(v, u.log, v.clock, v.sessions);
    if LegRan(b, e.run).Some? {
      LegConnOk(c, e.startup, e.run, w.defaults);
      LendSafe(u, e.leg, Leg(LegRan(b, e.run).value, e.run.o.reports != []));
    }
  }

  lemma LendSafe(v: World, l: nat, leg: Leg)
    requires SafeInv(v) && LegOk(leg, v.defaults)
    ensures SafeInv(v.(legs := v.legs[l := leg]))
  {
  }

  lemma LegEndsSafe(w: World, e: Event)
    requires SafeInv(w) && Enabled(w, e) && Fair(w, e) && e.LegEnds?
    ensures SafeInv(LegEndsStep(w, e))
  {
    if e.back {
      GiveBackSafe(w.(legs := w.legs - {e.leg}), w.legs[e.leg].conn, map[], w.legs[e.leg].dirty, e.ret);
    }
  }

  lemma EvictSafe(w: World, i: nat)
    requires SafeInv(w) && i < |w.idle|
    ensures SafeInv(w.(idle := w.idle[..i] + w.idle[i + 1..]))
  {
    var idle := w.idle[..i] + w.idle[i + 1..];
    assert forall j :: 0 <= j < |idle| ==> idle[j] == w.idle[if j < i then j else j + 1];
  }

  /** Every fair event of every session, of the scatter legs and of the pool keeps what the pool depends on. */
  lemma StepSafe(w: World, e: Event)
    requires SafeInv(w) && Enabled(w, e) && Fair(w, e)
    ensures SafeInv(Step(w, e))
  {
    match e
    case Opens(sid, startup) => OpenSafe(w, sid, startup);
    case Speak(_, _, _, _, _, _, _) => SpeakSafe(w, e);
    case Listen(_, _) => ListenSafe(w, e);
    case Leave(sid, ret) => LeaveSafe(w, sid, ret);
    case Lost(sid) => LostSafe(w, sid);
    case Broken(sid) => DropSafe(w, sid);
    case CancelRequest(sid, o) => CancelledSafe(w, sid, o);
    case Shutdown(_, _) => ShutdownSafe(w, e);
    case LegStarts(_, _, _, _) => LegStartsSafe(w, e);
    case LegEnds(_, _, _) => LegEndsSafe(w, e);
    case Evict(i) => EvictSafe(w, i);
  }

  /** In every state of every fair run. */
  lemma {:induction false} RunSafe(ws: seq<World>, es: seq<Event>, defaults: map<string, string>, k: nat)
    requires IsFairRun(ws, es) && ws[0] == Empty(defaults) && k < |ws|
    ensures SafeInv(ws[k])
  {
    if k > 0 {
      RunSafe(ws, es, defaults, k - 1);
      StepSafe(ws[k - 1], es[k - 1]);
    }
  }
}

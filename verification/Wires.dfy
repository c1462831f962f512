/**
 Everything the proxy ever writes to its connections. The log of a run is shown to be, connection by
 connection, what the connection received; in it every client message stands at most once, and all
 else is the proxy's own or replays a Parse of the same session that is there already.
 */
module Wires {
  import opened Protocol
  import opened Connection
  import opened Session
  import opened Phases
  import opened Leases
  import opened Clients
  import opened World
  import opened Cleanups
  import opened Custody
  import opened Runs
  import Places

  // ---------------------------------------------------------------- the log

  /** What the log says a connection received. */
  function OnWire(log: seq<Line>, id: nat): seq<Entry> {
    if log == [] then []
    else
      var last := log[|log| - 1];
      OnWire(log[..|log| - 1], id) + (if last.conn == id then [last.entry] else [])
  }

  lemma OnWireLine(log: seq<Line>, line: Line, id: nat)
    ensures OnWire(log + [line], id) == OnWire(log, id) + (if line.conn == id then [line.entry] else [])
  {
    assert (log + [line])[..|log|] == log;
  }

  lemma {:induction false} OnWireLines(log: seq<Line>, conn: nat, session: Option<nat>, entries: seq<Entry>, id: nat)
    ensures OnWire(log + Lines(conn, session, entries), id) ==
            OnWire(log, id) + (if conn == id then entries else [])
    decreases |entries|
  {
    if entries == [] {
      assert log + Lines(conn, session, entries) == log;
    } else {
      var front, last := entries[..|entries| - 1], entries[|entries| - 1];
      OnWireLines(log, conn, session, front, id);
      LinesSplit(log, conn, session, entries);
      OnWireLine(log + Lines(conn, session, front), Line(conn, session, last), id);
      assert OnWire(log, id) + front + [last] == OnWire(log, id) + entries;
    }
  }

  lemma LinesSplit(log: seq<Line>, conn: nat, session: Option<nat>, entries: seq<Entry>)
    requires entries != []
    ensures log + Lines(conn, session, entries) ==
            log + Lines(conn, session, entries[..|entries| - 1]) + [Line(conn, session, entries[|entries| - 1])]
  {
  }

  lemma {:induction false} OnWireFresh(log: seq<Line>, id: nat)
    requires forall i :: 0 <= i < |log| ==> log[i].conn != id
    ensures OnWire(log, id) == []
  {
    if log != [] {
      OnWireFresh(log[..|log| - 1], id);
    }
  }

  /** Session `sid` has sent the statement, with this text, under this name. */
  predicate Parsed(log: seq<Line>, sid: nat, name: string, stmt: Statement) {
    exists i :: 0 <= i < |log| && log[i].session == Some(sid) && log[i].entry.FromClient? &&
                log[i].entry.m == Parse(name, stmt)
  }

  predicate AllParsed(log: seq<Line>, sid: nat, stmts: map<string, Statement>) {
    forall n <- stmts :: Parsed(log, sid, n, stmts[n])
  }

  /** A line may follow `log`: it is a client message, a replay of statements its session has sent, the
      query of a scatter leg, or part of a clean-up or a probe. */
  predicate Follows(log: seq<Line>, line: Line) {
    match line.entry
    case FromClient(_, _) => line.session.Some?
    case Replay(_, stmts) => stmts == map[] || (line.session.Some? && AllParsed(log, line.session.value, stmts))
    case LegQuery(_) => true
    case Own(_) => ByProxy(line.entry)
  }

  predicate Sound(log: seq<Line>, clock: nat, next: nat) {
    && (forall i :: 0 <= i < |log| ==> log[i].conn < next)
    && (forall i :: 0 <= i < |log| && log[i].entry.FromClient? ==> log[i].entry.serial < clock)
    && (forall i, j :: 0 <= i < j < |log| && log[i].entry.FromClient? && log[j].entry.FromClient? ==>
          log[i].entry.serial < log[j].entry.serial)
    && (forall i :: 0 <= i < |log| ==> Follows(log[..i], log[i]))
  }

  lemma SoundLine(log: seq<Line>, line: Line, clock: nat, next: nat)
    requires Sound(log, clock, next) && line.conn < next && Follows(log, line)
    requires line.entry.FromClient? ==> line.entry.serial == clock
    ensures Sound(log + [line], if line.entry.FromClient? then clock + 1 else clock, next)
  {
    var l := log + [line];
    forall i | 0 <= i < |l| ensures Follows(l[..i], l[i]) {
      if i < |log| {
        assert l[..i] == log[..i];
      } else {
        assert l[..i] == log;
      }
    }
  }

  lemma {:induction false} SoundClean(log: seq<Line>, conn: nat, session: Option<nat>, entries: seq<Entry>, clock: nat,
                                      next: nat)
    requires Sound(log, clock, next) && conn < next && AllByProxy(entries)
    ensures Sound(log + Lines(conn, session, entries), clock, next)
    decreases |entries|
  {
    if entries == [] {
      assert log + Lines(conn, session, entries) == log;
    } else {
      var front := entries[..|entries| - 1];
      SoundClean(log, conn, session, front, clock, next);
      LinesSplit(log, conn, session, entries);
      SoundLine(log + Lines(conn, session, front), Line(conn, session, entries[|entries| - 1]), clock, next);
    }
  }

  lemma SoundLater(log: seq<Line>, clock: nat, next: nat, clock': nat, next': nat)
    requires Sound(log, clock, next) && clock <= clock' && next <= next'
    ensures Sound(log, clock', next')
  {
  }

  lemma ParsedLater(log: seq<Line>, more: seq<Line>, sid: nat, stmts: map<string, Statement>)
    requires AllParsed(log, sid, stmts)
    ensures AllParsed(log + more, sid, stmts)
  {
    forall n | n in stmts ensures Parsed(log + more, sid, n, stmts[n]) {
      var i :| 0 <= i < |log| && log[i].session == Some(sid) && log[i].entry.FromClient? &&
               log[i].entry.m == Parse(n, stmts[n]);
      assert (log + more)[i] == log[i];
    }
  }

  lemma ParsedNow(log: seq<Line>, line: Line, sid: nat, registry: map<string, Statement>)
    requires AllParsed(log, sid, registry) && line.session == Some(sid) && line.entry.FromClient?
    ensures AllParsed(log + [line], sid, NowRegistered(registry, line.entry.m))
  {
    ParsedLater(log, [line], sid, registry);
    assert (log + [line])[|log|] == line;
  }

  // ---------------------------------------------------------------- the log tells the truth

  predicate OnFile(log: seq<Line>, c: Conn) {
    c.wire == OnWire(log, c.id)
  }

  predicate LeaseOnFile(log: seq<Line>, p: Pump) {
    p.lease.Some? ==> OnFile(log, p.lease.value)
  }

  predicate AllOnFile(w: World) {
    && (forall i :: 0 <= i < |w.idle| ==> OnFile(w.log, w.idle[i]))
    && (forall s <- w.clients :: LeaseOnFile(w.log, w.clients[s].pump))
    && (forall l <- w.legs :: OnFile(w.log, w.legs[l].conn))
  }

  predicate AllRegistered(w: World) {
    forall s <- w.clients :: AllParsed(w.log, s, w.clients[s].pump.registry)
  }

  predicate LogInv(w: World) {
    Sound(w.log, w.clock, w.nextConn) && AllOnFile(w) && AllRegistered(w)
  }

  /** Lines about `c` touch no other connection. */
  lemma AddedOnFile(w: World, c: Conn, more: seq<Line>)
    requires AllOnFile(w) && Nowhere(w, c.id)
    requires forall id: nat :: id != c.id ==> OnWire(w.log + more, id) == OnWire(w.log, id)
    ensures AllOnFile(w.(log := w.log + more))
  {
    var v := w.(log := w.log + more);
    forall i | 0 <= i < |v.idle| ensures OnFile(v.log, v.idle[i]) {
      assert Ids(w.idle)[i] == w.idle[i].id;
    }
    forall s | s in v.clients ensures LeaseOnFile(v.log, v.clients[s].pump) {
      var p := v.clients[s].pump;
      if p.lease.Some? {
        assert Held(w.clients)[s] == p.lease.value.id;
      }
    }
    forall l | l in v.legs ensures OnFile(v.log, v.legs[l].conn) {
      assert Lent(w.legs)[l] == w.legs[l].conn.id;
    }
  }

  lemma LoggedOnFile(w: World, c: Conn, session: Option<nat>, entries: seq<Entry>)
    requires AllOnFile(w) && Nowhere(w, c.id) && OnFile(w.log, c)
    ensures var v := Logged(w, c.id, session, entries); AllOnFile(v) && OnWire(v.log, c.id) == c.wire + entries
  {
    forall id: nat
      ensures OnWire(w.log + Lines(c.id, session, entries), id) ==
              OnWire(w.log, id) + (if c.id == id then entries else [])
    {
      OnWireLines(w.log, c.id, session, entries, id);
    }
    AddedOnFile(w, c, Lines(c.id, session, entries));
  }

  lemma MoreRegistered(w: World, more: seq<Line>)
    requires AllRegistered(w)
    ensures AllRegistered(w.(log := w.log + more))
  {
    forall s | s in w.clients ensures AllParsed(w.log + more, s, w.clients[s].pump.registry) {
      ParsedLater(w.log, more, s, w.clients[s].pump.registry);
    }
  }

  /** Dropping a session, or its lease, from what is on file. */
  lemma DropLog(w: World, sid: nat)
    requires LogInv(w)
    ensures LogInv(w.(clients := w.clients - {sid}))
  {
  }

  lemma PutLog(w: World, sid: nat, x: Client)
    requires LogInv(w) && LeaseOnFile(w.log, x.pump) && AllParsed(w.log, sid, x.pump.registry)
    ensures LogInv(w.(clients := w.clients[sid := x]))
  {
  }

  lemma CleanedLog(w: World, c: Conn, entries: seq<Entry>)
    requires LogInv(w) && Nowhere(w, c.id) && OnFile(w.log, c) && AllByProxy(entries)
    ensures var v := Logged(w, c.id, None, entries); LogInv(v) && OnWire(v.log, c.id) == c.wire + entries
  {
    LoggedOnFile(w, c, None, entries);
    MoreRegistered(w, Lines(c.id, None, entries));
    SoundClean(w.log, c.id, None, entries, w.clock, w.nextConn);
  }

  lemma ReturnLog(w: World, c: Conn, d: Option<Conn>, written: seq<Entry>, ret: Return)
    requires LogInv(w) && Nowhere(w, c.id) && OnFile(w.log, c) && AllByProxy(written)
    requires d.Some? ==> Wrote(c, d.value, written)
    ensures LogInv(Returned(w, c, d, written, ret))
  {
    CleanedLog(w, c, written);
  }

  lemma DetachedLog(w: World, c: Conn, dirty: bool, ret: Return)
    requires LogInv(w) && Nowhere(w, c.id) && OnFile(w.log, c)
    ensures LogInv(Detached(w, c, dirty, ret))
  {
    DetachWrites(c, dirty, ret.answers.discard);
    ReturnLog(w, c, CheckinDetached(c, dirty, ret.answers.discard), DetachEntries(dirty), ret);
  }

  lemma FinishLog(w: World, sid: nat, p: Pump, ret: Return)
    requires LogInv(w) && OnePlace(w) && sid in w.clients
    requires p.lease.Some? ==>
               && w.clients[sid].pump.lease.Some?
               && p.lease.value.id == w.clients[sid].pump.lease.value.id
               && p.lease.value.wire == w.clients[sid].pump.lease.value.wire
    ensures LogInv(Finished(w, sid, p, ret))
  {
    DropPlace(w, sid);
    DropLog(w, sid);
    if p.lease.Some? {
      var c := p.lease.value;
      assert LeaseOnFile(w.log, w.clients[sid].pump);
      SanitizeWrites(c, p.hygiene, ret.answers);
      ReturnLog(w.(clients := w.clients - {sid}), c, Sanitize(c, p.hygiene, ret.answers),
                SanitizeEntries(c, p.hygiene, ret.answers), ret);
    }
  }

  // ---------------------------------------------------------------- checkouts

  lemma {:induction false} ProbesSound(log: seq<Line>, popped: seq<Conn>, probed: set<nat>, clock: nat, next: nat)
    requires Sound(log, clock, next) && forall i :: 0 <= i < |popped| ==> popped[i].id < next
    ensures Sound(log + Probes(popped, probed), clock, next)
    decreases |popped|
  {
    if popped == [] {
      assert log + Probes(popped, probed) == log;
    } else {
      var front, c := popped[..|popped| - 1], popped[|popped| - 1];
      if c.id in probed {
        SoundLine(log, Line(c.id, None, Own(Sync)), clock, next);
      }
      ProbesSound(WithProbe(log, c, probed), front, probed, clock, next);
      ProbesSplit(log, popped, probed);
    }
  }

  predicate Distinct(popped: seq<Conn>) {
    forall i, j :: 0 <= i < j < |popped| ==> popped[i].id != popped[j].id
  }

  /** The log after the probe, if any, of one connection. */
  function WithProbe(log: seq<Line>, c: Conn, probed: set<nat>): seq<Line> {
    if c.id in probed then log + [Line(c.id, None, Own(Sync))] else log
  }

  lemma ProbesSplit(log: seq<Line>, popped: seq<Conn>, probed: set<nat>)
    requires popped != []
    ensures log + Probes(popped, probed) ==
            WithProbe(log, popped[|popped| - 1], probed) + Probes(popped[..|popped| - 1], probed)
  {
  }

  lemma PoppedIds(popped: seq<Conn>, id: nat)
    requires popped != [] && Distinct(popped)
    ensures var front, c := popped[..|popped| - 1], popped[|popped| - 1];
            && Distinct(front) && c.id !in Ids(front)
            && (id in Ids(popped) <==> id in Ids(front) || id == c.id)
  {
    var front, c := popped[..|popped| - 1], popped[|popped| - 1];
    assert popped == front + [c];
    IdsPush(front, c);
    assert forall i :: 0 <= i < |front| ==> front[i] == popped[i];
  }

  /** A probe is received by the connection probed, and by no other. */
  lemma {:induction false} ProbesOnWire(log: seq<Line>, popped: seq<Conn>, probed: set<nat>, id: nat)
    requires Distinct(popped)
    ensures OnWire(log + Probes(popped, probed), id) ==
            OnWire(log, id) + (if id in probed && id in Ids(popped) then [Own(Sync)] else [])
    decreases |popped|
  {
    if popped == [] {
      assert log + Probes(popped, probed) == log;
    } else {
      var front, c := popped[..|popped| - 1], popped[|popped| - 1];
      OnWireLine(log, Line(c.id, None, Own(Sync)), id);
      PoppedIds(popped, id);
      ProbesOnWire(WithProbe(log, c, probed), front, probed, id);
      ProbesSplit(log, popped, probed);
    }
  }

  /** The connections a checkout takes off the stack. */
  lemma PoppedApart(w: World, n: nat)
    requires OnePlace(w) && n <= |w.idle|
    ensures Distinct(w.idle[n..])
    ensures forall i :: 0 <= i < |w.idle[n..]| ==> w.idle[n..][i].id < w.nextConn
  {
    var popped, ids := w.idle[n..], Ids(w.idle);
    assert forall i :: 0 <= i < |popped| ==> popped[i].id == ids[n + i];
  }

  lemma SupplySound(w: World, s: Supply)
    requires LogInv(w) && OnePlace(w) && CanSupply(w, s)
    ensures var v := AfterSupply(w, s); Sound(v.log, v.clock, v.nextConn) && AllRegistered(v)
  {
    var n, v := Left(w, s), AfterSupply(w, s);
    PoppedApart(w, n);
    ProbesSound(w.log, w.idle[n..], s.probed, w.clock, w.nextConn);
    SoundLater(v.log, w.clock, w.nextConn, w.clock, v.nextConn);
    MoreRegistered(w, Probes(w.idle[n..], s.probed));
  }

  lemma SuppliedOnFile(w: World, s: Supply)
    requires LogInv(w) && OnePlace(w) && CanSupply(w, s) && Supplied(w, s).Some?
    ensures OnFile(AfterSupply(w, s).log, Supplied(w, s).value)
  {
    var n := Left(w, s);
    var popped := w.idle[n..];
    PoppedApart(w, n);
    if s.Connect? {
      ProbesOnWire(w.log, popped, s.probed, w.nextConn);
      OnWireFresh(w.log, w.nextConn);
    } else {
      assert Ids(popped)[0] == popped[0].id == w.idle[n].id;
      ProbesOnWire(w.log, popped, s.probed, popped[0].id);
      assert OnFile(w.log, w.idle[n]);
    }
  }

  lemma SupplyLog(w: World, s: Supply)
    requires LogInv(w) && OnePlace(w) && CanSupply(w, s)
    ensures LogInv(AfterSupply(w, s))
    ensures Supplied(w, s).Some? ==> OnFile(AfterSupply(w, s).log, Supplied(w, s).value)
  {
    var n := Left(w, s);
    PoppedApart(w, n);
    forall id: nat ensures id !in Ids(w.idle[n..]) ==> OnWire(AfterSupply(w, s).log, id) == OnWire(w.log, id) {
      ProbesOnWire(w.log, w.idle[n..], s.probed, id);
    }
    SupplyOnFile(w, s);
    SupplySound(w, s);
    if Supplied(w, s).Some? {
      SuppliedOnFile(w, s);
    }
  }

  /** A checkout touches only connections it takes off the stack. */
  lemma SupplyOnFile(w: World, s: Supply)
    requires AllOnFile(w) && OnePlace(w) && CanSupply(w, s)
    requires var popped := w.idle[Left(w, s)..];
             forall id: nat :: id !in Ids(popped) ==> OnWire(AfterSupply(w, s).log, id) == OnWire(w.log, id)
    ensures AllOnFile(AfterSupply(w, s))
  {
    var n, v, ids := Left(w, s), AfterSupply(w, s), Ids(w.idle);
    var popped := Ids(w.idle[n..]);
    assert forall i :: 0 <= i < |popped| ==> popped[i] == ids[n + i];
    forall i | 0 <= i < |v.idle| ensures OnFile(v.log, v.idle[i]) {
      assert v.idle[i] == w.idle[i] && ids[i] == w.idle[i].id;
    }
    forall c | c in v.clients ensures LeaseOnFile(v.log, v.clients[c].pump) {
      var p := v.clients[c].pump;
      if p.lease.Some? {
        assert Held(w.clients)[c] == p.lease.value.id;
      }
    }
    forall l | l in v.legs ensures OnFile(v.log, v.legs[l].conn) {
      assert Lent(w.legs)[l] == w.legs[l].conn.id;
    }
  }

  // ---------------------------------------------------------------- client messages

  /** The connection a message finds, and the connection it makes of it. */
  function Before(p: Pump, supply: Option<Conn>): Conn
    requires p.lease.Some? || supply.Some?
  {
    if p.lease.Some? then p.lease.value else supply.value
  }

  lemma WrittenWire(p: Pump, m: Frontend, o: Outcome, supply: Option<Conn>)
    requires p.lease.Some? || supply.Some?
    ensures var c, d := Before(p, supply), Written(Leased(p, supply).lease.value, m, o);
            && d.id == c.id && c.wire <= d.wire
            && Added(c, d) == (if p.lease.Some? then [] else [Replay(ToSet(c, p), p.registry)]) +
                              [FromClient(o.serial, m)]
  {
  }

  /** The lines of a forwarded message keep the log sound, and list what the session registers. */
  lemma ForwardedLines(log: seq<Line>, clock: nat, next: nat, sid: nat, p: Pump, m: Frontend, o: Outcome,
                       supply: Option<Conn>)
    requires Sound(log, clock, next) && AllParsed(log, sid, p.registry) && o.serial == clock
    requires (p.lease.Some? || supply.Some?) && Before(p, supply).id < next
    ensures var c, d := Before(p, supply), Written(Leased(p, supply).lease.value, m, o);
            var l := log + Lines(c.id, Some(sid), Added(c, d));
            Sound(l, clock + 1, next) && AllParsed(l, sid, NowRegistered(p.registry, m))
  {
    var c, d := Before(p, supply), Written(Leased(p, supply).lease.value, m, o);
    var sent := Line(c.id, Some(sid), FromClient(clock, m));
    WrittenWire(p, m, o, supply);
    if p.lease.Some? {
      assert Lines(c.id, Some(sid), Added(c, d)) == [sent];
      MessageLine(log, clock, next, sent, sid, p.registry);
    } else {
      var replay := Line(c.id, Some(sid), Replay(ToSet(c, p), p.registry));
      assert log + Lines(c.id, Some(sid), Added(c, d)) == log + [replay] + [sent];
      ReplayLine(log, clock, next, replay, sid);
      MessageLine(log + [replay], clock, next, sent, sid, p.registry);
    }
  }

  lemma MessageLine(log: seq<Line>, clock: nat, next: nat, line: Line, sid: nat, registry: map<string, Statement>)
    requires Sound(log, clock, next) && AllParsed(log, sid, registry) && line.conn < next
    requires line.session == Some(sid) && line.entry.FromClient? && line.entry.serial == clock
    ensures var l := log + [line]; Sound(l, clock + 1, next) && AllParsed(l, sid, NowRegistered(registry, line.entry.m))
  {
    SoundLine(log, line, clock, next);
    ParsedNow(log, line, sid, registry);
  }

  lemma ReplayLine(log: seq<Line>, clock: nat, next: nat, line: Line, sid: nat)
    requires Sound(log, clock, next) && line.conn < next && line.session == Some(sid)
    requires line.entry.Replay? && AllParsed(log, sid, line.entry.stmts)
    ensures Sound(log + [line], clock, next) && AllParsed(log + [line], sid, line.entry.stmts)
  {
    SoundLine(log, line, clock, next);
    ParsedLater(log, [line], sid, line.entry.stmts);
  }

  /** The pool after a message has been written, whether or not the write succeeds. */
  function Carried(w: World, sid: nat, p: Pump, m: Frontend, o: Outcome, supply: Option<Conn>): World
    requires p.lease.Some? || supply.Some?
  {
    var c := Before(p, supply);
    Logged(w, c.id, Some(sid), Added(c, Written(Leased(p, supply).lease.value, m, o))).(clock := w.clock + 1)
  }

  lemma CarriedLog(w: World, sid: nat, p: Pump, m: Frontend, o: Outcome, supply: Option<Conn>)
    requires LogInv(w) && AllParsed(w.log, sid, p.registry) && o.serial == w.clock
    requires p.lease.Some? || supply.Some?
    requires Nowhere(w, Before(p, supply).id) && OnFile(w.log, Before(p, supply))
    ensures var u := Carried(w, sid, p, m, o, supply);
            && LogInv(u) && OnFile(u.log, Written(Leased(p, supply).lease.value, m, o))
            && AllParsed(u.log, sid, NowRegistered(p.registry, m))
  {
    var c, d := Before(p, supply), Written(Leased(p, supply).lease.value, m, o);
    WrittenWire(p, m, o, supply);
    CarriedOnFile(w, c, d, sid);
    ForwardedLines(w.log, w.clock, w.nextConn, sid, p, m, o, supply);
  }

  lemma CarriedOnFile(w: World, c: Conn, d: Conn, sid: nat)
    requires AllOnFile(w) && AllRegistered(w) && Nowhere(w, c.id) && OnFile(w.log, c)
    requires d.id == c.id && c.wire <= d.wire
    ensures var u := Logged(w, c.id, Some(sid), Added(c, d)).(clock := w.clock + 1);
            AllOnFile(u) && AllRegistered(u) && OnFile(u.log, d)
  {
    LoggedOnFile(w, c, Some(sid), Added(c, d));
    assert c.wire + Added(c, d) == d.wire;
    MoreRegistered(w, Lines(c.id, Some(sid), Added(c, d)));
  }

  lemma ForwardedBy(x: Client, m: Frontend, o: Outcome, hook: Hook, supply: Option<Conn>, fault: bool)
    requires Consider(x.pump, m, hook).Pass? && (x.pump.lease.Some? || supply.Some?)
    ensures var plan, y := Consider(x.pump, m, hook), OnMessage(x, m, o, hook, supply, fault).pump;
            && !OnFrontend(x.pump, m, o, hook, supply, fault).ended
            && plan.pump.lease == x.pump.lease && plan.pump.registry == x.pump.registry
            && y.registry == NowRegistered(plan.pump.registry, plan.m)
            && (y.lease.Some? ==> y.lease.value == Written(Leased(plan.pump, supply).lease.value, plan.m, o))
  {
    PlanKeeps(x.pump, m, hook);
  }

  /** The event is answered without a word to any connection. */
  predicate Spared(p: Pump, m: Frontend, hook: Hook, supply: Option<Conn>) {
    var plan := Consider(p, m, hook);
    !plan.Scattered? && (!plan.Pass? || (p.lease.None? && supply.None?))
  }

  lemma AnsweredBy(x: Client, m: Frontend, o: Outcome, hook: Hook, supply: Option<Conn>, fault: bool)
    requires Spared(x.pump, m, hook, supply)
    ensures OnMessage(x, m, o, hook, supply, fault).pump.lease == x.pump.lease
    ensures Within(OnMessage(x, m, o, hook, supply, fault).pump.registry, x.pump.registry)
  {
    AnsweredTurn(x.pump, m, o, hook, supply, fault);
  }

  lemma AnsweredTurn(p: Pump, m: Frontend, o: Outcome, hook: Hook, supply: Option<Conn>, fault: bool)
    requires Spared(p, m, hook, supply)
    ensures OnFrontend(p, m, o, hook, supply, fault).pump.lease == p.lease
    ensures Within(OnFrontend(p, m, o, hook, supply, fault).pump.registry, p.registry)
  {
    PlanKeeps(p, m, hook);
  }

  lemma CarriedFor(v: World, sid: nat, p: Pump, m: Frontend, o: Outcome, supply: Option<Conn>, y: Client)
    requires p.lease.Some? || supply.Some?
    ensures var u := Carried(v.(clients := v.clients - {sid}), sid, p, m, o, supply);
            u.(clients := u.clients[sid := y]) == Carried(v, sid, p, m, o, supply).(clients := v.clients[sid := y])
  {
    assert (v.clients - {sid})[sid := y] == v.clients[sid := y];
  }

  /** The pool after the checkout of a message. */
  function Drawn(w: World, e: Event): World
    requires e.Speak? && Enabled(w, e)
  {
    if NeedsLease(w.clients[e.sid].pump, e.m, e.hook) then AfterSupply(w, e.supply) else w
  }

  lemma DrawnLog(w: World, e: Event)
    requires OnePlace(w) && LogInv(w) && Enabled(w, e) && e.Speak?
    ensures var v, supply := Drawn(w, e), SupplyFor(w, e);
            && OnePlace(v) && LogInv(v) && v.clients == w.clients && v.clock == w.clock
            && (supply.Some? ==> w.clients[e.sid].pump.lease.None? && Nowhere(v, supply.value.id) &&
                                 OnFile(v.log, supply.value))
  {
    SupplyPlace(w, e.supply);
    SupplyLog(w, e.supply);
    SupplyKeeps(w, e.supply);
  }

  lemma NowhereWithout(v: World, sid: nat, id: nat)
    requires Nowhere(v, id)
    ensures Nowhere(v.(clients := v.clients - {sid}), id)
  {
    HeldWithout(v.clients, sid);
  }

  /** With its session set aside, the connection of a message is nowhere. */
  lemma SetAside(v: World, sid: nat, supply: Option<Conn>)
    requires LogInv(v) && OnePlace(v) && sid in v.clients && (v.clients[sid].pump.lease.Some? || supply.Some?)
    requires v.clients[sid].pump.lease.None? ==> Nowhere(v, supply.value.id) && OnFile(v.log, supply.value)
    ensures var u, c := v.(clients := v.clients - {sid}), Before(v.clients[sid].pump, supply);
            LogInv(u) && Nowhere(u, c.id) && OnFile(u.log, c) && AllParsed(u.log, sid, v.clients[sid].pump.registry)
  {
    var p := v.clients[sid].pump;
    DropPlace(v, sid);
    DropLog(v, sid);
    if p.lease.None? {
      NowhereWithout(v, sid, supply.value.id);
    } else {
      assert Held(v.clients)[sid] == p.lease.value.id;
      assert LeaseOnFile(v.log, p);
    }
  }

  lemma ForwardOn(v: World, sid: nat, p: Pump, m: Frontend, o: Outcome, supply: Option<Conn>, y: Client)
    requires LogInv(v) && OnePlace(v) && sid in v.clients && o.serial == v.clock
    requires p.lease == v.clients[sid].pump.lease && p.registry == v.clients[sid].pump.registry
    requires p.lease.Some? || supply.Some?
    requires p.lease.None? ==> Nowhere(v, supply.value.id) && OnFile(v.log, supply.value)
    requires y.pump.registry == NowRegistered(p.registry, m)
    requires y.pump.lease.Some? ==> y.pump.lease.value == Written(Leased(p, supply).lease.value, m, o)
    ensures LogInv(Carried(v, sid, p, m, o, supply).(clients := v.clients[sid := y]))
  {
    var w := v.(clients := v.clients - {sid});
    SetAside(v, sid, supply);
    CarriedLog(w, sid, p, m, o, supply);
    PutLog(Carried(w, sid, p, m, o, supply), sid, y);
    CarriedFor(v, sid, p, m, o, supply, y);
  }

  lemma ForwardStepLog(w: World, e: Event)
    requires OnePlace(w) && LogInv(w) && Enabled(w, e) && e.Speak?
    requires Consider(w.clients[e.sid].pump, e.m, e.hook).Pass?
    requires w.clients[e.sid].pump.lease.Some? || SupplyFor(w, e).Some?
    ensures LogInv(SpeakStep(w, e))
  {
    var x, v, supply := w.clients[e.sid], Drawn(w, e), SupplyFor(w, e);
    var plan := Consider(x.pump, e.m, e.hook);
    DrawnLog(w, e);
    ForwardedBy(x, e.m, e.o, e.hook, supply, e.fault);
    ForwardOn(v, e.sid, plan.pump, plan.m, e.o, supply, OnMessage(x, e.m, e.o, e.hook, supply, e.fault));
    ForwardedNoted(w, e);
  }

  lemma ForwardedNoted(w: World, e: Event)
    requires Enabled(w, e) && e.Speak?
    requires Consider(w.clients[e.sid].pump, e.m, e.hook).Pass?
    requires w.clients[e.sid].pump.lease.Some? || SupplyFor(w, e).Some?
    ensures var plan := Consider(w.clients[e.sid].pump, e.m, e.hook);
            && plan.pump.lease == w.clients[e.sid].pump.lease
            && Noted(w, e) == Carried(Drawn(w, e), e.sid, plan.pump, plan.m, e.o, SupplyFor(w, e))
  {
    PlanKeeps(w.clients[e.sid].pump, e.m, e.hook);
  }

  lemma AnsweredNoted(w: World, e: Event)
    requires Enabled(w, e) && e.Speak?
    requires Spared(w.clients[e.sid].pump, e.m, e.hook, SupplyFor(w, e))
    ensures Noted(w, e) == Drawn(w, e).(clock := w.clock + 1)
  {
  }

  lemma AnswerStepLog(w: World, e: Event)
    requires OnePlace(w) && LogInv(w) && Enabled(w, e) && e.Speak?
    requires Spared(w.clients[e.sid].pump, e.m, e.hook, SupplyFor(w, e))
    ensures LogInv(SpeakStep(w, e))
  {
    var x, supply := w.clients[e.sid], SupplyFor(w, e);
    DrawnLog(w, e);
    AnsweredBy(x, e.m, e.o, e.hook, supply, e.fault);
    AnsweredNoted(w, e);
    AnswerOn(Drawn(w, e), e.sid, OnFrontend(x.pump, e.m, e.o, e.hook, supply, e.fault).ended,
             OnMessage(x, e.m, e.o, e.hook, supply, e.fault), e.ret);
  }

  lemma AnswerOn(v: World, sid: nat, ended: bool, y: Client, ret: Return)
    requires LogInv(v) && OnePlace(v) && sid in v.clients && y.pump.lease == v.clients[sid].pump.lease
    requires Within(y.pump.registry, v.clients[sid].pump.registry)
    ensures LogInv(Concluded(v.(clock := v.clock + 1), sid, ended, y, ret))
  {
    var u := v.(clock := v.clock + 1);
    SoundLater(v.log, v.clock, v.nextConn, u.clock, u.nextConn);
    assert LeaseOnFile(u.log, v.clients[sid].pump) && AllParsed(u.log, sid, v.clients[sid].pump.registry);
    if ended {
      FinishLog(u, sid, y.pump, ret);
    } else {
      PutLog(u, sid, y);
    }
  }

  /** The pool after a scatter leg's query on the connection `c` of session `sid`. */
  function LegLogged(w: World, sid: nat, c: Conn, leg: LegRun): World {
    Logged(w, c.id, Some(sid), [LegQuery(leg.sql)]).(clock := w.clock + 1)
  }

  lemma LegLoggedLog(w: World, sid: nat, c: Conn, leg: LegRun, registry: map<string, Statement>)
    requires LogInv(w) && AllParsed(w.log, sid, registry) && Nowhere(w, c.id) && OnFile(w.log, c)
    ensures var u := LegLogged(w, sid, c, leg);
            && LogInv(u) && AllParsed(u.log, sid, registry)
            && (LegRan(c, leg).Some? ==> OnFile(u.log, LegRan(c, leg).value))
  {
    var line := Line(c.id, Some(sid), LegQuery(leg.sql));
    LoggedOnFile(w, c, Some(sid), [LegQuery(leg.sql)]);
    assert Lines(c.id, Some(sid), [LegQuery(leg.sql)]) == [line];
    MoreRegistered(w, [line]);
    SoundLine(w.log, line, w.clock, w.nextConn);
    SoundLater(w.log + [line], w.clock, w.nextConn, w.clock + 1, w.nextConn);
    ParsedLater(w.log, [line], sid, registry);
    DrainLaw(LegSent(c, leg));
  }

  lemma LegLoggedFor(v: World, sid: nat, c: Conn, leg: LegRun, y: Client)
    ensures var u := LegLogged(v.(clients := v.clients - {sid}), sid, c, leg);
            u.(clients := u.clients[sid := y]) == LegLogged(v, sid, c, leg).(clients := v.clients[sid := y])
  {
    assert (v.clients - {sid})[sid := y] == v.clients[sid := y];
  }

  /** A scatter leg on the session's own connection. */
  lemma LegOn(v: World, sid: nat, leg: LegRun, y: Client)
    requires LogInv(v) && OnePlace(v) && sid in v.clients && v.clients[sid].pump.lease.Some?
    requires y.pump.registry == v.clients[sid].pump.registry
    requires y.pump.lease.Some? ==> y.pump.lease == LegRan(v.clients[sid].pump.lease.value, leg)
    ensures LogInv(LegLogged(v, sid, v.clients[sid].pump.lease.value, leg).(clients := v.clients[sid := y]))
  {
    var c, w := v.clients[sid].pump.lease.value, v.(clients := v.clients - {sid});
    SetAside(v, sid, None);
    LegLoggedLog(w, sid, c, leg, y.pump.registry);
    PutLog(LegLogged(w, sid, c, leg), sid, y);
    LegLoggedFor(v, sid, c, leg, y);
  }

  lemma ScatterStepLog(w: World, e: Event)
    requires OnePlace(w) && LogInv(w) && Enabled(w, e) && e.Speak?
    requires Consider(w.clients[e.sid].pump, e.m, e.hook).Scattered?
    ensures LogInv(SpeakStep(w, e))
  {
    var x, supply := w.clients[e.sid], SupplyFor(w, e);
    var plan := Consider(x.pump, e.m, e.hook);
    PlanKeeps(x.pump, e.m, e.hook);
    LegOn(w, e.sid, plan.leg, OnMessage(x, e.m, e.o, e.hook, supply, e.fault));
    ScatteredNoted(w, e);
  }

  lemma ScatteredNoted(w: World, e: Event)
    requires Enabled(w, e) && e.Speak? && Consider(w.clients[e.sid].pump, e.m, e.hook).Scattered?
    ensures w.clients[e.sid].pump.lease.Some?
    ensures Noted(w, e) ==
            LegLogged(w, e.sid, w.clients[e.sid].pump.lease.value, Consider(w.clients[e.sid].pump, e.m, e.hook).leg)
  {
    PlanKeeps(w.clients[e.sid].pump, e.m, e.hook);
  }

  lemma SpeakLog(w: World, e: Event)
    requires OnePlace(w) && LogInv(w) && Enabled(w, e) && e.Speak?
    ensures LogInv(Step(w, e))
  {
    if Consider(w.clients[e.sid].pump, e.m, e.hook).Scattered? {
      ScatterStepLog(w, e);
    } else if Consider(w.clients[e.sid].pump, e.m, e.hook).Pass? &&
              (w.clients[e.sid].pump.lease.Some? || SupplyFor(w, e).Some?)
    {
      ForwardStepLog(w, e);
    } else {
      AnswerStepLog(w, e);
    }
  }

  // ---------------------------------------------------------------- the other events

  /** Reading writes nothing. */
  lemma ReadWrites(p: Pump)
    requires p.lease.Some? && p.lease.value.unread != []
    ensures var turn, c := OnBackend(p), p.lease.value;
            && turn.pump.registry == p.registry
            && (turn.pump.lease.Some? ==> turn.pump.lease.value.id == c.id && turn.pump.lease.value.wire == c.wire)
            && (turn.released.Some? ==>
                  && turn.pump.lease.None?
                  && turn.released.value.0.id == c.id && turn.released.value.0.wire == c.wire)
  {
  }

  lemma ListenLog(w: World, e: Event)
    requires OnePlace(w) && LogInv(w) && Enabled(w, e) && e.Listen?
    ensures LogInv(Step(w, e))
  {
    var x := w.clients[e.sid];
    var turn := OnBackend(x.pump);
    assert LeaseOnFile(w.log, x.pump) && AllParsed(w.log, e.sid, x.pump.registry);
    ReadWrites(x.pump);
    if turn.ended {
      FinishLog(w, e.sid, turn.pump, e.ret);
    } else {
      PutLog(w, e.sid, OnResponse(x));
      if turn.released.Some? {
        ReleaseLog(w, e.sid, e.ret);
      }
    }
  }

  lemma ReleaseLog(w: World, sid: nat, ret: Return)
    requires OnePlace(w) && LogInv(w) && Enabled(w, Listen(sid, ret))
    requires OnBackend(w.clients[sid].pump).released.Some?
    requires LogInv(w.(clients := w.clients[sid := OnResponse(w.clients[sid])]))
    ensures var (c, dirty) := OnBackend(w.clients[sid].pump).released.value;
            LogInv(Detached(w.(clients := w.clients[sid := OnResponse(w.clients[sid])]), c, dirty, ret))
  {
    var x := w.clients[sid];
    var (c, dirty) := OnBackend(x.pump).released.value;
    ReadWrites(x.pump);
    PutPlace(w, sid, OnResponse(x));
    assert Held(w.clients)[sid] == c.id;
    assert LeaseOnFile(w.log, x.pump);
    DetachedLog(w.(clients := w.clients[sid := OnResponse(x)]), c, dirty, ret);
  }

  lemma UpdateLog(w: World, sid: nat, y: Client)
    requires LogInv(w) && sid in w.clients && y.pump.registry == w.clients[sid].pump.registry
    requires y.pump.lease.Some? ==>
               && w.clients[sid].pump.lease.Some?
               && y.pump.lease.value.id == w.clients[sid].pump.lease.value.id
               && y.pump.lease.value.wire == w.clients[sid].pump.lease.value.wire
    ensures LogInv(w.(clients := w.clients[sid := y]))
  {
    assert LeaseOnFile(w.log, w.clients[sid].pump) && AllParsed(w.log, sid, w.clients[sid].pump.registry);
    PutLog(w, sid, y);
  }

  lemma LostLog(w: World, sid: nat)
    requires LogInv(w) && sid in w.clients
    ensures LogInv(w.(clients := w.clients[sid := OnLoss(w.clients[sid])]))
  {
    UpdateLog(w, sid, OnLoss(w.clients[sid]));
  }

  lemma CancelLog(w: World, sid: nat, o: Outcome)
    requires LogInv(w) && sid in w.clients
    ensures LogInv(w.(clients := w.clients[sid := OnCancel(w.clients[sid], o)]))
  {
    UpdateLog(w, sid, OnCancel(w.clients[sid], o));
  }

  lemma ShutdownLog(w: World, e: Event)
    requires OnePlace(w) && LogInv(w) && Enabled(w, e) && e.Shutdown?
    ensures LogInv(Step(w, e))
  {
    var x := w.clients[e.sid];
    var turn := OnShutdown(x.pump);
    if turn.ended {
      FinishLog(w, e.sid, turn.pump, e.ret);
    } else {
      UpdateLog(w, e.sid, x.(pump := turn.pump));
    }
  }

  lemma LegWire(c: Conn, startup: map<string, string>, run: LegRun)
    ensures var d := LegSent(LegSynced(c, startup), run);
            && d.id == c.id && d.wire == c.wire + Added(c, d)
            && Added(c, d) == [Replay(Differing(c.cache, Named(startup)), map[]), LegQuery(run.sql)]
  {
  }

  lemma LegLines(log: seq<Line>, clock: nat, next: nat, c: Conn, startup: map<string, string>, run: LegRun)
    requires Sound(log, clock, next) && c.id < next
    ensures Sound(log + Lines(c.id, None, Added(c, LegSent(LegSynced(c, startup), run))), clock, next)
  {
    var replay := Line(c.id, None, Replay(Differing(c.cache, Named(startup)), map[]));
    var query := Line(c.id, None, LegQuery(run.sql));
    LegWire(c, startup, run);
    assert log + Lines(c.id, None, Added(c, LegSent(LegSynced(c, startup), run))) == log + [replay] + [query];
    SoundLine(log, replay, clock, next);
    SoundLine(log + [replay], query, clock, next);
  }

  lemma LegStartsLog(w: World, e: Event)
    requires OnePlace(w) && LogInv(w) && Enabled(w, e) && e.LegStarts?
    ensures LogInv(Step(w, e))
  {
    SupplyPlace(w, e.supply);
    SupplyLog(w, e.supply);
    LegRunLog(AfterSupply(w, e.supply), Supplied(w, e.supply).value, e.leg, e.startup, e.run);
  }

  lemma LegRunLog(v: World, c: Conn, l: nat, startup: map<string, string>, run: LegRun)
    requires LogInv(v) && Nowhere(v, c.id) && OnFile(v.log, c)
    ensures var b := LegSynced(c, startup);
            var d, u := LegRan(b, run), Logged(v, c.id, None, Added(c, LegSent(b, run)));
            LogInv(if d.Some? then u.(legs := u.legs[l := Leg(d.value, run.o.reports != [])]) else u)
  {
    var sent := LegSent(LegSynced(c, startup), run);
    LegWire(c, startup, run);
    LegLines(v.log, v.clock, v.nextConn, c, startup, run);
    LoggedOnFile(v, c, None, Added(c, sent));
    MoreRegistered(v, Lines(c.id, None, Added(c, sent)));
    DrainLaw(sent);
  }

  lemma LegEndsLog(w: World, e: Event)
    requires OnePlace(w) && LogInv(w) && Enabled(w, e) && e.LegEnds?
    ensures LogInv(Step(w, e))
  {
    var l := w.legs[e.leg];
    var v := w.(legs := w.legs - {e.leg});
    assert LogInv(v) && OnFile(v.log, l.conn);
    if e.back {
      LegGone(w, e.leg);
      DetachedLog(v, l.conn, l.dirty, e.ret);
    }
  }

  lemma EvictLog(w: World, i: nat)
    requires LogInv(w) && i < |w.idle|
    ensures LogInv(w.(idle := w.idle[..i] + w.idle[i + 1..]))
  {
    var idle := w.idle[..i] + w.idle[i + 1..];
    assert forall j :: 0 <= j < |idle| ==> idle[j] == w.idle[if j < i then j else j + 1];
  }

  lemma OpenLog(w: World, sid: nat, startup: map<string, string>)
    requires LogInv(w)
    ensures LogInv(w.(clients := w.clients[sid := Opened(startup, w.defaults)], sessions := w.sessions + 1))
  {
    PutLog(w, sid, Opened(startup, w.defaults));
  }

  predicate SimplerEvent(e: Event) {
    e.Opens? || e.Leave? || e.Lost? || e.Broken? || e.CancelRequest? || e.Evict?
  }

  lemma SimplerLog(w: World, e: Event)
    requires OnePlace(w) && LogInv(w) && Enabled(w, e) && SimplerEvent(e)
    ensures LogInv(Step(w, e))
  {
    match e
    case Opens(sid, startup) => OpenLog(w, sid, startup);
    case Evict(i) => EvictLog(w, i);
    case Leave(sid, ret) => FinishLog(w, sid, w.clients[sid].pump, ret);
    case Lost(sid) => LostLog(w, sid);
    case Broken(sid) => DropLog(w, sid);
    case CancelRequest(sid, o) => CancelLog(w, sid, o);
  }

  /** Every event keeps the log true and sound. */
  lemma StepLog(w: World, e: Event)
    requires OnePlace(w) && LogInv(w) && Enabled(w, e)
    ensures LogInv(Step(w, e))
  {
    match e
    case Speak(_, _, _, _, _, _, _) => SpeakLog(w, e);
    case Listen(_, _) => ListenLog(w, e);
    case Shutdown(_, _) => ShutdownLog(w, e);
    case LegStarts(_, _, _, _) => LegStartsLog(w, e);
    case LegEnds(_, _, _) => LegEndsLog(w, e);
    case _ => SimplerLog(w, e);
  }

  lemma {:induction false} RunLog(ws: seq<World>, es: seq<Event>, defaults: map<string, string>, k: nat)
    requires IsRun(ws, es) && ws[0] == Empty(defaults) && k < |ws|
    ensures LogInv(ws[k])
  {
    if k > 0 {
      RunLog(ws, es, defaults, k - 1);
      RunPlace(ws, es, defaults, k - 1);
      StepLog(ws[k - 1], es[k - 1]);
    }
  }

  // ---------------------------------------------------------------- where lines come from

  /** `v` logs what `w` logs and then only lines that are not client messages. */
  predicate Appends(w: World, v: World) {
    && w.log <= v.log
    && forall i :: |w.log| <= i < |v.log| ==> !v.log[i].entry.FromClient?
  }

  lemma ReturnedAppends(w: World, c: Conn, d: Option<Conn>, written: seq<Entry>, ret: Return)
    requires AllByProxy(written)
    ensures Appends(w, Returned(w, c, d, written, ret))
  {
    var lines := Lines(c.id, None, written);
    assert Returned(w, c, d, written, ret).log == w.log + lines;
    assert forall i :: 0 <= i < |lines| ==> lines[i].entry == written[i];
  }

  lemma FinishedAppends(w: World, sid: nat, p: Pump, ret: Return)
    ensures Appends(w, Finished(w, sid, p, ret))
  {
    if p.lease.Some? {
      var c := p.lease.value;
      SanitizeWrites(c, p.hygiene, ret.answers);
      ReturnedAppends(w.(clients := w.clients - {sid}), c, Sanitize(c, p.hygiene, ret.answers),
                      SanitizeEntries(c, p.hygiene, ret.answers), ret);
    }
  }

  lemma DetachedAppends(w: World, c: Conn, dirty: bool, ret: Return)
    ensures Appends(w, Detached(w, c, dirty, ret))
  {
    DetachWrites(c, dirty, ret.answers.discard);
    ReturnedAppends(w, c, CheckinDetached(c, dirty, ret.answers.discard), DetachEntries(dirty), ret);
  }

  lemma {:induction false} ProbesAreOwn(popped: seq<Conn>, probed: set<nat>)
    ensures forall i :: 0 <= i < |Probes(popped, probed)| ==> !Probes(popped, probed)[i].entry.FromClient?
  {
    if popped != [] {
      ProbesAreOwn(popped[..|popped| - 1], probed);
    }
  }

  lemma SupplyAppends(w: World, s: Supply)
    requires CanSupply(w, s)
    ensures Appends(w, AfterSupply(w, s))
  {
    ProbesAreOwn(w.idle[Left(w, s)..], s.probed);
  }

  lemma AppendsOn(u: World, v: World, w: World)
    requires Appends(u, v) && Appends(v, w)
    ensures Appends(u, w)
  {
  }

  lemma LegAppends(w: World, e: Event)
    requires Enabled(w, e) && e.LegStarts?
    ensures Appends(w, Step(w, e))
  {
    SupplyAppends(w, e.supply);
    LegRunAppends(AfterSupply(w, e.supply), Supplied(w, e.supply).value, e.startup, e.run);
    AppendsOn(w, AfterSupply(w, e.supply), Step(w, e));
  }

  lemma LegRunAppends(v: World, c: Conn, startup: map<string, string>, run: LegRun)
    ensures Appends(v, Logged(v, c.id, None, Added(c, LegSent(LegSynced(c, startup), run))))
  {
    LegWire(c, startup, run);
  }

  lemma ListenAppends(w: World, e: Event)
    requires Enabled(w, e) && e.Listen?
    ensures Appends(w, Step(w, e))
  {
    var x := w.clients[e.sid];
    var turn := OnBackend(x.pump);
    if turn.ended {
      FinishedAppends(w, e.sid, turn.pump, e.ret);
    } else if turn.released.Some? {
      DetachedAppends(w.(clients := w.clients[e.sid := OnResponse(x)]),
                      turn.released.value.0, turn.released.value.1, e.ret);
    }
  }

  lemma ShutdownAppends(w: World, e: Event)
    requires Enabled(w, e) && e.Shutdown?
    ensures Appends(w, Step(w, e))
  {
    FinishedAppends(w, e.sid, OnShutdown(w.clients[e.sid].pump).pump, e.ret);
  }

  /** Only a client message adds a client message. */
  lemma OthersAppend(w: World, e: Event)
    requires Enabled(w, e) && !e.Speak?
    ensures Appends(w, Step(w, e))
  {
    match e
    case Listen(_, _) => ListenAppends(w, e);
    case Leave(sid, ret) => FinishedAppends(w, sid, w.clients[sid].pump, ret);
    case Shutdown(_, _) => ShutdownAppends(w, e);
    case LegStarts(_, _, _, _) => LegAppends(w, e);
    case LegEnds(l, _, ret) =>
      DetachedAppends(w.(legs := w.legs - {l}), w.legs[l].conn, w.legs[l].dirty, ret);
    case _ =>
  }

  /** The event forwards its message for its session as `m`, under the number `serial`. */
  predicate Forwards(w: World, e: Event, line: Line) {
    && e.Speak? && e.sid in w.clients && line.session == Some(e.sid)
    && var plan := Consider(w.clients[e.sid].pump, e.m, e.hook);
       plan.Pass? && line.entry == FromClient(e.o.serial, plan.m)
  }

  /** `log` is `before`, some lines that are not client messages, and the message `sent`. */
  predicate AppendsMessage(before: seq<Line>, log: seq<Line>, session: Option<nat>, sent: Entry) {
    && |before| < |log| && before == log[..|before|]
    && log[|log| - 1].session == session && log[|log| - 1].entry == sent
    && forall i :: |before| <= i < |log| - 1 ==> !log[i].entry.FromClient?
  }

  lemma LinesAppendMessage(w: World, v: World, conn: nat, session: Option<nat>, front: seq<Entry>, sent: Entry)
    requires Appends(w, v) && (front == [] || (|front| == 1 && front[0].Replay?))
    ensures AppendsMessage(w.log, v.log + Lines(conn, session, front + [sent]), session, sent)
  {
    var log := v.log + Lines(conn, session, front + [sent]);
    assert w.log == v.log[..|w.log|] == log[..|w.log|];
  }

  lemma ForwardStepAdds(w: World, e: Event)
    requires Enabled(w, e) && e.Speak?
    requires Consider(w.clients[e.sid].pump, e.m, e.hook).Pass?
    requires w.clients[e.sid].pump.lease.Some? || SupplyFor(w, e).Some?
    ensures var plan, supply := Consider(w.clients[e.sid].pump, e.m, e.hook), SupplyFor(w, e);
            && (plan.pump.lease.Some? || supply.Some?)
            && Step(w, e).log == Carried(Drawn(w, e), e.sid, plan.pump, plan.m, e.o, supply).log
            && Appends(w, Drawn(w, e))
  {
    ForwardedNoted(w, e);
    ForwardedBy(w.clients[e.sid], e.m, e.o, e.hook, SupplyFor(w, e), e.fault);
    SupplyAppends(w, e.supply);
  }

  lemma ForwardAppends(w: World, e: Event)
    requires Enabled(w, e) && e.Speak?
    requires Consider(w.clients[e.sid].pump, e.m, e.hook).Pass?
    requires w.clients[e.sid].pump.lease.Some? || SupplyFor(w, e).Some?
    ensures AppendsMessage(w.log, Step(w, e).log, Some(e.sid),
                           FromClient(e.o.serial, Consider(w.clients[e.sid].pump, e.m, e.hook).m))
  {
    var plan, supply := Consider(w.clients[e.sid].pump, e.m, e.hook), SupplyFor(w, e);
    ForwardStepAdds(w, e);
    WrittenWire(plan.pump, plan.m, e.o, supply);
    var c := Before(plan.pump, supply);
    LinesAppendMessage(w, Drawn(w, e), c.id, Some(e.sid),
                       if plan.pump.lease.Some? then [] else [Replay(ToSet(c, plan.pump), plan.pump.registry)],
                       FromClient(e.o.serial, plan.m));
  }

  lemma AnswerAppends(w: World, e: Event)
    requires Enabled(w, e) && e.Speak?
    requires Spared(w.clients[e.sid].pump, e.m, e.hook, SupplyFor(w, e))
    ensures Appends(w, Step(w, e))
  {
    var x, supply, u := w.clients[e.sid], SupplyFor(w, e), Noted(w, e);
    AnsweredNoted(w, e);
    SupplyAppends(w, e.supply);
    FinishedAppends(u, e.sid, OnMessage(x, e.m, e.o, e.hook, supply, e.fault).pump, e.ret);
    AppendsOn(w, u, Step(w, e));
  }

  lemma ScatterAppends(w: World, e: Event)
    requires Enabled(w, e) && e.Speak? && Consider(w.clients[e.sid].pump, e.m, e.hook).Scattered?
    ensures Appends(w, Step(w, e))
  {
    ScatteredNoted(w, e);
  }

  lemma AppendedMessage(before: seq<Line>, log: seq<Line>, session: Option<nat>, sent: Entry, i: nat)
    requires AppendsMessage(before, log, session, sent) && i < |log|
    ensures i < |before| ==> log[i] == before[i]
    ensures i >= |before| && log[i].entry.FromClient? ==> log[i].session == session && log[i].entry == sent
  {
  }

  /** Lines stay, and a new client message is the one of the event. */
  lemma StepAppends(w: World, e: Event, i: nat)
    requires Enabled(w, e) && i < |Step(w, e).log|
    ensures var log := Step(w, e).log;
            if i < |w.log| then log[i] == w.log[i]
            else log[i].entry.FromClient? ==> Forwards(w, e, log[i])
  {
    if !e.Speak? {
      OthersAppend(w, e);
    } else if Consider(w.clients[e.sid].pump, e.m, e.hook).Scattered? {
      ScatterAppends(w, e);
    } else if Consider(w.clients[e.sid].pump, e.m, e.hook).Pass? &&
              (w.clients[e.sid].pump.lease.Some? || SupplyFor(w, e).Some?)
    {
      ForwardAppends(w, e);
      AppendedMessage(w.log, Step(w, e).log, Some(e.sid),
                      FromClient(e.o.serial, Consider(w.clients[e.sid].pump, e.m, e.hook).m), i);
    } else {
      AnswerAppends(w, e);
    }
  }

  lemma RunAppends(ws: seq<World>, es: seq<Event>, n: nat, i: nat)
    requires IsRun(ws, es) && n < |es| && i < |ws[n + 1].log|
    ensures i < |ws[n].log| ==> ws[n + 1].log[i] == ws[n].log[i]
    ensures i >= |ws[n].log| && ws[n + 1].log[i].entry.FromClient? ==> Forwards(ws[n], es[n], ws[n + 1].log[i])
  {
    StepAppends(ws[n], es[n], i);
  }

  /** A line of the log that is a client message was sent by a client, and forwarded as it stands. */
  lemma {:induction false} LineWasSent(ws: seq<World>, es: seq<Event>, defaults: map<string, string>, k: nat, i: nat)
    returns (j: nat)
    requires IsRun(ws, es) && ws[0] == Empty(defaults) && k < |ws|
    requires i < |ws[k].log| && ws[k].log[i].entry.FromClient?
    ensures j < k && Forwards(ws[j], es[j], ws[k].log[i])
  {
    var n := k - 1;
    RunAppends(ws, es, n, i);
    if i < |ws[n].log| {
      j := LineWasSent(ws, es, defaults, n, i);
    } else {
      j := n;
    }
  }
}

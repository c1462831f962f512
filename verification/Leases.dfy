/**
 What a session may leave behind on the connection it leases: named statements stay within the
 registry, and a lease whose dirty flag is off has nothing to clean up.
 */
module Leases {
  import opened Protocol
  import opened Connection
  import opened Session
  import opened Shapes
  import opened Phases

  /** Reported parameters equal the server's defaults, tracked startup parameters aside. */
  ghost predicate AtBaseline(params: map<string, string>, defaults: map<string, string>) {
    forall n: string :: n !in TRACKED ==> Lookup(params, n) == Lookup(defaults, n)
  }

  predicate Within(held: map<string, Statement>, registry: map<string, Statement>) {
    forall n <- held :: n in registry && registry[n] == held[n]
  }

  /** Fit to be parked: no named statement, no transaction, nothing unread or owed, parameters at
      the baseline. */
  ghost predicate ParkedClean(c: Conn, defaults: map<string, string>) {
    Suppliable(c) && c.server.defaults == defaults && AtBaseline(c.server.params, defaults)
  }

  ghost predicate LeaseOk(c: Conn, registry: map<string, Statement>, dirty: bool, defaults: map<string, string>) {
    && CacheTrue(c)
    && c.server.defaults == defaults
    && Within(Flushed(c).server.stmts, registry)
    && (!dirty ==> Flushed(c).server.stmts == map[] && AtBaseline(c.cache, defaults))
  }

  ghost predicate LeaseInv(p: Pump, defaults: map<string, string>) {
    p.lease.Some? ==> LeaseOk(p.lease.value, p.registry, p.dirty, defaults)
  }

  lemma LeaseHolds(q: Pump, c: Conn, registry: map<string, Statement>, dirty: bool, defaults: map<string, string>)
    requires q.lease == Some(c) && q.registry == registry && q.dirty == dirty
    requires LeaseOk(c, registry, dirty, defaults)
    ensures LeaseInv(q, defaults)
  {
  }

  lemma StatementsAdded(s: Server, m: Frontend, o: Outcome)
    ensures var t := React(s, m, o).server.stmts;
            forall n <- t :: (n in s.stmts && t[n] == s.stmts[n]) || (NamedParse(m) && n == m.name && t[n] == m.stmt)
  {
  }

  /** No double Parse: a named Parse is written to a connection only while, behind everything
      already buffered for it, the connection does not hold that name. */
  lemma ForwardedParseIsNew(p: Pump, m: Frontend, hook: Hook, supply: Option<Conn>, defaults: map<string, string>)
    requires LeaseInv(p, defaults)
    requires supply.Some? ==> ParkedClean(supply.value, defaults)
    requires Consider(p, m, hook).Pass?
    requires p.lease.Some? || supply.Some?
    requires NamedParse(Consider(p, m, hook).m)
    ensures var plan := Consider(p, m, hook);
            plan.m.name !in Flushed(Leased(plan.pump, supply).lease.value).server.stmts
  {
    var plan := Consider(p, m, hook);
    PlanKeeps(p, m, hook);
    if p.lease.None? {
      FlushedNothing(Prepared(supply.value, plan.pump));
    }
  }

  lemma AttachedLease(p: Pump, c: Conn, defaults: map<string, string>)
    requires ParkedClean(c, defaults)
    ensures LeaseInv(Attached(p, c), defaults)
  {
    var d := Prepared(c, p);
    FlushedNothing(d);
    if !Attached(p, c).dirty {
      forall n: string | n !in TRACKED ensures Lookup(d.cache, n) == Lookup(defaults, n) {
        assert n !in Differing(c.cache, Named(p.startup));
      }
    }
  }

  lemma WrittenLease(q: Pump, m: Frontend, o: Outcome, defaults: map<string, string>)
    requires LeaseInv(q, defaults) && q.lease.Some?
    requires NamedParse(m) ==> m.name !in q.registry
    ensures LeaseOk(Written(q.lease.value, m, o), Recorded(q, m).registry, Recorded(q, m).dirty, defaults)
  {
    var c := q.lease.value;
    WrittenConn(c, m, o);
    StatementsWithin(Flushed(c).server, m, o, q.registry);
  }

  lemma StatementsWithin(s: Server, m: Frontend, o: Outcome, registry: map<string, Statement>)
    requires Within(s.stmts, registry) && (NamedParse(m) ==> m.name !in registry)
    ensures Within(React(s, m, o).server.stmts, NowRegistered(registry, m))
    ensures s.stmts == map[] && !NamedParse(m) ==> React(s, m, o).server.stmts == map[]
  {
    StatementsAdded(s, m, o);
  }

  lemma WrittenConn(c: Conn, m: Frontend, o: Outcome)
    requires CacheTrue(c)
    ensures var d := Written(c, m, o);
            && CacheTrue(d) && d.cache == c.cache && d.server.defaults == c.server.defaults
            && Flushed(d).server == React(Flushed(c).server, m, o).server
  {
    WrittenIs(c, m, o);
    if TriggersResponse(m) {
      SendCache(c, m, o);
    }
  }

  lemma PassEffects(p: Pump, m: Frontend, o: Outcome, supply: Option<Conn>)
    requires p.lease.Some? || supply.Some?
    ensures var q, turn := Leased(p, supply), Forwarded(p, m, o, supply, false);
            && turn.pump.lease == Some(Written(q.lease.value, m, o))
            && turn.pump.registry == Recorded(q, m).registry
            && turn.pump.dirty == Recorded(q, m).dirty
  {
  }

  lemma PassLease(p: Pump, m: Frontend, o: Outcome, supply: Option<Conn>, fault: bool, defaults: map<string, string>)
    requires LeaseInv(p, defaults)
    requires supply.Some? ==> ParkedClean(supply.value, defaults)
    requires NamedParse(m) ==> m.name !in p.registry
    ensures LeaseInv(Forwarded(p, m, o, supply, fault).pump, defaults)
  {
    if (p.lease.Some? || supply.Some?) && !fault {
      var q := Leased(p, supply);
      if p.lease.None? {
        AttachedLease(p, supply.value, defaults);
      }
      PassEffects(p, m, o, supply);
      WrittenLease(q, m, o, defaults);
      LeaseHolds(Forwarded(p, m, o, supply, fault).pump, Written(q.lease.value, m, o),
                 Recorded(q, m).registry, Recorded(q, m).dirty, defaults);
    }
  }

  lemma FrontendLease(p: Pump, m: Frontend, o: Outcome, hook: Hook, supply: Option<Conn>, fault: bool,
                      defaults: map<string, string>)
    requires LeaseInv(p, defaults)
    requires supply.Some? ==> ParkedClean(supply.value, defaults)
    requires Consider(p, m, hook).Scattered? && p.lease.Some? ==> Open(p.lease.value)
    requires PlanTold(p, Consider(p, m, hook))
    ensures LeaseInv(OnFrontend(p, m, o, hook, supply, fault).pump, defaults)
  {
    PlanKeeps(p, m, hook);
    match Consider(p, m, hook)
    case Answer(q, _) => assert q.lease.None? || q.registry == p.registry;
    case Quit(_) =>
    case Pass(q, m') => PassLease(q, m', o, supply, fault, defaults);
    case Scattered(q, _, leg) =>
      if q.lease.Some? {
        LegLease(p.lease.value, leg, p.registry, p.dirty, defaults);
      }
  }

  /** Nothing is reported, by the leg or ahead of its answer, that the dirty flag does not tell of. */
  predicate LegTold(c: Conn, leg: LegRun, dirty: bool) {
    dirty || (leg.o.reports == [] && Silent(Flushed(c).unread))
  }

  /** What a plan's leg, if it has one, leaves on the session's connection is told by the dirty flag. */
  predicate PlanTold(p: Pump, plan: Plan) {
    plan.Scattered? && p.lease.Some? && plan.pump.lease.Some? ==> LegTold(p.lease.value, plan.leg, p.dirty)
  }

  lemma LegLease(c: Conn, leg: LegRun, registry: map<string, Statement>, dirty: bool, defaults: map<string, string>)
    requires LeaseOk(c, registry, dirty, defaults) && Open(c)
    requires LegRan(c, leg).Some? && LegTold(c, leg, dirty)
    ensures LeaseOk(LegRan(c, leg).value, registry, dirty, defaults)
  {
    var f, d := Flushed(c), LegRan(c, leg).value;
    LegResult(c, leg);
    LegCache(c, leg);
    FlushedNothing(d);
    if !dirty {
      SilentReplies(c.cache, f.unread);
      assert f.unread + Statuses([]) == f.unread;
    }
  }

  lemma LegCache(c: Conn, leg: LegRun)
    requires CacheTrue(c) && LegRan(c, leg).Some?
    ensures CacheTrue(LegRan(c, leg).value) && LegRan(c, leg).value.server.defaults == c.server.defaults
  {
    SendCache(c, Query(leg.sql), leg.o);
    DrainLaw(LegSent(c, leg));
  }

  lemma NextLease(c: Conn, registry: map<string, Statement>, dirty: bool, defaults: map<string, string>)
    requires LeaseOk(c, registry, dirty, defaults) && c.unread != []
    ensures LeaseOk(Next(c), registry, dirty || c.unread[0].ParameterStatus? || c.unread[0].ParameterReset?, defaults)
  {
    NextCache(c);
    FlushedNext(c);
  }

  lemma ReadReady(p: Pump)
    requires p.lease.Some? && p.lease.value.unread != [] && p.lease.value.unread[0].ReadyForQuery?
    ensures var turn, c := OnBackend(p), p.lease.value;
            && turn.pump.registry == p.registry
            && (turn.pump.lease.Some? ==> turn.pump.lease == Some(Next(c)) && turn.pump.dirty == p.dirty)
            && (turn.released.Some? ==> turn.released.value == (Next(c), p.dirty))
  {
  }

  lemma ReadOther(p: Pump)
    requires p.lease.Some? && p.lease.value.unread != [] && !p.lease.value.unread[0].ReadyForQuery?
    ensures var turn, m := OnBackend(p), p.lease.value.unread[0];
            && turn.pump.registry == p.registry
            && turn.pump.dirty == (p.dirty || m.ParameterStatus? || m.ParameterReset?)
  {
  }

  lemma BackendLease(p: Pump, defaults: map<string, string>)
    requires LeaseInv(p, defaults) && p.lease.Some? && p.lease.value.unread != []
    ensures LeaseInv(OnBackend(p).pump, defaults)
    ensures OnBackend(p).released.Some? ==>
              LeaseOk(OnBackend(p).released.value.0, p.registry, OnBackend(p).released.value.1, defaults)
  {
    var c, m := p.lease.value, p.lease.value.unread[0];
    NextLease(c, p.registry, p.dirty, defaults);
    if m.ReadyForQuery? {
      ReadReady(p);
    } else {
      ReadKeeps(p);
      ReadOther(p);
    }
    if OnBackend(p).pump.lease.Some? {
      LeaseHolds(OnBackend(p).pump, Next(c), p.registry,
                 p.dirty || m.ParameterStatus? || m.ParameterReset?, defaults);
    }
  }

  /** A cancel request touches neither statements nor what is known of the parameters. */
  lemma CancelLease(p: Pump, phase: Phase, o: Outcome, defaults: map<string, string>)
    requires LeaseInv(p, defaults) && (p.lease.Some? ==> Shape(p.lease.value, phase))
    ensures LeaseInv(OnCancelRequest(p, o), defaults)
  {
    if p.lease.Some? {
      var c := p.lease.value;
      CancelShape(c, phase, o);
      CancelCache(c, o);
      if c.server.mode.Copying? {
        FlushedNothing(c);
        FlushedNothing(Cancel(c, o));
      }
    }
  }

  /** The connection a detach gives back: DISCARD ALL if and only if the lease is dirty. */
  function CheckinDetached(c: Conn, dirty: bool, o: Outcome): Option<Conn> {
    if dirty then SimpleQuery(c, DiscardAll, o) else Some(c)
  }

  function DetachEntries(dirty: bool): seq<Entry> {
    if dirty then [Own(Run(DiscardAll))] else []
  }

  /** A probe of a parked connection is answered, whatever the server makes of the Sync, and changes nothing. */
  lemma ProbeIsAnswered(c: Conn, o: Outcome)
    requires AtBoundary(c) && CacheTrue(c)
    ensures CloseCycle(c, o) == Some(Probed(c))
  {
    var d := Send(c, Sync, o);
    BoundaryIsOpen(c);
    SyncOpen(c, o);
    assert Ending(d);
    EndingReads(d);
    FlushedNothing(c);
    FeedThenFlush(c, Sync, o);
    SendCache(c, Sync, o);
  }

  /** A detached connection is clean even when DISCARD ALL was skipped. */
  lemma DetachIsClean(c: Conn, registry: map<string, Statement>, dirty: bool, o: Outcome, defaults: map<string, string>)
    requires LeaseOk(c, registry, dirty, defaults)
    requires AtBoundary(c) && c.server.tx.Idle?
    requires CheckinDetached(c, dirty, o).Some?
    ensures ParkedClean(CheckinDetached(c, dirty, o).value, defaults)
    ensures CheckinDetached(c, dirty, o).value.id == c.id
  {
    FlushedNothing(c);
    if dirty {
      assert Owed(c) == 0;
      InStepCommand(c, DiscardAll, o);
    }
  }

  /** Exactly when a detach parks a clean connection: a dirty one if it owed no ReadyForQuery, an
      undirtied one, which is parked as it is, if it is idle between two cycles. */
  lemma DetachExactly(c: Conn, registry: map<string, Statement>, dirty: bool, o: Outcome, defaults: map<string, string>)
    requires LeaseOk(c, registry, dirty, defaults) && OnlyPipelined(c)
    requires CheckinDetached(c, dirty, o).Some?
    ensures ParkedClean(CheckinDetached(c, dirty, o).value, defaults) <==>
            if dirty then Owed(c) == 0 else AtBoundary(c) && c.server.tx.Idle?
  {
    if dirty {
      if Owed(c) == 0 {
        InStepCommand(c, DiscardAll, o);
      } else {
        OutOfStepCommand(c, DiscardAll, o);
        NoReadyCount([]);
      }
    } else if AtBoundary(c) {
      FlushedNothing(c);
    }
  }

  /** A connection that survives the sanitizing at session end is clean. */
  lemma CheckinIsClean(p: Pump, a: Answers, defaults: map<string, string>)
    requires p.lease.Some? && LeaseInv(p, defaults)
    requires OnlyPipelined(p.lease.value) && Owed(p.lease.value) <= Allowed(p.hygiene)
    requires Sanitize(p.lease.value, p.hygiene, a).Some?
    ensures ParkedClean(Sanitize(p.lease.value, p.hygiene, a).value, defaults)
    ensures Sanitize(p.lease.value, p.hygiene, a).value.id == p.lease.value.id
  {
    SanitizeExact(p.lease.value, p.hygiene, a);
  }
}

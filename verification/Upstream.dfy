/**
 The upstream connection as pool.rs and session.rs step it: an object whose buffers, cached status
 and cached parameters change with every message. Each method is proved against the function of the
 same purpose in `Connection` and `Session`.
 */
module Upstream {
  import opened Protocol
  import opened Connection
  import opened Session
  import opened Shapes
  import opened Phases

  class Link {
    const id: nat
    var server: Server
    var fed: seq<Sent>
    var unread: seq<Backend>
    var status: TxStatus
    var cache: map<string, string>
    ghost var wire: seq<Entry>

    ghost function View(): Conn
      reads this
    {
      Conn(id, server, fed, unread, status, cache, wire)
    }

    constructor (id: nat, defaults: map<string, string>)
      ensures View() == Connected(id, defaults)
    {
      this.id := id;
      server := Server(map[], defaults, defaults, Idle, Ready);
      fed, unread, status, cache := [], [], Idle, defaults;
      wire := [];
    }

    method FeedMessage(m: Frontend, o: Outcome)
      modifies this
      ensures View() == Feed(old(View()), m, o)
    {
      fed := fed + [(m, o)];
      wire := wire + [Own(m)];
    }

    /** Write `m` and flush: the server takes the buffered messages one by one. */
    method SendMessage(m: Frontend, o: Outcome)
      modifies this
      ensures View() == Send(old(View()), m, o)
    {
      FeedMessage(m, o);
      ghost var c := View();
      var i := 0;
      while i < |fed|
        invariant 0 <= i <= |fed| && fed == c.fed && status == c.status && cache == c.cache && wire == c.wire
        invariant server == ReactAll(c.server, fed[..i]).server
        invariant unread == c.unread + ReactAll(c.server, fed[..i]).replies
      {
        ReactAllStep(c.server, fed, i);
        var r := React(server, fed[i].0, fed[i].1);
        Regroup(c.unread, ReactAll(c.server, fed[..i]).replies, r.replies);
        server, unread := r.server, unread + r.replies;
        i := i + 1;
      }
      assert fed[..i] == fed;
      fed := [];
    }

    method CancelQuery(o: Outcome)
      modifies this
      ensures View() == Cancel(old(View()), o)
    {
      var r := CancelReaction(server, o);
      server, unread := r.server, unread + r.replies;
    }

    method ReadMessage() returns (m: Backend)
      requires unread != []
      modifies this
      ensures m == old(unread[0]) && View() == Next(old(View()))
    {
      m := unread[0];
      unread := unread[1..];
      match m {
        case ReadyForQuery(s) => status := s;
        case ParameterStatus(n, v) => cache := cache[n := v];
        case ParameterReset(values) => cache := values;
        case _ =>
      }
    }

    /** Read until ReadyForQuery. Without one, everything that arrives is read before the drain
        times out. */
    method DrainUntilReady() returns (ok: bool)
      modifies this
      ensures ok == Drain(old(View())).Some?
      ensures ok ==> View() == Drain(old(View())).value
      ensures !ok ==> View() == ReadAll(old(View()))
    {
      while unread != []
        invariant Drain(View()) == Drain(old(View()))
        invariant ReadAll(View()) == ReadAll(old(View()))
        decreases |unread|
      {
        var m := ReadMessage();
        if m.ReadyForQuery? {
          return true;
        }
      }
      ok := false;
    }

    method CloseOpenCycle(o: Outcome) returns (ok: bool)
      modifies this
      ensures ok == CloseCycle(old(View()), o).Some?
      ensures ok ==> View() == CloseCycle(old(View()), o).value
    {
      SendMessage(Sync, o);
      ok := DrainUntilReady();
    }

    method SettleDown(copyFail: bool, awaiting: bool, a: Answers) returns (ok: bool)
      modifies this
      ensures ok == Settle(old(View()), copyFail, awaiting, a).Some?
      ensures ok ==> View() == Settle(old(View()), copyFail, awaiting, a).value
    {
      if copyFail {
        SendMessage(CopyFail, a.copyFail);
      }
      if awaiting {
        CancelQuery(a.cancel);
      }
      ok := DrainUntilReady();
      if !ok {
        ok := CloseOpenCycle(a.sync);
      }
    }

    /** Read one response cycle; an error in it fails it. */
    method ReadCycle() returns (ok: bool)
      modifies this
      ensures ok == (!FailsFirst(old(unread)) && Drain(old(View())).Some?)
      ensures ok ==> View() == Drain(old(View())).value
      ensures wire == old(wire)
    {
      while unread != []
        invariant wire == old(wire)
        invariant FailsFirst(unread) == FailsFirst(old(unread))
        invariant Drain(View()) == Drain(old(View()))
        decreases |unread|
      {
        var m := ReadMessage();
        if m.ErrorResponse? {
          return false;
        }
        if m.ReadyForQuery? {
          return true;
        }
      }
      ok := false;
    }

    /** Run one command of the proxy's own. */
    method RunSimple(command: Command, o: Outcome) returns (ok: bool)
      modifies this
      ensures ok == SimpleQuery(old(View()), command, o).Some?
      ensures ok ==> View() == SimpleQuery(old(View()), command, o).value
      ensures wire == old(wire) + [Own(Run(command))]
    {
      SendMessage(Run(command), o);
      ok := ReadCycle();
    }

    /** Stop whatever is still running and read the cycle that is open. */
    method QuietDown(h: Hygiene, a: Answers) returns (ok: bool)
      modifies this
      ensures ok == Quiesce(old(View()), h, a).Some?
      ensures ok ==> View() == Quiesce(old(View()), h, a).value
    {
      if h.copy.ClientOwesCopy? {
        ok := SettleDown(true, h.awaiting, a);
      } else if h.awaiting {
        ok := SettleDown(false, true, a);
      } else {
        ok := CloseOpenCycle(a.sync);
      }
    }

    /** Return the connection to a neutral state after a session. */
    method SanitizeForPool(h: Hygiene, a: Answers) returns (ok: bool)
      modifies this
      ensures ok == Sanitize(old(View()), h, a).Some?
      ensures ok ==> View() == Sanitize(old(View()), h, a).value
      ensures ok && old(OnlyPipelined(View()) && CacheTrue(View())) ==>
                (Neutral(View()) <==> old(Owed(View())) <= Allowed(h))
    {
      ghost var c := View();
      ok := QuietDown(h, a);
      if !ok {
        return;
      }
      if !status.Idle? {
        ok := RunSimple(Rollback, a.rollback);
        if !ok {
          return;
        }
      }
      ok := RunSimple(DiscardAll, a.discard);
      if ok && OnlyPipelined(c) && CacheTrue(c) {
        SanitizeExact(c, h, a);
      }
    }

    /** SET one parameter: it succeeds exactly when the server takes the value. */
    method SetParameter(n: string, v: string, o: Outcome) returns (ok: bool)
      requires AtBoundary(View()) && cache == server.params
      modifies this
      ensures ok <==> o.ok
      ensures ok ==> View() == WithParams(old(View()), old(cache)[n := v], [Own(Run(SetParam(n, v)))])
      ensures wire == old(wire) + [Own(Run(SetParam(n, v)))]
    {
      SetOnBoundary(View(), n, v, o);
      ok := RunSimple(SetParam(n, v), o);
    }

    /** SET the next parameter, unless the connection has its value already. */
    method SetNext(wanted: map<string, string>, order: seq<string>, i: nat, o: Outcome, changed: bool, ghost c: Conn)
      returns (ok: bool, changed': bool)
      requires Lists(order, wanted.Keys) && i < |order| && AfterSome(c, wanted, order[..i], View(), changed)
      modifies this
      ensures ok <==> (order[i] in Differing(c.cache, wanted) ==> o.ok)
      ensures ok ==> AfterSome(c, wanted, order[..i + 1], View(), changed')
      ensures ReplaysOnly(old(wire), wire)
    {
      SetStep(c, wanted, order, i, View(), changed);
      ok, changed' := true, changed;
      if Lookup(cache, order[i]) != wanted[order[i]] {
        ok := SetParameter(order[i], wanted[order[i]], o);
        changed' := true;
      }
    }

    /** SET every wanted parameter the connection does not have yet, in the order in which the
        source's map happens to yield them. It succeeds exactly when the server takes each of them. */
    method SetDiffering(wanted: map<string, string>, order: seq<string>, os: seq<Outcome>)
      returns (ok: bool, changed: bool)
      requires Lists(order, wanted.Keys) && |os| == |order|
      requires AtBoundary(View()) && cache == server.params
      modifies this
      ensures ok <==> Taken(Differing(old(cache), wanted), order, os)
      ensures ok ==>
                var m := Differing(old(cache), wanted);
                View() == WithParams(old(View()), old(cache) + m, Sets(m, order)) && (changed <==> m != map[])
      ensures ReplaysOnly(old(wire), wire)
    {
      ghost var c := View();
      NothingSet(c, wanted, order);
      ok, changed := true, false;
      var i := 0;
      while i < |order|
        invariant 0 <= i <= |order|
        invariant AfterSome(c, wanted, order[..i], View(), changed)
        invariant TakenUpTo(Differing(c.cache, wanted), order, os, i)
        invariant ReplaysOnly(c.wire, wire)
      {
        ghost var before := wire;
        ok, changed := SetNext(wanted, order, i, os[i], changed, c);
        ReplaysOn(c.wire, before, wire);
        TakenStep(Differing(c.cache, wanted), order, os, i);
        if !ok {
          return;
        }
        i := i + 1;
      }
      AllSet(c, wanted, order, i, View(), changed);
    }

    /** Re-prepare every registered statement: Parse for each, one Sync, one response cycle. It succeeds
        exactly when there is nothing to prepare, or the server takes every Parse and the Sync. */
    method Replay(registry: map<string, Statement>, order: seq<string>, os: seq<Outcome>, sync: Outcome)
      returns (ok: bool)
      requires Lists(order, registry.Keys) && |os| == |order| && "" !in registry
      requires AtBoundary(View()) && server.stmts == map[] && CacheTrue(View())
      modifies this
      ensures ok <==> registry == map[] || (AllOk(os) && sync.ok)
      ensures ok ==>
                View() == old(View()).(server := old(server).(stmts := registry),
                                       wire := old(wire) + Reparses(registry, order))
      ensures ReplaysOnly(old(wire), wire)
    {
      if |order| == 0 {
        ListsNothing(order, registry);
        return true;
      }
      ghost var c := View();
      var i := 0;
      while i < |order|
        invariant 0 <= i <= |order|
        invariant View() == c.(fed := Parses(registry, order[..i], os[..i]),
                               wire := c.wire + Entries(registry, order[..i]))
      {
        assert order[..i + 1][..i] == order[..i] && os[..i + 1][..i] == os[..i];
        FeedMessage(Parse(order[i], registry[order[i]]), os[i]);
        EntriesGrow(c.wire, registry, order, i);
        i := i + 1;
      }
      assert order[..i] == order && os[..i] == os;
      assert order[0] in registry;
      ReplayLaw(c, registry, order, os, sync);
      SendMessage(Sync, sync);
      ok := ReadCycle();
    }

    /** Bring the parameters of a connection to what a session wants of them. */
    method PrepareParameters(p: Pump, tracked: seq<string>, overridden: seq<string>, os: seq<Outcome>,
                             os': seq<Outcome>)
      returns (ok: bool, changed: bool)
      requires AtBoundary(View()) && cache == server.params
      requires Lists(tracked, Named(p.startup).Keys) && |os| == |tracked|
      requires Lists(overridden, p.overrides.Keys) && |os'| == |overridden|
      modifies this
      ensures ok <==>
                && Taken(Differing(old(cache), Named(p.startup)), tracked, os)
                && Taken(Differing(AfterStartup(old(View()), p), p.overrides), overridden, os')
      ensures ok ==>
                var m := Differing(AfterStartup(old(View()), p), p.overrides);
                && (changed <==> m != map[])
                && View() == WithParams(old(View()), AfterStartup(old(View()), p) + m,
                                        Sets(Differing(old(cache), Named(p.startup)), tracked) + Sets(m, overridden))
      ensures ReplaysOnly(old(wire), wire)
    {
      ghost var c := View();
      ok, changed := SetDiffering(Named(p.startup), tracked, os);
      if !ok {
        return;
      }
      ghost var synced := wire;
      ok, changed := SetDiffering(p.overrides, overridden, os');
      ReplaysOn(c.wire, synced, wire);
      Regroup(c.wire, Sets(Differing(c.cache, Named(p.startup)), tracked),
              Sets(Differing(AfterStartup(c, p), p.overrides), overridden));
    }

    /** Bring a connection fresh from the pool into a session's state. It succeeds exactly when the server
        takes every SET, every Parse and the Sync, and writes nothing else even when it fails. */
    method Prepare(p: Pump, tracked: seq<string>, overridden: seq<string>, prepared: seq<string>,
                   os: seq<Outcome>, os': seq<Outcome>, os'': seq<Outcome>, sync: Outcome)
      returns (ok: bool, dirty: bool)
      requires Suppliable(View()) && "" !in p.registry
      requires Lists(tracked, Named(p.startup).Keys) && |os| == |tracked|
      requires Lists(overridden, p.overrides.Keys) && |os'| == |overridden|
      requires Lists(prepared, p.registry.Keys) && |os''| == |prepared|
      modifies this
      ensures ok <==>
                && Taken(Differing(old(cache), Named(p.startup)), tracked, os)
                && Taken(Differing(AfterStartup(old(View()), p), p.overrides), overridden, os')
                && (p.registry == map[] || (AllOk(os'') && sync.ok))
      ensures ok ==> (p.dirty || dirty) == Attached(p, old(View())).dirty
      ensures ok ==>
                var entries := Replayed(old(View()), p, tracked, overridden, prepared);
                View() == Prepared(old(View()), p).(wire := old(wire) + entries)
      ensures ReplaysOnly(old(wire), wire)
    {
      ghost var c := View();
      ok, dirty := PrepareParameters(p, tracked, overridden, os, os');
      if !ok {
        return;
      }
      ghost var sets := Sets(Differing(c.cache, Named(p.startup)), tracked)
                        + Sets(Differing(AfterStartup(c, p), p.overrides), overridden);
      ghost var overlaid := wire;
      ok := Replay(p.registry, prepared, os'', sync);
      ReplaysOn(c.wire, overlaid, wire);
      Regroup(c.wire, sets, Reparses(p.registry, prepared));
      dirty := dirty || p.registry != map[];
    }
  }

  // ---------------------------------------------------------------- replaying a session's state

  /** `order` yields every element of `keys` once. */
  predicate Lists(order: seq<string>, keys: set<string>) {
    && (forall i :: 0 <= i < |order| ==> order[i] in keys)
    && (forall i, j :: 0 <= i < j < |order| ==> order[i] != order[j])
    && (forall n <- keys :: n in order)
  }

  function WithParams(c: Conn, params: map<string, string>, written: seq<Entry>): Conn {
    c.(server := c.server.(params := params), cache := params, wire := c.wire + written)
  }

  /** Whatever became of it, an attach has written nothing but SETs, Parses and a Sync. */
  predicate ReplaysOnly(before: seq<Entry>, after: seq<Entry>) {
    && before <= after
    && forall i :: |before| <= i < |after| ==>
         after[i].Own? &&
         (after[i].m.Parse? || after[i].m.Sync? || (after[i].m.Run? && after[i].m.command.SetParam?))
  }

  lemma ReplaysOn(a: seq<Entry>, b: seq<Entry>, c: seq<Entry>)
    requires ReplaysOnly(a, b) && ReplaysOnly(b, c)
    ensures ReplaysOnly(a, c)
  {
  }

  predicate AllOk(os: seq<Outcome>) {
    forall i :: 0 <= i < |os| ==> os[i].ok
  }

  /** The server takes every SET of `m`. */
  predicate Taken(m: map<string, string>, order: seq<string>, os: seq<Outcome>)
    requires |os| == |order|
  {
    forall i :: 0 <= i < |order| && order[i] in m ==> os[i].ok
  }

  /** The SETs that `m` takes, in this order. */
  function Sets(m: map<string, string>, order: seq<string>): seq<Entry> {
    if order == [] then []
    else
      var n := order[|order| - 1];
      Sets(m, order[..|order| - 1]) + (if n in m then [Own(Run(SetParam(n, m[n])))] else [])
  }

  lemma SetsGrow(m: map<string, string>, order: seq<string>, i: nat)
    requires i < |order|
    ensures Sets(m, order[..i + 1]) ==
            Sets(m, order[..i]) + (if order[i] in m then [Own(Run(SetParam(order[i], m[order[i]])))] else [])
  {
    assert order[..i + 1][..i] == order[..i];
  }

  function Entries(registry: map<string, Statement>, order: seq<string>): seq<Entry>
    requires forall i :: 0 <= i < |order| ==> order[i] in registry
  {
    seq(|order|, i requires 0 <= i < |order| => Own(Parse(order[i], registry[order[i]])))
  }

  lemma EntriesGrow(wire: seq<Entry>, registry: map<string, Statement>, order: seq<string>, i: nat)
    requires i < |order| && forall j :: 0 <= j < |order| ==> order[j] in registry
    ensures wire + Entries(registry, order[..i]) + [Own(Parse(order[i], registry[order[i]]))] ==
            wire + Entries(registry, order[..i + 1])
  {
  }

  /** What re-preparing the registered statements writes. */
  function Reparses(registry: map<string, Statement>, order: seq<string>): seq<Entry>
    requires forall i :: 0 <= i < |order| ==> order[i] in registry
  {
    if order == [] then [] else Entries(registry, order) + [Own(Sync)]
  }

  /** What an attach writes to the connection. */
  function Replayed(c: Conn, p: Pump, tracked: seq<string>, overridden: seq<string>, prepared: seq<string>): seq<Entry>
    requires forall i :: 0 <= i < |prepared| ==> prepared[i] in p.registry
  {
    Sets(Differing(c.cache, Named(p.startup)), tracked)
    + Sets(Differing(AfterStartup(c, p), p.overrides), overridden)
    + Reparses(p.registry, prepared)
  }

  function Picked<K(==), V>(m: map<K, V>, names: seq<K>): map<K, V> {
    map n | n in m && n in names :: m[n]
  }

  lemma PickedAll<K, V>(m: map<K, V>, order: seq<K>, i: nat)
    requires i == |order| && forall n <- m :: n in order
    ensures Picked(m, order[..i]) == m
  {
    assert order[..i] == order;
  }

  lemma PickedGrows<K, V>(m: map<K, V>, order: seq<K>, i: nat)
    requires i < |order| && forall j :: 0 <= j < i ==> order[j] != order[i]
    ensures order[i] !in Picked(m, order[..i])
    ensures Picked(m, order[..i + 1]) ==
            if order[i] in m then Picked(m, order[..i])[order[i] := m[order[i]]] else Picked(m, order[..i])
  {
    assert order[..i + 1] == order[..i] + [order[i]];
  }

  lemma UpdateOver<K, V>(a: map<K, V>, b: map<K, V>, k: K, v: V)
    ensures a + b[k := v] == (a + b)[k := v]
    ensures b[k := v] != map[]
  {
    assert k in b[k := v];
  }

  /** A parameter not visited yet still has its old value. */
  lemma Visited(cache: map<string, string>, wanted: map<string, string>, order: seq<string>, i: nat)
    requires i < |order| && order[i] in wanted && forall j :: 0 <= j < i ==> order[j] != order[i]
    ensures var m, n := Differing(cache, wanted), order[i];
            var before, after := Picked(m, order[..i]), Picked(m, order[..i + 1]);
            if Lookup(cache + before, n) != wanted[n]
            then cache + after == (cache + before)[n := wanted[n]] && after != map[] && n in m && m[n] == wanted[n]
            else after == before && n !in m
  {
    var m := Differing(cache, wanted);
    PickedGrows(m, order, i);
    UpdateOver(cache, Picked(m, order[..i]), order[i], wanted[order[i]]);
  }

  /** `d` is `c` after the SETs for `names`. */
  predicate AfterSome(c: Conn, wanted: map<string, string>, names: seq<string>, d: Conn, changed: bool) {
    var m := Differing(c.cache, wanted);
    && AtBoundary(d) && d.cache == d.server.params
    && d == WithParams(c, c.cache + Picked(m, names), Sets(m, names))
    && (changed <==> Picked(m, names) != map[])
  }

  lemma NothingSet(c: Conn, wanted: map<string, string>, order: seq<string>)
    requires AtBoundary(c) && c.cache == c.server.params
    ensures AfterSome(c, wanted, order[..0], c, false)
  {
    var m := Differing(c.cache, wanted);
    assert Picked(m, []) == map[] && c.cache + map[] == c.cache && c.wire + [] == c.wire;
    assert order[..0] == [];
  }

  lemma AllSet(c: Conn, wanted: map<string, string>, order: seq<string>, i: nat, d: Conn, changed: bool)
    requires Lists(order, wanted.Keys) && i == |order| && AfterSome(c, wanted, order[..i], d, changed)
    ensures var m := Differing(c.cache, wanted);
            d == WithParams(c, c.cache + m, Sets(m, order)) && (changed <==> m != map[])
  {
    PickedAll(Differing(c.cache, wanted), order, i);
    assert order[..i] == order;
  }

  predicate TakenUpTo(m: map<string, string>, order: seq<string>, os: seq<Outcome>, i: nat)
    requires |os| == |order| && i <= |order|
  {
    forall j :: 0 <= j < i && order[j] in m ==> os[j].ok
  }

  lemma TakenStep(m: map<string, string>, order: seq<string>, os: seq<Outcome>, i: nat)
    requires |os| == |order| && i < |order| && TakenUpTo(m, order, os, i)
    ensures TakenUpTo(m, order, os, i + 1) <==> (order[i] in m ==> os[i].ok)
    ensures Taken(m, order, os) ==> TakenUpTo(m, order, os, i + 1)
  {
  }

  lemma SetStep(c: Conn, wanted: map<string, string>, order: seq<string>, i: nat, d: Conn, changed: bool)
    requires Lists(order, wanted.Keys) && i < |order| && AfterSome(c, wanted, order[..i], d, changed)
    ensures var m, n := Differing(c.cache, wanted), order[i];
            && (Lookup(d.cache, n) != wanted[n] <==> n in m)
            && AfterSome(c, wanted, order[..i + 1],
                         if n !in m then d
                         else WithParams(d, d.cache[n := wanted[n]], [Own(Run(SetParam(n, wanted[n])))]),
                         changed || n in m)
  {
    var m, n := Differing(c.cache, wanted), order[i];
    Visited(c.cache, wanted, order, i);
    SetsGrow(m, order, i);
    Regroup(c.wire, Sets(m, order[..i]), [Own(Run(SetParam(n, wanted[n])))]);
  }

  lemma SetOnBoundary(c: Conn, n: string, v: string, o: Outcome)
    requires AtBoundary(c) && c.cache == c.server.params
    ensures SimpleQuery(c, SetParam(n, v), o).Some? <==> o.ok
    ensures o.ok ==>
              SimpleQuery(c, SetParam(n, v), o).value ==
              WithParams(c, c.server.params[n := v], [Own(Run(SetParam(n, v)))])
  {
    FlushedNothing(c);
    assert Owed(c) == 0;
    CommandSucceedsExactly(c, SetParam(n, v), o);
    if o.ok {
      FeedThenFlush(c, Run(SetParam(n, v)), o);
      ArriveCommand(c, SetParam(n, v), o);
      assert Arrive(c, Run(SetParam(n, v)), o).unread == React(c.server, Run(SetParam(n, v)), o).replies;
    }
  }

  function Parses(registry: map<string, Statement>, order: seq<string>, os: seq<Outcome>): seq<Sent>
    requires |os| == |order| && forall i :: 0 <= i < |order| ==> order[i] in registry
  {
    seq(|order|, i requires 0 <= i < |order| => (Parse(order[i], registry[order[i]]), os[i]))
  }

  lemma ListsNothing(order: seq<string>, registry: map<string, Statement>)
    requires Lists(order, registry.Keys) && |order| == 0
    ensures registry == map[]
  {
  }

  predicate AllParsed(ms: seq<Backend>) {
    forall i :: 0 <= i < |ms| ==> ms[i].ParseComplete?
  }

  predicate ParsedAll(s: Server, r: Reaction, stmts: map<string, Statement>) {
    r.server == s.(stmts := stmts) && AllParsed(r.replies)
  }

  predicate ParseFailed(r: Reaction) {
    ReadyCount(r.replies) == 0 && FailsFirst(r.replies) && !r.server.mode.Copying?
  }

  lemma AllParsedNotReady(ms: seq<Backend>)
    requires AllParsed(ms)
    ensures ReadyCount(ms) == 0
  {
    NoReadyCount(ms);
  }

  /** Every statement so far is prepared if the server took every Parse; otherwise it has reported an error. */
  lemma {:induction false} ParsesLaw(s: Server, registry: map<string, Statement>, order: seq<string>, os: seq<Outcome>)
    requires s.mode.Ready? && s.stmts == map[] && |os| == |order| && "" !in registry
    requires forall i :: 0 <= i < |order| ==> order[i] in registry
    requires forall i, j :: 0 <= i < j < |order| ==> order[i] != order[j]
    ensures ParsesOutcome(s, ReactAll(s, Parses(registry, order, os)), Picked(registry, order), AllOk(os))
  {
    if order == [] {
      assert Parses(registry, order, os) == [] && Picked(registry, order) == map[];
    } else {
      var k := |order| - 1;
      ParsesLaw(s, registry, order[..k], os[..k]);
      PickedGrows(registry, order, k);
      assert order[..k + 1] == order;
      assert AllOk(os) <==> AllOk(os[..k]) && os[k].ok;
      ParsesLast(s, registry, order, os, k);
      ParseStep(s, ReactAll(s, Parses(registry, order[..k], os[..k])), Picked(registry, order[..k]), AllOk(os[..k]),
                order[k], registry[order[k]], os[k]);
    }
  }

  predicate ParsesOutcome(s: Server, r: Reaction, stmts: map<string, Statement>, ok: bool) {
    if ok then ParsedAll(s, r, stmts) else ParseFailed(r)
  }

  lemma ParsesLast(s: Server, registry: map<string, Statement>, order: seq<string>, os: seq<Outcome>, k: nat)
    requires |os| == |order| == k + 1 && forall i :: 0 <= i < |order| ==> order[i] in registry
    ensures var before := ReactAll(s, Parses(registry, order[..k], os[..k]));
            var last := React(before.server, Parse(order[k], registry[order[k]]), os[k]);
            ReactAll(s, Parses(registry, order, os)) == Reaction(last.server, before.replies + last.replies)
  {
    var sent := Parses(registry, order, os);
    assert sent[..k] == Parses(registry, order[..k], os[..k]);
  }

  lemma ParseStep(s: Server, before: Reaction, stmts: map<string, Statement>, ok: bool, name: string, stmt: Statement,
                  o: Outcome)
    requires s.mode.Ready? && ParsesOutcome(s, before, stmts, ok) && name != "" && name !in stmts
    ensures var last := React(before.server, Parse(name, stmt), o);
            ParsesOutcome(s, Reaction(last.server, before.replies + last.replies), stmts[name := stmt], ok && o.ok)
  {
    if ok {
      ParseNext(s, before, stmts, name, stmt, o);
    } else {
      ParseAfterFailure(before, name, stmt, o);
    }
  }

  lemma ParseNext(s: Server, before: Reaction, stmts: map<string, Statement>, name: string, stmt: Statement, o: Outcome)
    requires s.mode.Ready? && ParsedAll(s, before, stmts) && name != "" && name !in stmts
    ensures var last := React(before.server, Parse(name, stmt), o);
            var r := Reaction(last.server, before.replies + last.replies);
            if o.ok then ParsedAll(s, r, stmts[name := stmt]) else ParseFailed(r)
  {
    var last := React(before.server, Parse(name, stmt), o);
    if !o.ok {
      AllParsedNotReady(before.replies);
      AbortCount(before.server, o);
      ReadyCountAppend(before.replies, last.replies);
      BatchAbortFails(before.server, o);
      FailsFirstLaw(before.replies, last.replies);
    }
  }

  lemma ParseAfterFailure(before: Reaction, name: string, stmt: Statement, o: Outcome)
    requires ParseFailed(before)
    ensures var last := React(before.server, Parse(name, stmt), o);
            ParseFailed(Reaction(last.server, before.replies + last.replies))
  {
    var last := React(before.server, Parse(name, stmt), o);
    BatchReact(before.server, Parse(name, stmt), o);
    PlainNotReady(last.replies);
    ReadyCountAppend(before.replies, last.replies);
    FailsFirstKeeps(before.replies, last.replies);
  }

  /** Exactly when a replay's response cycle shows no error; it then leaves just the registered statements. */
  lemma ReplayLaw(c: Conn, registry: map<string, Statement>, order: seq<string>, os: seq<Outcome>, sync: Outcome)
    requires AtBoundary(c) && c.server.stmts == map[] && CacheTrue(c) && "" !in registry
    requires Lists(order, registry.Keys) && |os| == |order| && order != []
    ensures var b := c.(fed := Parses(registry, order, os), wire := c.wire + Entries(registry, order));
            var d := Send(b, Sync, sync);
            && (!FailsFirst(d.unread) && Drain(d).Some? <==> AllOk(os) && sync.ok)
            && (AllOk(os) && sync.ok ==>
                  Drain(d).Some? &&
                  Drain(d).value ==
                  c.(server := c.server.(stmts := registry), wire := c.wire + Reparses(registry, order)))
  {
    var b := c.(fed := Parses(registry, order, os), wire := c.wire + Entries(registry, order));
    var f := Flushed(b);
    FeedThenFlush(b, Sync, sync);
    assert f.unread == ReactAll(c.server, b.fed).replies;
    ParsesLaw(c.server, registry, order, os);
    if AllOk(os) {
      assert order[..|order|] == order;
      PickedAll(registry, order, |order|);
      ReplayedCycle(c, f, Arrive(f, Sync, sync), sync);
      Regroup(c.wire, Entries(registry, order), [Own(Sync)]);
    } else {
      FailsFirstKeeps(f.unread, React(f.server, Sync, sync).replies);
    }
  }

  lemma ReplayedCycle(c: Conn, f: Conn, d: Conn, sync: Outcome)
    requires f.server.mode.Ready? && f.fed == [] && f.status == c.status == f.server.tx
    requires f.cache == c.cache && f.id == c.id
    requires c.fed == [] && c.unread == [] && CacheTrue(c) && f.server.params == c.server.params
    requires AllParsed(f.unread) && d == Arrive(f, Sync, sync)
    ensures FailsFirst(d.unread) <==> !sync.ok
    ensures Drain(d).Some? && Drain(d).value == c.(server := f.server, wire := d.wire)
  {
    var r := React(f.server, Sync, sync);
    AllParsedNotReady(f.unread);
    FailsFirstExactly(f.unread, r.replies);
    SyncOwes(f, sync);
    DrainLaw(d);
    DrainToLast(d);
    SilentReplies(f.cache, d.unread);
  }

  lemma ReactAllStep(s: Server, sent: seq<Sent>, i: nat)
    requires i < |sent|
    ensures var before := ReactAll(s, sent[..i]);
            var r := React(before.server, sent[i].0, sent[i].1);
            ReactAll(s, sent[..i + 1]) == Reaction(r.server, before.replies + r.replies)
  {
    assert sent[..i + 1][..i] == sent[..i];
  }
}

/**
 The pool under concurrency: callers check connections out and in, cancel, connect, probe and drop, in
 any interleaving, while the sweeper evicts. Idle connections hold no permit, and yet idle plus
 outgoing connections never exceed the pool's size.
 */
module PoolSteps {
  import opened Protocol

  /** Where a caller stands in `checkout` or `checkin`. `Leaving` still holds its permit. */
  datatype Caller =
    | Queued
    | Permitted
    | Probing(conn: nat)
    | Connecting
    | Leasing(conn: nat)
    | Returning(conn: nat)
    | Leaving

  /** The counters of PoolMetrics that account for connections, and two the source does not keep:
      failed connects, and connections dropped with a cancelled future or an unreturned lease. */
  datatype Counters = Counters(
    created: nat,
    dropped: nat,
    evicted: nat,
    active: int,
    connectFailures: nat,
    discarded: nat,
    leaked: nat)

  datatype Pool = Pool(maxSize: nat, idle: seq<nat>, callers: map<nat, Caller>, next: nat, n: Counters)

  /** What a popped idle connection turns out to be. */
  datatype Verdict = Expired | Stale | Fresh

  datatype Event =
    | Arrive(caller: nat)
    | Acquire(caller: nat)
    | Pop(caller: nat, verdict: Verdict)
    | Probed(caller: nat, alive: bool)
    | FoundNone(caller: nat)
    | ConnectEnds(caller: nat, ok: bool)
    | CancelCheckout(caller: nat)
    | BeginCheckin(caller: nat)
    | Park(caller: nat)
    | Reject(caller: nat, expired: bool)
    | CancelCheckin(caller: nat)
    | Destroy(caller: nat)
    | Abandon(caller: nat)
    | Release(caller: nat)
    | Sweep(index: nat)

  datatype Kind = Holding | Outgoing | Connected | Leased

  predicate Is(k: Kind, t: Caller) {
    match k
    case Holding => !t.Queued?
    case Outgoing => t.Probing? || t.Connecting? || t.Leasing? || t.Returning?
    case Connected => HasConn(t)
    case Leased => t.Leasing?
  }

  predicate HasConn(t: Caller) {
    t.Probing? || t.Leasing? || t.Returning?
  }

  function Of(k: Kind, callers: map<nat, Caller>): set<nat> {
    set t | t in callers && Is(k, callers[t])
  }

  function Size(maxSize: nat): nat {
    if maxSize < 1 then 1 else maxSize
  }

  // ---------------------------------------------------------------- steps

  predicate Enabled(p: Pool, e: Event) {
    match e
    case Arrive(t) => t !in p.callers
    case Acquire(t) => t in p.callers && p.callers[t].Queued? && |Of(Holding, p.callers)| < Size(p.maxSize)
    case Pop(t, _) => t in p.callers && p.callers[t].Permitted? && p.idle != []
    case Probed(t, _) => t in p.callers && p.callers[t].Probing?
    case FoundNone(t) => t in p.callers && p.callers[t].Permitted? && p.idle == []
    case ConnectEnds(t, _) => t in p.callers && p.callers[t].Connecting?
    case CancelCheckout(t) =>
      t in p.callers &&
      (p.callers[t].Queued? || p.callers[t].Permitted? || p.callers[t].Probing? || p.callers[t].Connecting?)
    case BeginCheckin(t) => t in p.callers && p.callers[t].Leasing?
    case Park(t) => t in p.callers && p.callers[t].Returning?
    case Reject(t, _) => t in p.callers && p.callers[t].Returning?
    case CancelCheckin(t) => t in p.callers && p.callers[t].Returning?
    case Destroy(t) => t in p.callers && p.callers[t].Leasing?
    case Abandon(t) => t in p.callers && p.callers[t].Leasing?
    case Release(t) => t in p.callers && p.callers[t].Leaving?
    case Sweep(i) => i < |p.idle|
  }

  /** Where an event leaves its caller; None when it is gone. */
  function CallerAfter(p: Pool, e: Event): Option<Caller>
    requires Enabled(p, e) && !e.Sweep?
  {
    match e
    case Arrive(_) => Some(Queued)
    case Acquire(_) => Some(Permitted)
    case Pop(_, verdict) =>
      var top := p.idle[|p.idle| - 1];
      Some(match verdict case Expired => Permitted case Stale => Probing(top) case Fresh => Leasing(top))
    case Probed(t, alive) => Some(if alive then Leasing(p.callers[t].conn) else Permitted)
    case FoundNone(_) => Some(Connecting)
    case ConnectEnds(_, ok) => if ok then Some(Leasing(p.next)) else None
    case BeginCheckin(t) => Some(Returning(p.callers[t].conn))
    case Park(_) => Some(Leaving)
    case Reject(_, _) => Some(Leaving)
    case _ => None
  }

  function IdleAfter(p: Pool, e: Event): seq<nat>
    requires Enabled(p, e)
  {
    match e
    case Pop(_, _) => p.idle[..|p.idle| - 1]
    case Park(t) => p.idle + [p.callers[t].conn]
    case Sweep(i) => p.idle[..i] + p.idle[i + 1..]
    case _ => p.idle
  }

  function CountersAfter(p: Pool, e: Event): Counters
    requires Enabled(p, e)
  {
    var n := p.n;
    match e
    case Pop(_, Expired) => n.(evicted := n.evicted + 1)
    case Pop(_, Fresh) => n.(active := n.active + 1)
    case Probed(_, alive) => if alive then n.(active := n.active + 1) else n.(dropped := n.dropped + 1)
    case ConnectEnds(_, ok) =>
      if ok then n.(created := n.created + 1, active := n.active + 1)
      else n.(dropped := n.dropped + 1, connectFailures := n.connectFailures + 1)
    case CancelCheckout(t) => if p.callers[t].Probing? then n.(discarded := n.discarded + 1) else n
    case BeginCheckin(_) => n.(active := n.active - 1)
    case Reject(_, expired) => if expired then n.(evicted := n.evicted + 1) else n.(dropped := n.dropped + 1)
    case CancelCheckin(_) => n.(discarded := n.discarded + 1)
    case Destroy(_) => n.(dropped := n.dropped + 1, active := n.active - 1)
    case Abandon(_) => n.(discarded := n.discarded + 1, leaked := n.leaked + 1)
    case Sweep(_) => n.(evicted := n.evicted + 1)
    case _ => n
  }

  function Put(callers: map<nat, Caller>, t: nat, v: Option<Caller>): map<nat, Caller> {
    if v.Some? then callers[t := v.value] else callers - {t}
  }

  function Step(p: Pool, e: Event): Pool
    requires Enabled(p, e)
  {
    Pool(p.maxSize, IdleAfter(p, e),
         if e.Sweep? then p.callers else Put(p.callers, e.caller, CallerAfter(p, e)),
         if e.ConnectEnds? && e.ok then p.next + 1 else p.next,
         CountersAfter(p, e))
  }

  function Empty(maxSize: nat): Pool {
    Pool(maxSize, [], map[], 0, Counters(0, 0, 0, 0, 0, 0, 0))
  }

  predicate IsRun(ps: seq<Pool>, es: seq<Event>) {
    && |ps| == |es| + 1
    && forall i :: 0 <= i < |es| ==> Enabled(ps[i], es[i]) && ps[i + 1] == Step(ps[i], es[i])
  }

  // ---------------------------------------------------------------- invariants

  /** The cap: idle plus held-or-connecting connections. */
  predicate Capped(p: Pool) {
    && |p.idle| + |Of(Outgoing, p.callers)| <= Size(p.maxSize)
    && |Of(Holding, p.callers)| <= Size(p.maxSize)
  }

  /** Every connection ever made, or attempted in vain, is somewhere. */
  predicate Conserved(p: Pool) {
    && p.n.created + p.n.connectFailures ==
       |p.idle| + |Of(Connected, p.callers)| + p.n.evicted + p.n.dropped + p.n.discarded
    && p.n.active == |Of(Leased, p.callers)| + p.n.leaked
  }

  /** No connection is in two places. */
  predicate Apart(p: Pool) {
    && (forall i :: 0 <= i < |p.idle| ==> p.idle[i] < p.next)
    && (forall i, j :: 0 <= i < j < |p.idle| ==> p.idle[i] != p.idle[j])
    && (forall t <- p.callers :: HasConn(p.callers[t]) ==> p.callers[t].conn < p.next && p.callers[t].conn !in p.idle)
    && (forall s <- p.callers, t <- p.callers :: s != t && HasConn(p.callers[s]) && HasConn(p.callers[t]) ==>
          p.callers[s].conn != p.callers[t].conn)
  }

  function One(b: bool): nat {
    if b then 1 else 0
  }

  lemma Without(s: set<nat>, t: nat)
    ensures |s - {t}| == |s| - One(t in s)
  {
  }

  lemma With(s: set<nat>, t: nat)
    requires t !in s
    ensures |s + {t}| == |s| + 1
  {
  }

  lemma PutCount(k: Kind, callers: map<nat, Caller>, t: nat, v: Option<Caller>)
    ensures |Of(k, Put(callers, t, v))| ==
            |Of(k, callers)| - One(t in callers && Is(k, callers[t])) + One(v.Some? && Is(k, v.value))
  {
    var s := Of(k, callers);
    PutMembers(k, callers, t, v);
    Without(s, t);
    With(s - {t}, t);
  }

  lemma PutMembers(k: Kind, callers: map<nat, Caller>, t: nat, v: Option<Caller>)
    ensures Of(k, Put(callers, t, v)) ==
            if v.Some? && Is(k, v.value) then Of(k, callers) - {t} + {t} else Of(k, callers) - {t}
  {
  }

  lemma OutgoingAreHolding(callers: map<nat, Caller>, t: nat)
    requires t in callers && callers[t].Permitted?
    ensures |Of(Outgoing, callers)| < |Of(Holding, callers)|
  {
    var rest := Of(Holding, callers) - {t};
    Without(Of(Holding, callers), t);
    Subset(Of(Outgoing, callers), rest);
  }

  lemma Subset(a: set<nat>, b: set<nat>)
    requires a <= b
    ensures |a| <= |b|
  {
    assert b == (b - a) + a;
  }

  lemma StepCapped(p: Pool, e: Event)
    requires Enabled(p, e) && Capped(p)
    ensures Capped(Step(p, e))
  {
    if !e.Sweep? {
      PutCount(Outgoing, p.callers, e.caller, CallerAfter(p, e));
      PutCount(Holding, p.callers, e.caller, CallerAfter(p, e));
      if e.FoundNone? {
        OutgoingAreHolding(p.callers, e.caller);
      }
    }
  }

  lemma StepConserved(p: Pool, e: Event)
    requires Enabled(p, e) && Conserved(p)
    ensures Conserved(Step(p, e))
  {
    if !e.Sweep? {
      PutCount(Connected, p.callers, e.caller, CallerAfter(p, e));
      PutCount(Leased, p.callers, e.caller, CallerAfter(p, e));
    }
  }

  lemma ApartIdle(p: Pool, e: Event)
    requires Enabled(p, e) && Apart(p)
    ensures var idle, next := IdleAfter(p, e), Step(p, e).next;
            && (forall i :: 0 <= i < |idle| ==> idle[i] < next)
            && (forall i, j :: 0 <= i < j < |idle| ==> idle[i] != idle[j])
            && (forall c <- idle :: c in p.idle || (e.Park? && c == p.callers[e.caller].conn))
            && (e.Pop? ==> p.idle[|p.idle| - 1] !in idle)
  {
  }

  /** The connection a caller holds after its event comes from the caller itself, from the top of the
      idle stack, or is new. */
  lemma ConnSource(p: Pool, e: Event)
    requires Enabled(p, e) && !e.Sweep?
    requires CallerAfter(p, e).Some? && HasConn(CallerAfter(p, e).value)
    ensures var c := CallerAfter(p, e).value.conn;
            || (e.caller in p.callers && HasConn(p.callers[e.caller]) && c == p.callers[e.caller].conn && !e.Park?)
            || (e.Pop? && c == p.idle[|p.idle| - 1])
            || (e.ConnectEnds? && e.ok && c == p.next)
  {
  }

  lemma StepApart(p: Pool, e: Event)
    requires Enabled(p, e) && Apart(p)
    ensures Apart(Step(p, e))
  {
    ApartIdle(p, e);
    if !e.Sweep? && CallerAfter(p, e).Some? && HasConn(CallerAfter(p, e).value) {
      ConnSource(p, e);
    }
    var q := Step(p, e);
    forall t | t in q.callers && HasConn(q.callers[t])
      ensures q.callers[t].conn < q.next && q.callers[t].conn !in q.idle
    {
      assert (!e.Sweep? && t == e.caller) || (t in p.callers && q.callers[t] == p.callers[t]);
    }
  }

  /** In every interleaving: the cap holds, connections are conserved, none is in two places. */
  lemma {:induction false} RunInv(ps: seq<Pool>, es: seq<Event>, maxSize: nat, k: nat)
    requires IsRun(ps, es) && ps[0] == Empty(maxSize) && k < |ps|
    ensures Capped(ps[k]) && Conserved(ps[k]) && Apart(ps[k]) && ps[k].maxSize == maxSize
  {
    if k == 0 {
      assert forall kind :: Of(kind, map[]) == {};
    } else {
      RunInv(ps, es, maxSize, k - 1);
      StepCapped(ps[k - 1], es[k - 1]);
      StepConserved(ps[k - 1], es[k - 1]);
      StepApart(ps[k - 1], es[k - 1]);
    }
  }

  /** The connection cap as the configuration documents it. */
  lemma ConnectionCap(ps: seq<Pool>, es: seq<Event>, maxSize: nat, k: nat)
    requires IsRun(ps, es) && ps[0] == Empty(maxSize) && k < |ps|
    ensures |ps[k].idle| + |Of(Outgoing, ps[k].callers)| <= (if maxSize < 1 then 1 else maxSize)
  {
    RunInv(ps, es, maxSize, k);
  }

  /** The gauge of connections checked out is right exactly when no lease was ever dropped without
      being returned or destroyed. */
  lemma ActiveExactlyWhenNoneLeaked(ps: seq<Pool>, es: seq<Event>, maxSize: nat, k: nat)
    requires IsRun(ps, es) && ps[0] == Empty(maxSize) && k < |ps|
    ensures ps[k].n.active == |Of(Leased, ps[k].callers)| <==> forall i :: 0 <= i < k ==> !es[i].Abandon?
  {
    RunInv(ps, es, maxSize, k);
    LeakedCounts(ps, es, k);
    assert ps[0].n.leaked == 0;
  }

  lemma {:induction false} LeakedCounts(ps: seq<Pool>, es: seq<Event>, k: nat)
    requires IsRun(ps, es) && k < |ps|
    ensures ps[k].n.leaked >= ps[0].n.leaked
    ensures ps[k].n.leaked == ps[0].n.leaked <==> forall i :: 0 <= i < k ==> !es[i].Abandon?
  {
    if k > 0 {
      LeakedCounts(ps, es, k - 1);
      assert ps[k] == Step(ps[k - 1], es[k - 1]);
      assert ps[k].n.leaked == ps[k - 1].n.leaked + One(es[k - 1].Abandon?);
    }
  }
}

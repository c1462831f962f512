/**
 The pool's LIFO stack of idle connections, as the source keeps it: `checkout` pops in a loop,
 `checkin` pushes, the sweeper retains in place.
 */
module IdleStack {
  import opened Protocol

  datatype Parked = Parked(conn: nat, idleSince: int, createdAt: int)

  datatype Config = Config(idleTimeout: int, maxLifetime: int, staleAfter: int)

  predicate TooOld(p: Parked, now: int, cfg: Config) {
    now - p.createdAt > cfg.maxLifetime
  }

  predicate IdleTooLong(p: Parked, now: int, cfg: Config) {
    now - p.idleSince > cfg.idleTimeout
  }

  predicate Stale(p: Parked, now: int, cfg: Config) {
    now - p.idleSince > cfg.staleAfter
  }

  predicate InLimit(p: Parked, now: int, cfg: Config) {
    !TooOld(p, now, cfg) && !IdleTooLong(p, now, cfg)
  }

  /** Young enough, and alive if it has to be probed; `alive` holds the connections a probe would
      find answering. */
  predicate Usable(p: Parked, now: int, cfg: Config, alive: set<nat>) {
    !TooOld(p, now, cfg) && (Stale(p, now, cfg) ==> p.conn in alive)
  }

  /** Oldest at the bottom. */
  predicate Sorted(s: seq<Parked>) {
    forall i, j :: 0 <= i < j < |s| ==> s[i].idleSince <= s[j].idleSince
  }

  predicate NotAfter(s: seq<Parked>, now: int) {
    forall i :: 0 <= i < |s| ==> s[i].idleSince <= now
  }

  /** The entries within both limits, in order. */
  function Kept(s: seq<Parked>, now: int, cfg: Config): seq<Parked> {
    if s == [] then []
    else
      var front, last := Kept(s[..|s| - 1], now, cfg), s[|s| - 1];
      if InLimit(last, now, cfg) then front + [last] else front
  }

  /** How many are past their lifetime. */
  function Aged(s: seq<Parked>, now: int, cfg: Config): nat {
    if s == [] then 0 else (if TooOld(s[0], now, cfg) then 1 else 0) + Aged(s[1..], now, cfg)
  }

  /** How many have to be probed. */
  function Probes(s: seq<Parked>, now: int, cfg: Config): nat {
    if s == [] then 0
    else (if !TooOld(s[0], now, cfg) && Stale(s[0], now, cfg) then 1 else 0) + Probes(s[1..], now, cfg)
  }

  class Stack {
    const cfg: Config
    var idle: seq<Parked>
    var evicted: nat
    var dropped: nat
    var probed: nat

    constructor (cfg: Config)
      ensures this.cfg == cfg && idle == [] && evicted == dropped == probed == 0
    {
      this.cfg := cfg;
      idle, evicted, dropped, probed := [], 0, 0, 0;
    }

    /** Park a connection now. */
    method Park(conn: nat, createdAt: int, now: int)
      modifies this`idle
      ensures idle == old(idle) + [Parked(conn, now, createdAt)]
      ensures old(Sorted(idle)) && old(NotAfter(idle, now)) ==> Sorted(idle) && NotAfter(idle, now)
    {
      idle := idle + [Parked(conn, now, createdAt)];
    }

    /** Take the most recently parked usable connection; only the ones above it are closed, those past their
        lifetime counted as evicted and the others, which failed their probe, as dropped. */
    method Checkout(now: int, alive: set<nat>) returns (r: Option<Parked>)
      modifies this
      ensures idle <= old(idle)
      ensures r.Some? ==>
                && |idle| < |old(idle)| && r.value == old(idle)[|idle|]
                && Usable(r.value, now, cfg, alive)
      ensures r.None? ==> idle == []
      ensures forall i :: |idle| + (if r.Some? then 1 else 0) <= i < |old(idle)| ==>
                !Usable(old(idle)[i], now, cfg, alive)
      ensures evicted + dropped == old(evicted + dropped) + |old(idle)| - |idle| - (if r.Some? then 1 else 0)
      ensures evicted == old(evicted) + Aged(old(idle)[|idle|..], now, cfg)
      ensures probed == old(probed) + Probes(old(idle)[|idle|..], now, cfg)
      ensures old(Sorted(idle)) ==> Sorted(idle)
    {
      while idle != []
        invariant idle <= old(idle)
        invariant forall i :: |idle| <= i < |old(idle)| ==> !Usable(old(idle)[i], now, cfg, alive)
        invariant evicted + dropped == old(evicted + dropped) + |old(idle)| - |idle|
        invariant evicted == old(evicted) + Aged(old(idle)[|idle|..], now, cfg)
        invariant probed == old(probed) + Probes(old(idle)[|idle|..], now, cfg)
        decreases |idle|
      {
        assert old(idle)[|idle| - 1..][1..] == old(idle)[|idle|..];
        var p := idle[|idle| - 1];
        idle := idle[..|idle| - 1];
        if TooOld(p, now, cfg) {
          evicted := evicted + 1;
          continue;
        }
        if Stale(p, now, cfg) {
          probed := probed + 1;
          if p.conn !in alive {
            dropped := dropped + 1;
            continue;
          }
        }
        return Some(p);
      }
      r := None;
    }

    /** Retain exactly the entries within both limits, in order. */
    method Sweep(now: int)
      modifies this
      ensures idle == Kept(old(idle), now, cfg)
      ensures evicted == old(evicted) + |old(idle)| - |idle|
      ensures dropped == old(dropped) && probed == old(probed)
    {
      var kept, expired, i := [], 0, 0;
      while i < |idle|
        invariant 0 <= i <= |idle| && idle == old(idle) && evicted == old(evicted)
        invariant dropped == old(dropped) && probed == old(probed)
        invariant kept == Kept(idle[..i], now, cfg) && expired == i - |kept|
      {
        assert idle[..i + 1][..i] == idle[..i];
        var p := idle[i];
        if IdleTooLong(p, now, cfg) || TooOld(p, now, cfg) {
          expired := expired + 1;
        } else {
          kept := kept + [p];
        }
        i := i + 1;
      }
      assert idle[..i] == idle;
      idle, evicted := kept, evicted + expired;
    }
  }

  /** An entry stays exactly when it is within both limits. */
  lemma {:induction false} KeptExactly(s: seq<Parked>, now: int, cfg: Config, p: Parked)
    ensures p in Kept(s, now, cfg) <==> p in s && InLimit(p, now, cfg)
    ensures multiset(Kept(s, now, cfg)) <= multiset(s)
  {
    if s != [] {
      KeptExactly(s[..|s| - 1], now, cfg, p);
      assert s == s[..|s| - 1] + [s[|s| - 1]];
    }
  }

  /** Sweeping keeps the stack sorted. */
  lemma {:induction false} KeptSorted(s: seq<Parked>, now: int, cfg: Config)
    requires Sorted(s)
    ensures Sorted(Kept(s, now, cfg))
  {
    if s != [] {
      var front := Kept(s[..|s| - 1], now, cfg);
      KeptSorted(s[..|s| - 1], now, cfg);
      forall i | 0 <= i < |front| ensures front[i].idleSince <= s[|s| - 1].idleSince {
        KeptExactly(s[..|s| - 1], now, cfg, front[i]);
      }
    }
  }

  /** Because the stack is sorted, whatever has been idle too long lies at the bottom. */
  lemma TimeoutsAtBottom(s: seq<Parked>, now: int, cfg: Config, i: nat, j: nat)
    requires Sorted(s) && i < j < |s| && IdleTooLong(s[j], now, cfg)
    ensures IdleTooLong(s[i], now, cfg)
  {
    assert s[i].idleSince <= s[j].idleSince;
  }

  /** The operations on the stack, under a clock that never goes back. */
  datatype Op = DoPark(conn: nat, createdAt: int) | DoCheckout(keep: nat) | DoSweep

  predicate Possible(s: seq<Parked>, op: Op) {
    op.DoCheckout? ==> op.keep <= |s|
  }

  function Apply(s: seq<Parked>, op: Op, now: int, cfg: Config): seq<Parked>
    requires Possible(s, op)
  {
    match op
    case DoPark(conn, createdAt) => s + [Parked(conn, now, createdAt)]
    case DoCheckout(keep) => s[..keep]
    case DoSweep => Kept(s, now, cfg)
  }

  predicate IsHistory(ss: seq<seq<Parked>>, ops: seq<Op>, clock: seq<int>, cfg: Config) {
    && |ss| == |ops| + 1 && |clock| == |ops| && ss[0] == []
    && (forall i, j :: 0 <= i < j < |clock| ==> clock[i] <= clock[j])
    && forall i :: 0 <= i < |ops| ==> Possible(ss[i], ops[i]) && ss[i + 1] == Apply(ss[i], ops[i], clock[i], cfg)
  }

  lemma {:induction false} KeptNotAfter(s: seq<Parked>, now: int, cfg: Config)
    requires NotAfter(s, now)
    ensures NotAfter(Kept(s, now, cfg), now)
  {
    if s != [] {
      KeptNotAfter(s[..|s| - 1], now, cfg);
    }
  }

  /** After any history of parking, checking out and sweeping, the stack is sorted by `idleSince`. */
  lemma {:induction false} AlwaysSorted(ss: seq<seq<Parked>>, ops: seq<Op>, clock: seq<int>, cfg: Config, k: nat)
    requires IsHistory(ss, ops, clock, cfg) && k < |ss|
    ensures Sorted(ss[k])
    ensures k > 0 ==> NotAfter(ss[k], clock[k - 1])
  {
    if k > 0 {
      var s, now := ss[k - 1], clock[k - 1];
      AlwaysSorted(ss, ops, clock, cfg, k - 1);
      assert NotAfter(s, now) by {
        if k > 1 {
          assert clock[k - 2] <= now;
        }
      }
      if ops[k - 1].DoSweep? {
        KeptSorted(s, now, cfg);
        KeptNotAfter(s, now, cfg);
      }
    }
  }
}

/**
 Passive endpoint health and the attach loop it steers: how many attempts `ensure_attached` needs
 under the default failover router, and exactly when its bounded number of attempts suffices.
 */
module Routing {
  import opened Protocol

  datatype Health = Alive(failures: nat) | Dead(since: int)

  /** The failure threshold is at least one: the setter raises a zero. */
  datatype Config = Config(threshold: nat, reviveAfter: int)

  type Group = map<string, Health>

  predicate IsAlive(g: Group, id: string, now: int, cfg: Config) {
    id !in g || g[id].Alive? || now - g[id].since >= cfg.reviveAfter
  }

  function Before(g: Group, id: string): Health {
    if id in g then g[id] else Alive(0)
  }

  function Struck(h: Health, now: int, cfg: Config): Health {
    if h.Alive? && h.failures + 1 < cfg.threshold then Alive(h.failures + 1) else Dead(now)
  }

  function AfterFailure(g: Group, id: string, now: int, cfg: Config): Group {
    g[id := Struck(Before(g, id), now, cfg)]
  }

  function AfterSuccess(g: Group, id: string): Group {
    if id in g then g[id := Alive(0)] else g
  }

  /** An alive endpoint has not reached the threshold. */
  predicate BelowThreshold(g: Group, cfg: Config) {
    cfg.threshold >= 1 && forall id <- g :: g[id].Alive? ==> g[id].failures < cfg.threshold
  }

  /** Position of the first alive endpoint at or after `i`; the number of endpoints if there is none. */
  function FirstAlive(g: Group, eps: seq<string>, i: nat, now: int, cfg: Config): nat
    requires i <= |eps|
    ensures i <= FirstAlive(g, eps, i, now, cfg) <= |eps|
    decreases |eps| - i
  {
    if i == |eps| || IsAlive(g, eps[i], now, cfg) then i else FirstAlive(g, eps, i + 1, now, cfg)
  }

  /** The failover router's choice: the first alive endpoint, or the first configured one. */
  function Route(g: Group, eps: seq<string>, now: int, cfg: Config): string {
    var k := FirstAlive(g, eps, 0, now, cfg);
    if k < |eps| then eps[k] else if eps == [] then "" else eps[0]
  }

  /** The attach loop from attempt `k` on: whether it attaches, and the health it leaves. `up` holds the
      endpoints on which checkout and replay succeed. */
  function Attach(g: Group, eps: seq<string>, up: set<string>, clock: seq<int>, k: nat, cfg: Config): (bool, Group)
    requires k <= |clock|
    decreases |clock| - k
  {
    if k == |clock| then (false, g)
    else
      var ep := Route(g, eps, clock[k], cfg);
      if ep !in eps then (false, g)
      else if ep in up then (true, AfterSuccess(g, ep))
      else Attach(AfterFailure(g, ep, clock[k], cfg), eps, up, clock, k + 1, cfg)
  }

  function Attempts(eps: seq<string>): nat {
    if 2 * |eps| < 2 then 2 else 2 * |eps|
  }

  // ---------------------------------------------------------------- the objects

  class EndpointGroup {
    const cfg: Config
    var health: Group

    ghost predicate Valid()
      reads this
    {
      BelowThreshold(health, cfg)
    }

    /** Track the given endpoints, all alive. */
    constructor (ids: seq<string>, threshold: nat, reviveAfter: int)
      ensures Valid() && cfg == Config(if threshold < 1 then 1 else threshold, reviveAfter)
      ensures health == map id | id in ids :: Alive(0)
    {
      cfg := Config(if threshold < 1 then 1 else threshold, reviveAfter);
      health := map id | id in ids :: Alive(0);
    }

    method ReportFailure(id: string, now: int)
      requires Valid()
      modifies this
      ensures Valid() && health == AfterFailure(old(health), id, now, cfg)
    {
      var h := if id in health then health[id] else Alive(0);
      match h {
        case Alive(failures) =>
          if failures + 1 >= cfg.threshold {
            health := health[id := Dead(now)];
          } else {
            health := health[id := Alive(failures + 1)];
          }
        case Dead(_) =>
          health := health[id := Dead(now)];
      }
    }

    method ReportSuccess(id: string)
      requires Valid()
      modifies this
      ensures Valid() && health == AfterSuccess(old(health), id)
    {
      if id in health {
        health := health[id := Alive(0)];
      }
    }

    method SelectFirstAlive(eps: seq<string>, now: int) returns (r: Option<string>)
      ensures var k := FirstAlive(health, eps, 0, now, cfg);
              r == if k < |eps| then Some(eps[k]) else None
    {
      var i := 0;
      while i < |eps|
        invariant 0 <= i <= |eps| && FirstAlive(health, eps, i, now, cfg) == FirstAlive(health, eps, 0, now, cfg)
      {
        if IsAlive(health, eps[i], now, cfg) {
          return Some(eps[i]);
        }
        i := i + 1;
      }
      r := None;
    }
  }

  /** The retry loop, one clock reading per attempt. */
  method EnsureAttached(group: EndpointGroup, eps: seq<string>, up: set<string>, clock: seq<int>)
    returns (ok: bool, chosen: string)
    requires group.Valid() && |clock| == Attempts(eps)
    modifies group
    ensures group.Valid()
    ensures ok == Attach(old(group.health), eps, up, clock, 0, group.cfg).0
    ensures group.health == Attach(old(group.health), eps, up, clock, 0, group.cfg).1
    ensures ok ==> chosen in eps && chosen in up
  {
    var k := 0;
    while k < |clock|
      invariant 0 <= k <= |clock| && group.Valid()
      invariant Attach(group.health, eps, up, clock, k, group.cfg) ==
                Attach(old(group.health), eps, up, clock, 0, group.cfg)
    {
      var pick := group.SelectFirstAlive(eps, clock[k]);
      chosen := if pick.Some? then pick.value else if eps == [] then "" else eps[0];
      if chosen !in eps {
        return false, chosen;
      }
      if chosen in up {
        group.ReportSuccess(chosen);
        return true, chosen;
      }
      group.ReportFailure(chosen, clock[k]);
      k := k + 1;
    }
    ok, chosen := false, "";
  }

  // ---------------------------------------------------------------- health as history

  datatype Report = Report(id: string, failed: bool, at: int)

  function Replayed(g: Group, reports: seq<Report>, cfg: Config): Group {
    if reports == [] then g
    else
      var before, r := Replayed(g, reports[..|reports| - 1], cfg), reports[|reports| - 1];
      if r.failed then AfterFailure(before, r.id, r.at, cfg) else AfterSuccess(before, r.id)
  }

  /** Failures of `id` since its last success. */
  function Streak(reports: seq<Report>, id: string): nat {
    if reports == [] then 0
    else
      var before, r := Streak(reports[..|reports| - 1], id), reports[|reports| - 1];
      if r.id != id then before else if r.failed then before + 1 else 0
  }

  function LastFailure(reports: seq<Report>, id: string): int {
    if reports == [] then 0
    else
      var r := reports[|reports| - 1];
      if r.id == id && r.failed then r.at else LastFailure(reports[..|reports| - 1], id)
  }

  lemma {:induction false} ReplayedState(ids: seq<string>, reports: seq<Report>, id: string, cfg: Config)
    requires cfg.threshold >= 1
    ensures var g := Replayed(map i | i in ids :: Alive(0), reports, cfg);
            && BelowThreshold(g, cfg)
            && Before(g, id) == (if Streak(reports, id) < cfg.threshold then Alive(Streak(reports, id))
                                 else Dead(LastFailure(reports, id)))
  {
    if reports != [] {
      ReplayedState(ids, reports[..|reports| - 1], id, cfg);
    }
  }

  /** Health is history: after any reports about any endpoints, an endpoint counts as alive exactly when
      it failed fewer than `threshold` times since its last success, or its last failure is at least
      `reviveAfter` ago. */
  lemma AliveExactly(ids: seq<string>, reports: seq<Report>, id: string, now: int, cfg: Config)
    requires cfg.threshold >= 1
    ensures IsAlive(Replayed(map i | i in ids :: Alive(0), reports, cfg), id, now, cfg) <==>
            Streak(reports, id) < cfg.threshold || now - LastFailure(reports, id) >= cfg.reviveAfter
  {
    ReplayedState(ids, reports, id, cfg);
  }

  // ---------------------------------------------------------------- the failover bound

  /** Failures until an alive endpoint is dead. */
  function Lives(g: Group, id: string, cfg: Config): int {
    if Before(g, id).Alive? then cfg.threshold - Before(g, id).failures else 1
  }

  /** Failed attempts before the loop reaches a working endpoint, from position `i` on. */
  function Cost(g: Group, eps: seq<string>, up: set<string>, i: nat, now: int, cfg: Config): int
    requires i <= |eps|
    decreases |eps| - i
  {
    if i == |eps| then 0
    else if !IsAlive(g, eps[i], now, cfg) then Cost(g, eps, up, i + 1, now, cfg)
    else if eps[i] in up then 0
    else Lives(g, eps[i], cfg) + Cost(g, eps, up, i + 1, now, cfg)
  }

  predicate Distinct(eps: seq<string>) {
    forall i, j :: 0 <= i < j < |eps| ==> eps[i] != eps[j]
  }

  /** The clock does not go back, and no dead endpoint revives while the loop runs. */
  predicate Steady(g: Group, clock: seq<int>, k: nat, cfg: Config) {
    && k < |clock|
    && (forall i, j :: k <= i < j < |clock| ==> clock[i] <= clock[j])
    && clock[|clock| - 1] - clock[k] < cfg.reviveAfter
    && (forall id <- g :: g[id].Dead? ==>
          clock[k] - g[id].since >= cfg.reviveAfter || clock[|clock| - 1] - g[id].since < cfg.reviveAfter)
  }

  /** Some endpoint the router can still choose works: an alive one, or the configured default. */
  predicate Servable(g: Group, eps: seq<string>, up: set<string>, now: int, cfg: Config) {
    || (eps != [] && eps[0] in up)
    || exists i :: 0 <= i < |eps| && eps[i] in up && IsAlive(g, eps[i], now, cfg)
  }

  lemma {:induction false} CostSame(g: Group, h: Group, eps: seq<string>, up: set<string>, i: nat, now: int,
                                    later: int, cfg: Config)
    requires i <= |eps|
    requires forall j :: i <= j < |eps| ==>
               Before(g, eps[j]) == Before(h, eps[j]) && IsAlive(g, eps[j], now, cfg) == IsAlive(h, eps[j], later, cfg)
    ensures Cost(g, eps, up, i, now, cfg) == Cost(h, eps, up, i, later, cfg)
    decreases |eps| - i
  {
    if i < |eps| {
      CostSame(g, h, eps, up, i + 1, now, later, cfg);
    }
  }

  lemma {:induction false} CostNonNegative(g: Group, eps: seq<string>, up: set<string>, i: nat, now: int, cfg: Config)
    requires i <= |eps| && BelowThreshold(g, cfg)
    ensures Cost(g, eps, up, i, now, cfg) >= 0
    decreases |eps| - i
  {
    if i < |eps| {
      CostNonNegative(g, eps, up, i + 1, now, cfg);
    }
  }

  /** Between two attempts nothing but the endpoint that failed changes its standing. */
  lemma StandingKept(g: Group, ep: string, id: string, clock: seq<int>, k: nat, cfg: Config)
    requires Steady(g, clock, k, cfg) && k + 1 < |clock| && id != ep
    ensures var h := AfterFailure(g, ep, clock[k], cfg);
            Before(h, id) == Before(g, id) && IsAlive(h, id, clock[k + 1], cfg) == IsAlive(g, id, clock[k], cfg)
  {
    assert clock[k] <= clock[k + 1] <= clock[|clock| - 1];
  }

  lemma SteadyKept(g: Group, ep: string, clock: seq<int>, k: nat, cfg: Config)
    requires Steady(g, clock, k, cfg) && k + 1 < |clock|
    ensures Steady(AfterFailure(g, ep, clock[k], cfg), clock, k + 1, cfg)
  {
    assert clock[k] <= clock[k + 1];
  }

  /** One failed attempt lowers the cost by exactly one. */
  lemma {:induction false} CostDrops(g: Group, eps: seq<string>, up: set<string>, i: nat, clock: seq<int>, k: nat,
                                     cfg: Config)
    requires BelowThreshold(g, cfg) && Distinct(eps) && Steady(g, clock, k, cfg) && k + 1 < |clock|
    requires i <= |eps|
    requires var s := FirstAlive(g, eps, i, clock[k], cfg); s < |eps| && eps[s] !in up
    ensures var s := FirstAlive(g, eps, i, clock[k], cfg);
            var h := AfterFailure(g, eps[s], clock[k], cfg);
            Cost(h, eps, up, i, clock[k + 1], cfg) == Cost(g, eps, up, i, clock[k], cfg) - 1
    decreases |eps| - i
  {
    var s := FirstAlive(g, eps, i, clock[k], cfg);
    var h := AfterFailure(g, eps[s], clock[k], cfg);
    if IsAlive(g, eps[i], clock[k], cfg) {
      forall j | i + 1 <= j < |eps|
        ensures Before(g, eps[j]) == Before(h, eps[j])
        ensures IsAlive(g, eps[j], clock[k], cfg) == IsAlive(h, eps[j], clock[k + 1], cfg)
      {
        StandingKept(g, eps[i], eps[j], clock, k, cfg);
      }
      CostSame(g, h, eps, up, i + 1, clock[k], clock[k + 1], cfg);
      assert clock[k] <= clock[k + 1] <= clock[|clock| - 1];
    } else {
      StandingKept(g, eps[s], eps[i], clock, k, cfg);
      CostDrops(g, eps, up, i + 1, clock, k, cfg);
    }
  }

  lemma ServableKept(g: Group, ep: string, eps: seq<string>, up: set<string>, clock: seq<int>, k: nat, cfg: Config)
    requires Steady(g, clock, k, cfg) && k + 1 < |clock| && ep !in up
    ensures Servable(AfterFailure(g, ep, clock[k], cfg), eps, up, clock[k + 1], cfg) ==
            Servable(g, eps, up, clock[k], cfg)
  {
    var h := AfterFailure(g, ep, clock[k], cfg);
    forall i | 0 <= i < |eps| && eps[i] in up
      ensures IsAlive(h, eps[i], clock[k + 1], cfg) == IsAlive(g, eps[i], clock[k], cfg)
    {
      StandingKept(g, ep, eps[i], clock, k, cfg);
    }
  }

  /** With no alive endpoint there is nothing to spend, and a failed default stays dead. */
  lemma {:induction false} NoneAlive(g: Group, eps: seq<string>, up: set<string>, i: nat, now: int, cfg: Config)
    requires i <= |eps|
    ensures FirstAlive(g, eps, i, now, cfg) == |eps| <==> forall j :: i <= j < |eps| ==> !IsAlive(g, eps[j], now, cfg)
    ensures FirstAlive(g, eps, i, now, cfg) == |eps| ==> Cost(g, eps, up, i, now, cfg) == 0
    decreases |eps| - i
  {
    if i < |eps| {
      NoneAlive(g, eps, up, i + 1, now, cfg);
    }
  }

  lemma DeadStayDead(g: Group, eps: seq<string>, up: set<string>, clock: seq<int>, k: nat, cfg: Config)
    requires Steady(g, clock, k, cfg) && k + 1 < |clock| && eps != []
    requires FirstAlive(g, eps, 0, clock[k], cfg) == |eps|
    ensures FirstAlive(AfterFailure(g, eps[0], clock[k], cfg), eps, 0, clock[k + 1], cfg) == |eps|
  {
    var h := AfterFailure(g, eps[0], clock[k], cfg);
    NoneAlive(g, eps, up, 0, clock[k], cfg);
    forall j | 0 <= j < |eps| ensures !IsAlive(h, eps[j], clock[k + 1], cfg) {
      if eps[j] != eps[0] {
        StandingKept(g, eps[0], eps[j], clock, k, cfg);
      } else {
        assert !IsAlive(g, eps[0], clock[k], cfg);
        assert clock[k] <= clock[k + 1] <= clock[|clock| - 1];
      }
    }
    NoneAlive(h, eps, up, 0, clock[k + 1], cfg);
  }

  /** The endpoint that is tried, when it works, costs nothing; when it does not, at least one attempt. */
  lemma {:induction false} CostAtFirst(g: Group, eps: seq<string>, up: set<string>, i: nat, now: int, cfg: Config)
    requires i <= |eps| && BelowThreshold(g, cfg)
    requires FirstAlive(g, eps, i, now, cfg) < |eps|
    ensures var s := FirstAlive(g, eps, i, now, cfg);
            IsAlive(g, eps[s], now, cfg) && (Cost(g, eps, up, i, now, cfg) == 0 <==> eps[s] in up)
    decreases |eps| - i
  {
    CostNonNegative(g, eps, up, i, now, cfg);
    if IsAlive(g, eps[i], now, cfg) {
      CostNonNegative(g, eps, up, i + 1, now, cfg);
    } else {
      CostAtFirst(g, eps, up, i + 1, now, cfg);
    }
  }

  /** Exactly when the attach loop succeeds: some endpoint it can still choose works, and the failures
      left to the alive endpoints in front of it are fewer than the attempts. */
  lemma {:induction false} AttachExactly(g: Group, eps: seq<string>, up: set<string>, clock: seq<int>, k: nat,
                                         cfg: Config)
    requires BelowThreshold(g, cfg) && Distinct(eps) && Steady(g, clock, k, cfg)
    ensures Attach(g, eps, up, clock, k, cfg).0 <==>
            Servable(g, eps, up, clock[k], cfg) && Cost(g, eps, up, 0, clock[k], cfg) < |clock| - k
    decreases |clock| - k
  {
    var s := FirstAlive(g, eps, 0, clock[k], cfg);
    var ep := Route(g, eps, clock[k], cfg);
    NoneAlive(g, eps, up, 0, clock[k], cfg);
    if s < |eps| {
      CostAtFirst(g, eps, up, 0, clock[k], cfg);
      CostNonNegative(g, eps, up, 0, clock[k], cfg);
    }
    if ep in eps && ep !in up && k + 1 < |clock| {
      var h := AfterFailure(g, ep, clock[k], cfg);
      SteadyKept(g, ep, clock, k, cfg);
      ServableKept(g, ep, eps, up, clock, k, cfg);
      AttachExactly(h, eps, up, clock, k + 1, cfg);
      if s < |eps| {
        CostDrops(g, eps, up, 0, clock, k, cfg);
      } else {
        DeadStayDead(g, eps, up, clock, k, cfg);
        NoneAlive(h, eps, up, 0, clock[k + 1], cfg);
      }
    }
  }

  lemma {:induction false} CostBound(g: Group, eps: seq<string>, up: set<string>, i: nat, j: nat, now: int, cfg: Config)
    requires BelowThreshold(g, cfg) && cfg.threshold <= 2 && i <= j < |eps|
    requires eps[j] in up && IsAlive(g, eps[j], now, cfg)
    ensures Cost(g, eps, up, i, now, cfg) <= 2 * (j - i)
    decreases j - i
  {
    if i < j {
      CostBound(g, eps, up, i + 1, j, now, cfg);
    }
  }

  /** With the default threshold of two, the loop always gets through to a working alive endpoint. */
  lemma DefaultThresholdSuffices(g: Group, eps: seq<string>, up: set<string>, clock: seq<int>, cfg: Config)
    requires BelowThreshold(g, cfg) && cfg.threshold <= 2 && Distinct(eps)
    requires |clock| == Attempts(eps) && Steady(g, clock, 0, cfg)
    requires exists i :: 0 <= i < |eps| && eps[i] in up && IsAlive(g, eps[i], clock[0], cfg)
    ensures Attach(g, eps, up, clock, 0, cfg).0
  {
    var j :| 0 <= j < |eps| && eps[j] in up && IsAlive(g, eps[j], clock[0], cfg);
    CostBound(g, eps, up, 0, j, clock[0], cfg);
    AttachExactly(g, eps, up, clock, 0, cfg);
  }

  /** With a threshold of three it need not: two endpoints that are down use up all six attempts while the
      third works. */
  lemma ThreeFailuresExhaustTheLoop()
    ensures exists g: Group, eps: seq<string>, up: set<string>, clock: seq<int>, cfg: Config ::
              && BelowThreshold(g, cfg) && Distinct(eps) && |clock| == Attempts(eps) && Steady(g, clock, 0, cfg)
              && eps == ["a", "b", "c"] && up == {"c"} && IsAlive(g, "c", clock[0], cfg)
              && !Attach(g, eps, up, clock, 0, cfg).0
  {
    var g: Group := map[];
    var eps, up, clock, cfg := ["a", "b", "c"], {"c"}, [0, 0, 0, 0, 0, 0], Config(3, 30);
    assert "a"[0] == 'a' && "b"[0] == 'b' && "c"[0] == 'c';
    assert Cost(g, eps, up, 2, 0, cfg) == 0;
    assert Cost(g, eps, up, 1, 0, cfg) == 3;
    assert Cost(g, eps, up, 0, 0, cfg) == 6;
    AttachExactly(g, eps, up, clock, 0, cfg);
  }
}

/**
 The pump as the source writes it: mutable locals, one arm of the select loop per event, and the loop
 itself. The locals carry, as a ghost, the trace of what client and servers saw; each arm keeps the
 session's invariant, and the loop gives back only connections that are fit for the pool.
 */
module PumpLoop {
  import opened Protocol
  import opened Connection
  import opened Session
  import opened Phases
  import opened Leases
  import opened Clients
  import opened Limits

  /** One event of the select loop. A reading arm with nothing to read, and a lost connection that is not
      there, are events that do not happen. */
  datatype Input =
    | Message(m: Frontend, o: Outcome, hook: Hook, supply: Option<Conn>, fault: bool)
    | Response
    | Loss
    | CancelAsked(o: Outcome)
    | ShutdownAsked

  predicate Happens(p: Pump, i: Input) {
    match i
    case Response => p.lease.Some? && p.lease.value.unread != []
    case Loss => p.lease.Some?
    case _ => true
  }

  /** The session after an event; None when the event ends it. */
  function Advance(x: Client, i: Input): Option<Client> {
    if !Happens(x.pump, i) then Some(x)
    else
      match i
      case Message(m, o, hook, supply, fault) =>
        if OnFrontend(x.pump, m, o, hook, supply, fault).ended then None
        else Some(OnMessage(x, m, o, hook, supply, fault))
      case Response => if OnBackend(x.pump).ended then None else Some(OnResponse(x))
      case Loss => Some(OnLoss(x))
      case CancelAsked(o) => Some(OnCancel(x, o))
      case ShutdownAsked =>
        if OnShutdown(x.pump).ended then None else Some(x.(pump := OnShutdown(x.pump).pump))
  }

  /** The client waits for its answers, the pool hands out clean connections, and a scatter leg on the session's
      connection changes nothing that the dirty flag does not tell of. */
  ghost predicate Fair(x: Client, i: Input, defaults: map<string, string>) {
    i.Message? ==>
      && MaySend(x.seen.phase, i.m) && PlanTold(x.pump, Consider(x.pump, i.m, i.hook))
      && (i.supply.Some? ==> ParkedClean(i.supply.value, defaults))
  }

  /** Refusals and losses meet the client where they can be answered. */
  predicate Answerable(x: Client, i: Input) {
    match i
    case Message(m, o, hook, supply, fault) => Orderly(x.pump, x.seen.phase, m, o, hook, supply, fault)
    case Loss => x.pump.lease.Some? ==> LossInStep(x.seen.phase, x.pump, x.pump.hygiene.awaiting)
    case _ => true
  }

  ghost predicate AllFair(x: Client, inputs: seq<Input>, defaults: map<string, string>)
    decreases |inputs|
  {
    inputs != [] ==>
      && Fair(x, inputs[0], defaults)
      && (Advance(x, inputs[0]).Some? ==> AllFair(Advance(x, inputs[0]).value, inputs[1..], defaults))
  }

  predicate AllAnswerable(x: Client, inputs: seq<Input>)
    decreases |inputs|
  {
    inputs != [] ==>
      && Answerable(x, inputs[0])
      && (Advance(x, inputs[0]).Some? ==> AllAnswerable(Advance(x, inputs[0]).value, inputs[1..]))
  }

  /** The connection an event gives back to the pool. */
  function GivenBack(x: Client, i: Input): seq<(Conn, bool)> {
    if i.Response? && Happens(x.pump, i) && OnBackend(x.pump).released.Some?
    then [OnBackend(x.pump).released.value] else []
  }

  /** A run of the loop: the session at its end, if it has not ended, and what it gave back. */
  function Served(x: Client, inputs: seq<Input>): (Option<Client>, seq<(Conn, bool)>)
    decreases |inputs|
  {
    if inputs == [] then (Some(x), [])
    else if Advance(x, inputs[0]).None? then (None, GivenBack(x, inputs[0]))
    else
      var (y, back) := Served(Advance(x, inputs[0]).value, inputs[1..]);
      (y, GivenBack(x, inputs[0]) + back)
  }

  /** The lease, if any, is what `checkin` can clean: `SanitizeExact` applies with room to spare. */
  ghost predicate Returnable(p: Pump, defaults: map<string, string>) {
    && LeaseInv(p, defaults)
    && (p.lease.Some? ==> OnlyPipelined(p.lease.value) && Owed(p.lease.value) <= Allowed(p.hygiene))
  }

  /** A connection given back by a detach: idle between two cycles, and clean unless marked dirty. */
  ghost predicate Detachable(c: Conn, dirty: bool, defaults: map<string, string>) {
    && AtBoundary(c) && c.server.tx.Idle? && CacheTrue(c) && c.server.defaults == defaults
    && (!dirty ==> c.server.stmts == map[] && AtBaseline(c.cache, defaults))
  }

  class Locals {
    var lease: Option<Conn>
    var dirty: bool
    var registry: map<string, Statement>
    var overrides: map<string, string>
    const startup: map<string, string>
    var swallow: bool
    var hygiene: Hygiene
    var draining: bool
    var status: TxStatus
    var fedSinceReady: nat
    var extended: bool
    /** Messages sent to the client by the current arm. */
    var told: seq<Backend>
    ghost var seen: Trace
    ghost const defaults: map<string, string>

    ghost function View(): Pump
      reads this
    {
      Pump(lease, dirty, registry, overrides, startup, swallow, hygiene, draining, status, fedSinceReady, extended)
    }

    ghost function Self(): Client
      reads this
    {
      Client(View(), seen)
    }

    /** What holds of every session whose client waits for its answers. */
    ghost predicate Safe()
      reads this
    {
      SafeClient(Self(), defaults)
    }

    /** What holds as long as every refusal and loss could be answered. */
    ghost predicate Valid()
      reads this
    {
      ClientInv(Self(), defaults)
    }

    constructor (startup: map<string, string>, ghost defaults: map<string, string>)
      ensures Valid() && Safe() && Self() == Opened(startup, defaults) && this.defaults == defaults
    {
      this.startup := startup;
      this.defaults := defaults;
      lease, dirty, registry, overrides := None, false, map[], map[];
      swallow, hygiene, draining := false, Hygiene(false, NoCopy), false;
      status, fedSinceReady, extended, told := Idle, 0, false, [];
      seen := Opened(startup, defaults).seen;
      new;
      OpenedInv(startup, defaults);
    }

    method Tell(m: Backend)
      modifies this`told
      ensures told == old(told) + [m]
    {
      told := told + [m];
    }

    method TellReady(s: TxStatus)
      modifies this`told
      ensures told == old(told) + [ReadyForQuery(s)]
    {
      Tell(ReadyForQuery(s));
    }

    /** The phases before any upstream is involved; `pass` is the message still to be forwarded. */
    method ConsiderMessage(m: Frontend, hook: Hook) returns (pass: Option<Frontend>, ended: bool)
      requires told == []
      modifies this`told, this`swallow, this`status, this`registry, this`extended, this`lease
      ensures match Consider(old(View()), m, hook)
              case Quit(q) => ended && pass.None? && told == [] && View() == q
              case Answer(q, answer) => !ended && pass.None? && told == answer && View() == q
              case Pass(q, m') => !ended && pass == Some(m') && told == [] && View() == q
              case Scattered(q, answer, _) => !ended && pass.None? && told == answer && View() == q
    {
      pass, ended := None, false;
      if swallow {
        if m.Sync? {
          swallow := false;
          TellReady(if lease.Some? then lease.value.status else Idle);
        }
        return;
      }
      if lease.None? && m.Sync? {
        TellReady(status);
        return;
      }
      if lease.None? && m.Flush? {
        return;
      }
      if lease.None? && m.Close? {
        registry := registry - {m.name};
        Tell(CloseComplete);
        return;
      }
      if m.Query? || m.Parse? {
        extended := m.Parse?;
        pass, ended := AskHook(m, hook);
      } else {
        pass := Some(m);
      }
    }

    method AskHook(m: Frontend, hook: Hook) returns (pass: Option<Frontend>, ended: bool)
      requires told == [] && (m.Query? || m.Parse?)
      modifies this`told, this`swallow, this`status, this`lease
      ensures match Hooked(old(View()), m, hook)
              case Quit(q) => ended && pass.None? && told == [] && View() == q
              case Answer(q, answer) => !ended && pass.None? && told == answer && View() == q
              case Pass(q, m') => !ended && pass == Some(m') && told == [] && View() == q
              case Scattered(q, answer, _) => !ended && pass.None? && told == answer && View() == q
    {
      pass, ended := None, false;
      var leaseStatus := if lease.Some? then lease.value.status else Idle;
      match hook {
        case Forward(rewritten) =>
          pass := CheckRegistry(Rewrite(m, rewritten));
        case Deny(code) =>
          Tell(ErrorResponse(code));
          if m.Query? {
            TellReady(leaseStatus);
          } else {
            swallow := true;
          }
        case Reply(messages) =>
          told := messages;
          TellReady(leaseStatus);
          swallow := m.Parse?;
        case Scatter(merged, own) =>
          RunScatter(m.Query? && status.Idle?, merged, own);
        case HangUp =>
          ended := true;
      }
    }

    /** Scatter, with a leg on the session's own connection if it has one, or refuse to. */
    method RunScatter(allowed: bool, merged: Option<seq<Backend>>, own: Option<LegRun>)
      requires told == [] && (allowed ==> status.Idle?)
      modifies this`told, this`status, this`lease
      ensures status.Idle?
      ensures lease ==
              if allowed && own.Some? && old(lease).Some? then LegRan(old(lease).value, own.value) else old(lease)
      ensures told ==
              if allowed && merged.Some? && !(own.Some? && old(lease).Some? && lease.None?)
              then merged.value + [ReadyForQuery(Idle)]
              else [ErrorResponse(NotSupported), ReadyForQuery(Idle)]
    {
      var broken := false;
      if allowed && own.Some? && lease.Some? {
        lease := LegRan(lease.value, own.value);
        broken := lease.None?;
      }
      if allowed && merged.Some? && !broken {
        told := merged.value;
        TellReady(status);
      } else {
        Tell(ErrorResponse(NotSupported));
        TellReady(Idle);
        status := Idle;
      }
    }

    method CheckRegistry(m: Frontend) returns (pass: Option<Frontend>)
      requires told == []
      modifies this`told, this`swallow
      ensures match Checked(old(View()), m)
              case Quit(_) => false
              case Answer(q, answer) => pass.None? && told == answer && View() == q
              case Pass(q, m') => pass == Some(m') && told == [] && View() == q
              case Scattered(_, _, _) => false
    {
      pass := None;
      if NamedParse(m) && m.name in registry {
        if registry[m.name].sql == m.stmt.sql {
          Tell(ParseComplete);
        } else {
          Tell(ErrorResponse(DuplicateStatement));
          swallow := true;
        }
      } else {
        pass := Some(m);
      }
    }

    /** Destroy the lease; answer the interrupted cycle when there is one to answer. */
    method LoseUpstream(report: bool)
      requires told == []
      modifies this`lease, this`told, this`swallow, this`status, this`hygiene, this`fedSinceReady
      ensures View() == Lose(old(View()), report).pump && told == Lose(old(View()), report).told
    {
      lease := None;
      if report {
        Tell(ErrorResponse(ConnectionFailure));
        if extended {
          swallow := true;
        } else {
          TellReady(Idle);
          status := Idle;
        }
      }
      hygiene := hygiene.(awaiting := false);
      fedSinceReady := 0;
    }

    method Attach(c: Conn)
      requires lease.None?
      modifies this`lease, this`dirty
      ensures View() == Attached(old(View()), c)
    {
      ghost var p := View();
      var synced := c.cache + Differing(c.cache, Named(startup));
      var sets := Differing(synced, overrides);
      if sets != map[] {
        dirty := true;
      }
      if registry != map[] {
        dirty := true;
      }
      lease := Some(Conn(c.id, c.server.(params := synced + sets, stmts := registry), c.fed, c.unread, c.status,
                         synced + sets, c.wire + [Entry.Replay(Differing(c.cache, Named(startup)) + sets, registry)]));
    }

    method RecordMessage(m: Frontend)
      modifies this`registry, this`dirty, this`hygiene
      ensures View() == Recorded(old(View()), m)
    {
      if NamedParse(m) {
        registry, dirty := registry[m.name := m.stmt], true;
      }
      if StartsCycle(m) {
        hygiene := hygiene.(awaiting := true);
      }
    }

    /** Attach unless there is a lease; without a connection to attach, the session is over. */
    method EnsureLease(supply: Option<Conn>) returns (ok: bool)
      modifies this`lease, this`dirty, this`told
      ensures ok == (old(lease).Some? || supply.Some?)
      ensures ok ==> View() == Leased(old(View()), supply) && told == old(told)
      ensures !ok ==> View() == old(View()) && told == old(told) + [ErrorResponse(ConnectionFailure)]
    {
      ok := true;
      if lease.None? {
        if supply.None? {
          Tell(ErrorResponse(ConnectionFailure));
          return false;
        }
        Attach(supply.value);
      }
    }

    /** Attach, record and write. */
    method ForwardMessage(m: Frontend, o: Outcome, supply: Option<Conn>, fault: bool) returns (ended: bool)
      requires told == []
      modifies this
      ensures seen == old(seen)
      ensures var turn := Forwarded(old(View()), m, o, supply, fault);
              View() == turn.pump && ended == turn.ended && told == turn.told
    {
      ForwardSplits(View(), m, o, supply, fault);
      var ok := EnsureLease(supply);
      ended := !ok;
      if !ok {
        return;
      }
      RecordMessage(m);
      if fault {
        LoseUpstream(hygiene.awaiting || fedSinceReady > 0);
        return;
      }
      WriteMessage(m, o);
    }

    method WriteMessage(m: Frontend, o: Outcome)
      requires lease.Some?
      modifies this`lease, this`fedSinceReady
      ensures View() ==
              old(View()).(lease := Some(Written(old(lease).value, m, o)), fedSinceReady := old(fedSinceReady) + 1)
    {
      var c := lease.value;
      var d := if TriggersResponse(m) then Send(c, m, o) else Feed(c, m, o);
      lease := Some(d.(wire := c.wire + [FromClient(o.serial, m)]));
      fedSinceReady := fedSinceReady + 1;
    }

    method RunFrontend(m: Frontend, o: Outcome, hook: Hook, supply: Option<Conn>, fault: bool)
      returns (ended: bool)
      modifies this
      ensures seen == old(seen)
      ensures var turn := OnFrontend(old(View()), m, o, hook, supply, fault);
              View() == turn.pump && ended == turn.ended && told == turn.told
    {
      ghost var p := View();
      told := [];
      var pass;
      pass, ended := ConsiderMessage(m, hook);
      ArmSplits(p, m, o, hook, supply, fault);
      if pass.Some? {
        assert View() == Consider(p, m, hook).pump;
        ended := ForwardMessage(pass.value, o, supply, fault);
      }
    }

    /** The frontend arm. A session goes on sound, and in step with its client if the message can be
        answered in step; a session that ends leaves a lease that can be cleaned. */
    method HandleFrontend(m: Frontend, o: Outcome, hook: Hook, supply: Option<Conn>, fault: bool)
      returns (ended: bool)
      requires Safe() && Fair(Self(), Message(m, o, hook, supply, fault), defaults)
      modifies this
      ensures Returnable(View(), defaults)
      ensures !ended ==> Safe()
      ensures !ended && old(Valid() && Orderly(View(), seen.phase, m, o, hook, supply, fault)) ==> Valid()
      ensures ended <==> Advance(old(Self()), Message(m, o, hook, supply, fault)).None?
      ensures !ended ==> Advance(old(Self()), Message(m, o, hook, supply, fault)) == Some(Self())
    {
      ghost var x := Self();
      ended := RunFrontend(m, o, hook, supply, fault);
      seen := SeenMessage(x, m, o, hook, supply, fault);
      AfterMessage(x, m, o, hook, supply, fault, defaults);
    }

    /** Track session state for pool hygiene. */
    method Track(m: Backend, c: Conn)
      modifies this`lease, this`status, this`hygiene, this`fedSinceReady, this`overrides, this`dirty
      ensures m.ReadyForQuery? ==>
                View() == old(View()).(lease := Some(c), status := m.status,
                                       hygiene := Hygiene(false, NoCopy), fedSinceReady := 0)
      ensures !m.ReadyForQuery? ==>
                View() == old(View()).(lease := Some(c),
                                       overrides := Learned(old(overrides), m),
                                       dirty := old(dirty) || m.ParameterStatus? || m.ParameterReset?,
                                       hygiene := Hygiene(old(hygiene).awaiting, CopyAfter(old(hygiene).copy, m)))
    {
      lease := Some(c);
      match m {
        case ReadyForQuery(s) =>
          status := s;
          hygiene := Hygiene(false, NoCopy);
          fedSinceReady := 0;
        case ParameterStatus(n, v) =>
          overrides, dirty := overrides[n := v], true;
        case ParameterReset(values) =>
          overrides, dirty := overrides + values, true;
        case CopyInResponse =>
          hygiene := hygiene.(copy := ClientOwesCopy);
        case CopyOutResponse =>
          hygiene := hygiene.(copy := ServerStreamsCopy);
        case _ =>
      }
    }

    method RunBackend() returns (ended: bool, released: Option<(Conn, bool)>)
      requires lease.Some? && lease.value.unread != []
      modifies this
      ensures seen == old(seen)
      ensures var turn := OnBackend(old(View()));
              View() == turn.pump && told == turn.told && ended == turn.ended && released == turn.released
    {
      told := [];
      ended, released := false, None;
      var m := lease.value.unread[0];
      Track(m, Next(lease.value));
      Tell(m);
      if m.ReadyForQuery? {
        if draining {
          ended := true;
        } else if m.status.Idle? {
          released := Some((lease.value, dirty));
          lease, dirty := None, false;
        }
      }
    }

    /** The backend arm: track state for pool hygiene, relay, then end or detach. A connection is given
        back only idle, between two cycles, and undirtied only if it is clean. */
    method HandleBackend() returns (ended: bool, released: Option<(Conn, bool)>)
      requires Safe() && lease.Some? && lease.value.unread != []
      modifies this
      ensures Returnable(View(), defaults)
      ensures released.Some? ==> Detachable(released.value.0, released.value.1, defaults) && lease.None? && !ended
      ensures released == OnBackend(old(View())).released
      ensures !ended ==> Safe() && (old(Valid()) ==> Valid())
      ensures ended <==> Advance(old(Self()), Response).None?
      ensures !ended ==> Advance(old(Self()), Response) == Some(Self())
    {
      ghost var x := Self();
      ended, released := RunBackend();
      seen := OnResponse(x).seen;
      AfterResponse(x, defaults);
    }

    /** The upstream-lost arm. The session stays in step with its client exactly when the loss could be
        answered in step. */
    method HandleUpstreamLost()
      requires Safe() && lease.Some?
      modifies this
      ensures Safe() && lease.None?
      ensures old(Valid()) ==> (Valid() <==> old(LossInStep(seen.phase, View(), hygiene.awaiting)))
      ensures Advance(old(Self()), Loss) == Some(Self())
    {
      ghost var x := Self();
      told := [];
      LoseUpstream(hygiene.awaiting);
      seen := OnLoss(x).seen;
      AfterLoss(x, defaults);
    }

    /** The cancel arm: the request goes to the server of the lease, and nothing of the pump changes. */
    method HandleCancel(o: Outcome)
      requires Safe()
      modifies this
      ensures Safe() && (old(Valid()) ==> Valid())
      ensures View() == old(View()).(lease := lease)
      ensures Advance(old(Self()), CancelAsked(o)) == Some(Self())
    {
      ghost var x := Self();
      if lease.Some? {
        lease := Some(Cancel(lease.value, o));
      }
      seen := OnCancel(x, o).seen;
      AfterCancel(x, o, defaults);
    }

    /** The shutdown arm: a session that ends at once owes its client no ReadyForQuery, one that drains
        stays as sound as it was. */
    method HandleShutdown() returns (ended: bool)
      requires Safe()
      modifies this
      ensures Returnable(View(), defaults)
      ensures ended ==> (lease.Some? ==> Owed(lease.value) == 0)
      ensures !ended ==> Safe() && draining && (old(Valid()) ==> Valid())
      ensures ended <==> Advance(old(Self()), ShutdownAsked).None?
      ensures !ended ==> Advance(old(Self()), ShutdownAsked) == Some(Self())
    {
      ghost var x := Self();
      AtShutdown(x, defaults);
      ended := false;
      if hygiene.awaiting || hygiene.copy != NoCopy {
        draining := true;
      } else {
        ended := true;
      }
    }

    /** One turn of the select loop. */
    method Turn(i: Input) returns (ended: bool, released: seq<(Conn, bool)>)
      requires Safe() && Fair(Self(), i, defaults)
      modifies this
      ensures Returnable(View(), defaults) && AllDetachable(released, defaults)
      ensures !ended ==> Safe()
      ensures !ended && old(Valid()) && Answerable(old(Self()), i) ==> Valid()
      ensures Advance(old(Self()), i) == if ended then None else Some(Self())
      ensures released == GivenBack(old(Self()), i)
    {
      ended, released := false, [];
      SafeReturnable(Self(), defaults);
      match i {
        case Message(m, o, hook, supply, fault) => ended := HandleFrontend(m, o, hook, supply, fault);
        case Response =>
          if lease.Some? && lease.value.unread != [] {
            var back;
            ended, back := HandleBackend();
            released := if back.Some? then [back.value] else [];
          }
        case Loss =>
          if lease.Some? {
            HandleUpstreamLost();
            SafeReturnable(Self(), defaults);
          }
        case CancelAsked(o) =>
          HandleCancel(o);
          SafeReturnable(Self(), defaults);
        case ShutdownAsked => ended := HandleShutdown();
      }
    }

    /** The select loop over any events of a client that waits for its answers. Every connection it gives
        back is fit to be parked; however it ends, the lease it is left with can be cleaned; and if every
        refusal and loss on the way could be answered, client and pump are in step throughout. */
    method Serve(inputs: seq<Input>) returns (ended: bool, released: seq<(Conn, bool)>)
      requires Safe() && AllFair(Self(), inputs, defaults)
      modifies this
      ensures Returnable(View(), defaults) && AllDetachable(released, defaults)
      ensures !ended ==> Safe()
      ensures !ended && old(Valid()) && AllAnswerable(old(Self()), inputs) ==> Valid()
      ensures Served(old(Self()), inputs) == (if ended then None else Some(Self()), released)
    {
      ended, released := false, [];
      SafeReturnable(Self(), defaults);
      ghost var x, orderly := Self(), Valid() && AllAnswerable(Self(), inputs);
      Begins(x, inputs);
      var i := 0;
      while i < |inputs| && !ended
        invariant 0 <= i <= |inputs|
        invariant Returnable(View(), defaults) && AllDetachable(released, defaults)
        invariant !ended ==> Safe() && (orderly ==> Valid()) && Ahead(Self(), inputs[i..], defaults, orderly)
        invariant SoFar(x, inputs, i, if ended then None else Some(Self()), released)
      {
        Unfold(x, inputs, i, Self(), released, defaults, orderly);
        var back;
        ended, back := Turn(inputs[i]);
        released := released + back;
        i := i + 1;
      }
      Ends(x, inputs, i, if ended then None else Some(Self()), released);
    }
  }

  // ---------------------------------------------------------------- what the arms keep

  ghost predicate AllDetachable(released: seq<(Conn, bool)>, defaults: map<string, string>) {
    forall k :: 0 <= k < |released| ==> Detachable(released[k].0, released[k].1, defaults)
  }

  /** After `i` inputs the session is `y`, and `given` has been given back. */
  predicate SoFar(x: Client, inputs: seq<Input>, i: nat, y: Option<Client>, given: seq<(Conn, bool)>)
    requires i <= |inputs|
  {
    Served(x, inputs) ==
    if y.None? then (None, given)
    else (Served(y.value, inputs[i..]).0, given + Served(y.value, inputs[i..]).1)
  }

  lemma Begins(x: Client, inputs: seq<Input>)
    ensures inputs[0..] == inputs && SoFar(x, inputs, 0, Some(x), [])
  {
    assert [] + Served(x, inputs).1 == Served(x, inputs).1;
  }

  lemma Ends(x: Client, inputs: seq<Input>, i: nat, y: Option<Client>, given: seq<(Conn, bool)>)
    requires i <= |inputs| && SoFar(x, inputs, i, y, given) && (y.Some? ==> i == |inputs|)
    ensures Served(x, inputs) == (y, given)
  {
    if y.Some? {
      assert inputs[i..] == [] && given + [] == given;
    }
  }

  /** What is asked of the inputs to come. */
  ghost predicate Ahead(x: Client, rest: seq<Input>, defaults: map<string, string>, orderly: bool) {
    AllFair(x, rest, defaults) && (orderly ==> AllAnswerable(x, rest))
  }

  lemma Unfold(x: Client, inputs: seq<Input>, i: nat, now: Client, given: seq<(Conn, bool)>,
               defaults: map<string, string>, orderly: bool)
    requires i < |inputs| && SoFar(x, inputs, i, Some(now), given) && Ahead(now, inputs[i..], defaults, orderly)
    ensures var y := Advance(now, inputs[i]);
            && Fair(now, inputs[i], defaults) && (orderly ==> Answerable(now, inputs[i]))
            && (y.Some? ==> Ahead(y.value, inputs[i + 1..], defaults, orderly))
            && SoFar(x, inputs, i + 1, y, given + GivenBack(now, inputs[i]))
  {
    var rest := inputs[i..];
    assert rest[0] == inputs[i] && rest[1..] == inputs[i + 1..];
    var y := Advance(now, inputs[i]);
    if y.Some? {
      Regroup(given, GivenBack(now, inputs[i]), Served(y.value, inputs[i + 1..]).1);
    }
  }

  lemma SafeReturnable(x: Client, defaults: map<string, string>)
    requires SafeClient(x, defaults)
    ensures Returnable(x.pump, defaults)
  {
    if x.pump.lease.Some? {
      SafeToCheckIn(x, defaults);
    }
  }

  lemma EndedByMessage(p: Pump, m: Frontend, o: Outcome, hook: Hook, supply: Option<Conn>, fault: bool)
    requires OnFrontend(p, m, o, hook, supply, fault).ended
    ensures var q := OnFrontend(p, m, o, hook, supply, fault).pump; q == p.(extended := q.extended)
  {
    PlanKeeps(p, m, hook);
  }

  lemma AfterMessage(x: Client, m: Frontend, o: Outcome, hook: Hook, supply: Option<Conn>, fault: bool,
                     defaults: map<string, string>)
    requires SafeClient(x, defaults) && Fair(x, Message(m, o, hook, supply, fault), defaults)
    ensures var y := OnMessage(x, m, o, hook, supply, fault);
            var ended := OnFrontend(x.pump, m, o, hook, supply, fault).ended;
            && Returnable(y.pump, defaults)
            && (!ended ==> SafeClient(y, defaults))
            && (!ended && ClientInv(x, defaults) && Orderly(x.pump, x.seen.phase, m, o, hook, supply, fault) ==>
                  ClientInv(y, defaults))
  {
    if OnFrontend(x.pump, m, o, hook, supply, fault).ended {
      EndedByMessage(x.pump, m, o, hook, supply, fault);
      SafeReturnable(x, defaults);
    } else {
      MessageSafe(x, m, o, hook, supply, fault, defaults);
      SafeReturnable(OnMessage(x, m, o, hook, supply, fault), defaults);
      if ClientInv(x, defaults) && Orderly(x.pump, x.seen.phase, m, o, hook, supply, fault) {
        MessageInv(x, m, o, hook, supply, fault, defaults);
      }
    }
  }

  lemma AfterResponse(x: Client, defaults: map<string, string>)
    requires SafeClient(x, defaults) && x.pump.lease.Some? && x.pump.lease.value.unread != []
    ensures var y, turn := OnResponse(x), OnBackend(x.pump);
            && Returnable(y.pump, defaults)
            && (!turn.ended ==> SafeClient(y, defaults))
            && (!turn.ended && ClientInv(x, defaults) ==> ClientInv(y, defaults))
            && (turn.released.Some? ==>
                  && Detachable(turn.released.value.0, turn.released.value.1, defaults)
                  && turn.pump.lease.None? && !turn.ended)
  {
    var turn := OnBackend(x.pump);
    ResponseSafe(x, defaults);
    BackendLease(x.pump, defaults);
    if turn.released.Some? {
      FlushedNothing(turn.released.value.0);
    }
    if turn.ended {
      assert Owed(turn.pump.lease.value) == 0;
    } else {
      SafeReturnable(OnResponse(x), defaults);
      if ClientInv(x, defaults) {
        ResponseInv(x, defaults);
      }
    }
  }

  lemma AfterLoss(x: Client, defaults: map<string, string>)
    requires SafeClient(x, defaults) && x.pump.lease.Some?
    ensures SafeClient(OnLoss(x), defaults)
    ensures ClientInv(x, defaults) ==>
              (ClientInv(OnLoss(x), defaults) <==> LossInStep(x.seen.phase, x.pump, x.pump.hygiene.awaiting))
  {
    LossSafe(x, defaults);
    if ClientInv(x, defaults) {
      LossInStepExactly(x);
    }
  }

  lemma AfterCancel(x: Client, o: Outcome, defaults: map<string, string>)
    requires SafeClient(x, defaults)
    ensures SafeClient(OnCancel(x, o), defaults)
    ensures ClientInv(x, defaults) ==> ClientInv(OnCancel(x, o), defaults)
  {
    CancelSafe(x, o, defaults);
    if ClientInv(x, defaults) {
      CancelInv(x, o, defaults);
    }
  }

  lemma AtShutdown(x: Client, defaults: map<string, string>)
    requires SafeClient(x, defaults)
    ensures var p := x.pump.(draining := true);
            && Returnable(x.pump, defaults) && Returnable(p, defaults)
            && SafeClient(x.(pump := p), defaults)
            && (ClientInv(x, defaults) ==> ClientInv(x.(pump := p), defaults))
            && (OnShutdown(x.pump).ended && x.pump.lease.Some? ==> Owed(x.pump.lease.value) == 0)
  {
    SafeReturnable(x, defaults);
    DrainInv(x, x.pump.(draining := true), defaults);
  }

  lemma ForwardSplits(p: Pump, m: Frontend, o: Outcome, supply: Option<Conn>, fault: bool)
    ensures var turn := Forwarded(p, m, o, supply, fault);
            if p.lease.None? && supply.None? then turn == Carry(p, [ErrorResponse(ConnectionFailure)]).(ended := true)
            else
              var q := Recorded(Leased(p, supply), m);
              if fault then turn == Lose(q, q.hygiene.awaiting || q.fedSinceReady > 0)
              else
                && turn.pump == q.(lease := Some(Written(q.lease.value, m, o)), fedSinceReady := q.fedSinceReady + 1)
                && turn.told == [] && !turn.ended
  {
  }

  lemma ArmSplits(p: Pump, m: Frontend, o: Outcome, hook: Hook, supply: Option<Conn>, fault: bool)
    ensures var turn := OnFrontend(p, m, o, hook, supply, fault);
            match Consider(p, m, hook)
            case Quit(q) => turn == Carry(q, []).(ended := true)
            case Answer(q, told) => turn == Carry(q, told)
            case Pass(q, m') => turn == Forwarded(q, m', o, supply, fault)
            case Scattered(q, told, _) => turn == Carry(q, told).(lost := q.lease.None?)
  {
  }
}

/** What the proxy writes to a connection on its way back to the pool, whether or not the clean-up succeeds. */
module Cleanups {
  import opened Protocol
  import opened Connection
  import opened Leases

  /** The messages of a clean-up or a probe. */
  predicate ByProxy(e: Entry) {
    e.Own? && (e.m.Run? || e.m.Sync? || e.m.CopyFail?)
  }

  predicate AllByProxy(entries: seq<Entry>) {
    forall i :: 0 <= i < |entries| ==> ByProxy(entries[i])
  }

  /** `d` is `c` after these messages. */
  predicate Wrote(c: Conn, d: Conn, entries: seq<Entry>) {
    d.id == c.id && d.wire == c.wire + entries
  }

  lemma CommandWrites(c: Conn, command: Command, o: Outcome)
    requires SimpleQuery(c, command, o).Some?
    ensures Wrote(c, SimpleQuery(c, command, o).value, [Own(Run(command))])
  {
    DrainLaw(Send(c, Run(command), o));
  }

  lemma SyncWrites(c: Conn, o: Outcome)
    requires CloseCycle(c, o).Some?
    ensures Wrote(c, CloseCycle(c, o).value, [Own(Sync)])
  {
    DrainLaw(Send(c, Sync, o));
  }

  lemma StoppedWrites(c: Conn, copyFail: bool, awaiting: bool, a: Answers)
    ensures Wrote(c, Stopped(c, copyFail, awaiting, a), if copyFail then [Own(CopyFail)] else [])
  {
  }

  lemma SettleByProxy(c: Conn, copyFail: bool, awaiting: bool, a: Answers)
    ensures AllByProxy(SettleEntries(c, copyFail, awaiting, a))
  {
  }

  lemma SettleWrites(c: Conn, copyFail: bool, awaiting: bool, a: Answers)
    requires Settle(c, copyFail, awaiting, a).Some?
    ensures Wrote(c, Settle(c, copyFail, awaiting, a).value, SettleEntries(c, copyFail, awaiting, a))
  {
    var d, stop := Stopped(c, copyFail, awaiting, a), if copyFail then [Own(CopyFail)] else [];
    StoppedWrites(c, copyFail, awaiting, a);
    if Drain(d).Some? {
      DrainLaw(d);
      assert Drain(d).value.wire == d.wire + [];
      WroteOn(c, d, Drain(d).value, stop, []);
    } else {
      ReadAllLaw(d);
      SyncWrites(ReadAll(d), a.sync);
      WroteOn(c, d, Settle(c, copyFail, awaiting, a).value, stop, [Own(Sync)]);
    }
  }

  lemma QuiesceWrites(c: Conn, h: Hygiene, a: Answers)
    ensures AllByProxy(QuiesceEntries(c, h, a))
    ensures Quiesce(c, h, a).Some? ==> Wrote(c, Quiesce(c, h, a).value, QuiesceEntries(c, h, a))
  {
    var owes := h.copy.ClientOwesCopy?;
    SettleByProxy(c, owes, h.awaiting, a);
    if Quiesce(c, h, a).Some? {
      if owes || h.awaiting {
        SettleWrites(c, owes, h.awaiting, a);
      } else {
        SyncWrites(c, a.sync);
      }
    }
  }

  /** What a clean-up writes; when it succeeds, the connection has received just that. */
  lemma SanitizeWrites(c: Conn, h: Hygiene, a: Answers)
    ensures AllByProxy(SanitizeEntries(c, h, a))
    ensures Sanitize(c, h, a).Some? ==> Wrote(c, Sanitize(c, h, a).value, SanitizeEntries(c, h, a))
  {
    QuiesceWrites(c, h, a);
    if Quiesce(c, h, a).Some? {
      var d := Quiesce(c, h, a).value;
      ResetByProxy(d, a);
      if Sanitize(c, h, a).Some? {
        ResetWrites(d, a);
        WroteOn(c, d, Sanitize(c, h, a).value, QuiesceEntries(c, h, a), ResetEntries(d, a));
      }
    }
  }

  lemma WroteOn(c: Conn, d: Conn, e: Conn, a: seq<Entry>, b: seq<Entry>)
    requires Wrote(c, d, a) && Wrote(d, e, b)
    ensures Wrote(c, e, a + b)
  {
    Regroup(c.wire, a, b);
  }

  lemma ResetByProxy(d: Conn, a: Answers)
    ensures AllByProxy(ResetEntries(d, a))
  {
  }

  lemma ResetWrites(d: Conn, a: Answers)
    requires d.status.Idle? || SimpleQuery(d, Rollback, a.rollback).Some?
    requires var e := if d.status.Idle? then d else SimpleQuery(d, Rollback, a.rollback).value;
             SimpleQuery(e, DiscardAll, a.discard).Some?
    ensures var e := if d.status.Idle? then d else SimpleQuery(d, Rollback, a.rollback).value;
            Wrote(d, SimpleQuery(e, DiscardAll, a.discard).value, ResetEntries(d, a))
  {
    if d.status.Idle? {
      CommandWrites(d, DiscardAll, a.discard);
    } else {
      CommandWrites(d, Rollback, a.rollback);
      CommandWrites(SimpleQuery(d, Rollback, a.rollback).value, DiscardAll, a.discard);
    }
  }

  lemma DetachWrites(c: Conn, dirty: bool, o: Outcome)
    ensures AllByProxy(DetachEntries(dirty))
    ensures CheckinDetached(c, dirty, o).Some? ==> Wrote(c, CheckinDetached(c, dirty, o).value, DetachEntries(dirty))
  {
    if dirty && CheckinDetached(c, dirty, o).Some? {
      CommandWrites(c, DiscardAll, o);
    }
  }
}

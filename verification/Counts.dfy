/**
 Row accounting over the cycles of a session: the `on_row` hook may drop rows, and with count adjustment
 on, the trailing number of every command tag is lowered by the rows dropped since the completion, or
 the start of a tracked cycle, before it. Only Query and Parse start a tracked cycle; a cycle of Bind and
 Execute inherits the tracker as the cycle before left it.
 */
module Counts {
  import opened Protocol
  import Decimal

  const U64_MAX := 0xffff_ffff_ffff_ffff

  // ---------------------------------------------------------------- command tags

  /** Position of the last space; the length of the text if there is none. */
  function LastSpace(s: string): nat
    ensures LastSpace(s) <= |s|
    ensures LastSpace(s) < |s| ==> s[LastSpace(s)] == ' '
  {
    if s == [] then 0
    else if s[|s| - 1] == ' ' then |s| - 1
    else
      var k := LastSpace(s[..|s| - 1]);
      if k == |s| - 1 then |s| else k
  }

  predicate Counted(tag: string) {
    var k := LastSpace(tag);
    k + 1 < |tag| && Decimal.AllDigits(tag[k + 1..])
  }

  function Head(tag: string): string
    requires Counted(tag)
  {
    tag[..LastSpace(tag)]
  }

  function Count(tag: string): nat
    requires Counted(tag)
  {
    Decimal.Read(tag[LastSpace(tag) + 1..])
  }

  /** A number that does not fit 64 bits is read as zero. */
  function Capped(n: nat): nat {
    if n > U64_MAX then 0 else n
  }

  function Less(n: nat, d: nat): nat {
    if n < d then 0 else n - d
  }

  function AdjustTag(tag: string, dropped: nat): string {
    if Counted(tag) then Head(tag) + " " + Decimal.Print(Less(Capped(Count(tag)), dropped)) else tag
  }

  lemma {:induction false} LastSpaceBefore(head: string, tail: string)
    requires Decimal.AllDigits(tail)
    ensures LastSpace(head + " " + tail) == |head|
  {
    var s := head + " " + tail;
    if tail != [] {
      assert s[..|s| - 1] == head + " " + tail[..|tail| - 1];
      assert Decimal.IsDigit(tail[|tail| - 1]);
      LastSpaceBefore(head, tail[..|tail| - 1]);
    }
  }

  /** Adjusting touches nothing but the trailing count: a tag without one is returned as it is. */
  lemma AdjustedTag(tag: string, dropped: nat)
    ensures Counted(AdjustTag(tag, dropped)) == Counted(tag)
    ensures Counted(tag) ==> Head(AdjustTag(tag, dropped)) == Head(tag)
    ensures Counted(tag) ==> Count(AdjustTag(tag, dropped)) == Less(Capped(Count(tag)), dropped)
    ensures !Counted(tag) ==> AdjustTag(tag, dropped) == tag
  {
    if Counted(tag) {
      var digits := Decimal.Print(Less(Capped(Count(tag)), dropped));
      var out := AdjustTag(tag, dropped);
      Decimal.PrintRead(Less(Capped(Count(tag)), dropped));
      LastSpaceBefore(Head(tag), digits);
      assert out[|Head(tag)| + 1..] == digits;
      assert out[..|Head(tag)|] == Head(tag);
    }
  }

  // ---------------------------------------------------------------- the relay of a session

  /** What reaches the tracker: the start of a tracked cycle, and what the server sends, for a row with
      the hook's decision, up to the ReadyForQuery that ends the cycle. */
  datatype Event = Begin | Row(keep: bool) | Complete(tag: string) | Fault(code: string) | Ended | Other

  function Rows(es: seq<Event>, keep: bool): nat {
    if es == [] then 0 else Rows(es[..|es| - 1], keep) + (if es[|es| - 1] == Row(keep) then 1 else 0)
  }

  predicate EndsStatement(e: Event) {
    e.Complete? || e.Fault? || e.Ended?
  }

  /** The rows the server sent of the statement now running. */
  function Sent(es: seq<Event>): nat {
    if es == [] || EndsStatement(es[|es| - 1]) then 0
    else Sent(es[..|es| - 1]) + (if es[|es| - 1].Row? then 1 else 0)
  }

  /** Those of them the hook dropped. */
  function DroppedOf(es: seq<Event>): nat {
    if es == [] || EndsStatement(es[|es| - 1]) then 0
    else DroppedOf(es[..|es| - 1]) + (if es[|es| - 1] == Row(false) then 1 else 0)
  }

  /** The dropped rows the tracker will take off the next tag. */
  function Pending(es: seq<Event>): nat {
    if es == [] || es[|es| - 1].Complete? || es[|es| - 1].Begin? then 0
    else Pending(es[..|es| - 1]) + (if es[|es| - 1] == Row(false) then 1 else 0)
  }

  function ShownTag(before: seq<Event>, tag: string, adjust: bool): string {
    if adjust && Pending(before) > 0 then AdjustTag(tag, Pending(before)) else tag
  }

  /** What the client sees of it. */
  function Shown(before: seq<Event>, e: Event, adjust: bool): seq<Event> {
    match e
    case Row(keep) => if keep then [e] else []
    case Complete(tag) => [Complete(ShownTag(before, tag, adjust))]
    case _ => [e]
  }

  function Relayed(es: seq<Event>, adjust: bool): seq<Event> {
    if es == [] then []
    else Relayed(es[..|es| - 1], adjust) + Shown(es[..|es| - 1], es[|es| - 1], adjust)
  }

  // ---------------------------------------------------------------- reports

  predicate Active(es: seq<Event>) {
    es != [] && !es[|es| - 1].Ended? && (es[|es| - 1].Begin? || Active(es[..|es| - 1]))
  }

  /** The events of the tracked cycle. */
  function Cycle(es: seq<Event>): seq<Event> {
    if es == [] || es[|es| - 1].Begin? then [] else Cycle(es[..|es| - 1]) + [es[|es| - 1]]
  }

  function LastTag(es: seq<Event>): Option<string> {
    if es == [] then None
    else if es[|es| - 1].Complete? then Some(es[|es| - 1].tag) else LastTag(es[..|es| - 1])
  }

  function LastFault(es: seq<Event>): Option<string> {
    if es == [] then None
    else if es[|es| - 1].Fault? then Some(es[|es| - 1].code) else LastFault(es[..|es| - 1])
  }

  datatype Report = Report(tag: Option<string>, rows: nat, rowsDropped: nat, error: Option<string>)

  function ReportOf(cycle: seq<Event>): Report {
    Report(LastTag(cycle), Rows(cycle, true), Rows(cycle, false), LastFault(cycle))
  }

  /** One report for each tracked cycle that ends. */
  function CycleReports(es: seq<Event>): seq<Report> {
    if es == [] then []
    else
      var before := es[..|es| - 1];
      CycleReports(before) + (if es[|es| - 1].Ended? && Active(before) then [ReportOf(Cycle(before))] else [])
  }

  class CycleTracking {
    var active: bool
    var tag: Option<string>
    var rows: nat
    var droppedPending: nat
    var droppedTotal: nat
    var error: Option<string>

    /** The fields tell of the session's events so far; what an untracked cycle leaves in them, but for the
        pending count, is never read. */
    ghost predicate Tells(es: seq<Event>)
      reads this
    {
      && active == Active(es) && droppedPending == Pending(es)
      && (active ==> Report(tag, rows, droppedTotal, error) == ReportOf(Cycle(es)))
    }

    constructor ()
      ensures Tells([])
    {
      active, tag, rows, droppedPending, droppedTotal, error := false, None, 0, 0, 0, None;
    }

    method Start()
      modifies this
      ensures active && tag.None? && rows == 0 && droppedPending == 0 && droppedTotal == 0 && error.None?
    {
      active := true;
      tag := None;
      rows := 0;
      droppedPending := 0;
      droppedTotal := 0;
      error := None;
    }

    method Finish() returns (r: Report)
      modifies this
      ensures r == Report(old(tag), old(rows), old(droppedTotal), old(error))
      ensures !active && droppedPending == old(droppedPending)
    {
      r := Report(tag, rows, droppedTotal, error);
      tag, error, active := None, None, false;
    }

    /** Note one backend message. */
    method Note(e: Event)
      modifies this
      ensures active == old(active)
      ensures tag == (if e.Complete? then Some(e.tag) else old(tag))
      ensures error == (if e.Fault? then Some(e.code) else old(error))
      ensures rows == old(rows) + (if e == Row(true) then 1 else 0)
      ensures droppedTotal == old(droppedTotal) + (if e == Row(false) then 1 else 0)
      ensures droppedPending ==
              (if e.Complete? then 0 else old(droppedPending) + (if e == Row(false) then 1 else 0))
    {
      match e {
        case Complete(t) =>
          tag := Some(t);
          droppedPending := 0;
        case Fault(code) => error := Some(code);
        case Row(keep) =>
          if keep {
            rows := rows + 1;
          } else {
            droppedTotal := droppedTotal + 1;
            droppedPending := droppedPending + 1;
          }
        case _ =>
      }
    }

    /** One event: what is passed on to the client, and the report that is due, if any. */
    method Observe(e: Event, adjust: bool, ghost es: seq<Event>) returns (out: seq<Event>, due: seq<Report>)
      requires Tells(es)
      modifies this
      ensures Tells(es + [e]) && out == Shown(es, e, adjust)
      ensures CycleReports(es + [e]) == CycleReports(es) + due
    {
      Next(es, e);
      NextReport(Cycle(es), e);
      out, due := [e], [];
      if e.Begin? {
        Start();
      } else if e.Ended? {
        if active {
          var r := Finish();
          due := [r];
        }
      } else {
        if e == Row(false) {
          out := [];
        } else if e.Complete? && adjust && droppedPending > 0 {
          out := [Complete(AdjustTag(e.tag, droppedPending))];
        }
        Note(e);
      }
    }
  }

  /** What one more event changes. */
  lemma Next(es: seq<Event>, e: Event)
    ensures (es + [e])[..|es|] == es
    ensures Pending(es + [e]) ==
            if e.Complete? || e.Begin? then 0 else Pending(es) + (if e == Row(false) then 1 else 0)
    ensures Active(es + [e]) == (!e.Ended? && (e.Begin? || Active(es)))
    ensures CycleReports(es + [e]) ==
            CycleReports(es) + (if e.Ended? && Active(es) then [ReportOf(Cycle(es))] else [])
    ensures Cycle(es + [e]) == if e.Begin? then [] else Cycle(es) + [e]
  {
    assert (es + [e])[..|es|] == es;
  }

  lemma NextReport(cycle: seq<Event>, e: Event)
    ensures ReportOf(cycle + [e]) ==
            var r := ReportOf(cycle);
            Report(if e.Complete? then Some(e.tag) else r.tag,
                   r.rows + (if e == Row(true) then 1 else 0),
                   r.rowsDropped + (if e == Row(false) then 1 else 0),
                   if e.Fault? then Some(e.code) else r.error)
  {
    assert (cycle + [e])[..|cycle|] == cycle;
  }

  /** All cycles of a session through one tracker: what the client is shown, with every kept row and no
      dropped one, and one report for each tracked cycle. */
  method RelayCycles(es: seq<Event>, adjust: bool) returns (out: seq<Event>, reports: seq<Report>)
    ensures out == Relayed(es, adjust) && reports == CycleReports(es)
    ensures Rows(out, true) == Rows(es, true) && Rows(out, false) == 0
  {
    var cycle := new CycleTracking();
    out, reports := [], [];
    var i := 0;
    while i < |es|
      invariant 0 <= i <= |es| && cycle.Tells(es[..i]) && fresh(cycle)
      invariant out == Relayed(es[..i], adjust) && reports == CycleReports(es[..i])
    {
      assert es[..i + 1] == es[..i] + [es[i]];
      assert es[..i + 1][..i] == es[..i];
      var shown, due := cycle.Observe(es[i], adjust, es[..i]);
      out, reports := out + shown, reports + due;
      i := i + 1;
    }
    assert es[..i] == es;
    RelayedRows(es, adjust);
  }

  // ---------------------------------------------------------------- laws

  /** Every counted tag counts the rows of its statement. */
  predicate Honest(es: seq<Event>) {
    es == [] || (Honest(es[..|es| - 1]) && HonestAt(es[..|es| - 1], es[|es| - 1]))
  }

  predicate HonestAt(before: seq<Event>, e: Event) {
    e.Complete? && Counted(e.tag) ==> Count(e.tag) == Sent(before)
  }

  /** No row is lost or made up in the session. */
  lemma {:induction false} RelayedRows(es: seq<Event>, adjust: bool)
    ensures Rows(Relayed(es, adjust), true) == Rows(es, true) && Rows(Relayed(es, adjust), false) == 0
  {
    if es != [] {
      RelayedRows(es[..|es| - 1], adjust);
      RelayedStep(es, adjust);
      RowsStep(Relayed(es, adjust));
    }
  }

  lemma RowsStep(es: seq<Event>)
    ensures es != [] ==> forall keep :: Rows(es, keep) ==
                           Rows(es[..|es| - 1], keep) + (if es[|es| - 1] == Row(keep) then 1 else 0)
  {
  }

  /** Nor of the statement now running: what reached the client and what was dropped is what was sent. */
  lemma {:induction false} RelayedSent(es: seq<Event>, adjust: bool)
    ensures Sent(Relayed(es, adjust)) + DroppedOf(es) == Sent(es)
  {
    if es != [] {
      RelayedSent(es[..|es| - 1], adjust);
      RelayedStep(es, adjust);
    }
  }

  lemma RelayedStep(es: seq<Event>, adjust: bool)
    requires es != []
    ensures var before, e := es[..|es| - 1], es[|es| - 1];
            && (e == Row(false) ==> Relayed(es, adjust) == Relayed(before, adjust))
            && (e != Row(false) ==>
                  && |Shown(before, e, adjust)| == 1
                  && Relayed(es, adjust)[..|Relayed(es, adjust)| - 1] == Relayed(before, adjust)
                  && Relayed(es, adjust)[|Relayed(es, adjust)| - 1] == Shown(before, e, adjust)[0])
  {
  }

  /** Exactly when the tag the client sees counts the rows of the statement that reached the client: the
      tracker's pending count is the rows dropped of this statement and the server's number counts the
      rows it sent; or the two errors cancel; or none was kept and the subtraction stops at zero. */
  lemma ShownCountExactly(before: seq<Event>, tag: string)
    requires Counted(tag)
    ensures var shown := ShownTag(before, tag, true);
            var seen, pending := Sent(Relayed(before, true)), Pending(before);
            var n := if pending > 0 then Capped(Count(tag)) else Count(tag);
            && Counted(shown) && Head(shown) == Head(tag)
            && (Count(shown) == seen <==> n == seen + pending || (seen == 0 && n <= pending))
  {
    AdjustedTag(tag, Pending(before));
  }

  /** For a server whose tags count its rows, that comes down to the pending count: the shown count is right
      exactly when the pending count is this statement's, or no row was kept and it is no smaller. */
  lemma HonestCountExactly(before: seq<Event>, tag: string)
    requires Counted(tag) && Count(tag) == Sent(before) <= U64_MAX
    ensures var seen, pending, dropped := Sent(Relayed(before, true)), Pending(before), DroppedOf(before);
            && Counted(ShownTag(before, tag, true))
            && (Count(ShownTag(before, tag, true)) == seen <==>
                pending == dropped || (seen == 0 && pending > dropped))
  {
    RelayedSent(before, true);
    ShownCountExactly(before, tag);
  }

  lemma {:induction false} RowsAppend(a: seq<Event>, b: seq<Event>, keep: bool)
    ensures Rows(a + b, keep) == Rows(a, keep) + Rows(b, keep)
  {
    if b == [] {
      assert a + b == a;
    } else {
      assert (a + b)[..|a + b| - 1] == a + b[..|b| - 1];
      RowsAppend(a, b[..|b| - 1], keep);
    }
  }

  /** Where the statement now running began: behind the last completion, error or end of a cycle. */
  function StatementAt(es: seq<Event>): (k: nat)
    ensures k <= |es|
  {
    if es == [] then 0 else if EndsStatement(es[|es| - 1]) then |es| else StatementAt(es[..|es| - 1])
  }

  /** Where the tracker began to count dropped rows: behind the last completion or tracked start. */
  function PendingAt(es: seq<Event>): (k: nat)
    ensures k <= |es|
  {
    if es == [] then 0
    else if es[|es| - 1].Complete? || es[|es| - 1].Begin? then |es|
    else PendingAt(es[..|es| - 1])
  }

  lemma {:induction false} CountedFrom(es: seq<Event>)
    ensures DroppedOf(es) == Rows(es[StatementAt(es)..], false)
    ensures Pending(es) == Rows(es[PendingAt(es)..], false)
  {
    if es != [] {
      var before, e := es[..|es| - 1], es[|es| - 1];
      CountedFrom(before);
      RowsFrom(es, StatementAt(before));
      RowsFrom(es, PendingAt(before));
      assert es[|es|..] == [];
    }
  }

  lemma RowsFrom(es: seq<Event>, k: nat)
    requires k < |es|
    ensures Rows(es[k..], false) == Rows(es[..|es| - 1][k..], false) + (if es[|es| - 1] == Row(false) then 1 else 0)
  {
    assert es[k..][..|es[k..]| - 1] == es[..|es| - 1][k..];
  }

  /** And the pending count is this statement's exactly when no row was dropped between the point where the
      statement began and the point where the tracker began to count, whichever came first. A cycle of
      Bind and Execute that fails after a dropped row, for one, leaves it to the next. */
  lemma PendingExactly(es: seq<Event>)
    ensures Pending(es) == DroppedOf(es) <==>
            var a, b := StatementAt(es), PendingAt(es);
            Rows(if a <= b then es[a..b] else es[b..a], false) == 0
  {
    var a, b := StatementAt(es), PendingAt(es);
    CountedFrom(es);
    if a <= b {
      assert es[a..] == es[a..b] + es[b..];
      RowsAppend(es[a..b], es[b..], false);
    } else {
      assert es[b..] == es[b..a] + es[a..];
      RowsAppend(es[b..a], es[a..], false);
    }
  }

  /** The smallest case: one row dropped and an error, then a prepared statement that brings one row. Its
      tag says none. */
  lemma FailedCycleSpoilsTheNext(tag: string)
    requires Counted(tag) && Count(tag) == 1
    ensures var before := [Row(false), Fault("22012"), Ended, Row(true)];
            && Honest(before + [Complete(tag)])
            && Counted(ShownTag(before, tag, true))
            && Sent(Relayed(before, true)) == 1 && Count(ShownTag(before, tag, true)) == 0
  {
    var a, b, c := [Row(false)], [Row(false), Fault("22012")], [Row(false), Fault("22012"), Ended];
    var before := [Row(false), Fault("22012"), Ended, Row(true)];
    assert a[..0] == [] && b[..1] == a && c[..2] == b && before[..3] == c;
    assert (before + [Complete(tag)])[..4] == before;
    assert Pending(b) == Pending(c) == Pending(before) == 1;
    assert Sent(before) == 1 && DroppedOf(before) == 0;
    assert Honest(a) && Honest(b) && Honest(c) && Honest(before);
    RelayedSent(before, true);
    AdjustedTag(tag, 1);
  }

  predicate Running(es: seq<Event>) {
    es != [] && !es[|es| - 1].Fault? && !es[|es| - 1].Ended? && (es[|es| - 1].Begin? || Running(es[..|es| - 1]))
  }

  /** Every row and completion belongs to a tracked cycle without an error so far, and no cycle starts in the
      middle of a statement of which a row was dropped. */
  predicate AllTracked(es: seq<Event>) {
    es == [] ||
    var before, e := es[..|es| - 1], es[|es| - 1];
    && AllTracked(before)
    && (e.Row? || e.Complete? ==> Running(before))
    && (e.Begin? ==> DroppedOf(before) == 0)
  }

  lemma {:induction false} TrackedPending(es: seq<Event>)
    requires AllTracked(es) && Running(es)
    ensures Pending(es) == DroppedOf(es)
  {
    if !es[|es| - 1].Begin? {
      TrackedPending(es[..|es| - 1]);
    }
  }

  lemma {:induction false} SentBound(es: seq<Event>)
    ensures Sent(es) <= |es|
  {
    if es != [] {
      SentBound(es[..|es| - 1]);
    }
  }

  /** Adjustment keeps tags honest in a session of tracked cycles: if the server's tags count its rows, the
      client's count the rows that reached the client. */
  lemma {:induction false} HonestRelay(es: seq<Event>)
    requires Honest(es) && AllTracked(es) && |es| <= U64_MAX
    ensures Honest(Relayed(es, true))
  {
    if es != [] {
      var before, e := es[..|es| - 1], es[|es| - 1];
      HonestRelay(before);
      RelayedStep(es, true);
      if e.Complete? {
        SentBound(before);
        TrackedPending(before);
        AdjustedTag(e.tag, Pending(before));
        if Counted(e.tag) {
          HonestCountExactly(before, e.tag);
        }
      }
    }
  }

  /** Without adjustment an honest tag stays honest exactly when nothing of its statement was dropped. */
  lemma UnadjustedExactly(before: seq<Event>, tag: string)
    requires Counted(tag) && Count(tag) == Sent(before)
    ensures Count(ShownTag(before, tag, false)) == Sent(Relayed(before, false)) <==> DroppedOf(before) == 0
  {
    RelayedSent(before, false);
  }

  /** The sum of the server's own counts. */
  function TagTotal(es: seq<Event>): nat {
    if es == [] then 0
    else
      TagTotal(es[..|es| - 1]) +
      (if es[|es| - 1].Complete? && Counted(es[|es| - 1].tag) then Count(es[|es| - 1].tag) else 0)
  }

  /** The rows of statements that ended without a count. */
  function Uncounted(es: seq<Event>): nat {
    if es == [] then 0
    else
      var before, e := es[..|es| - 1], es[|es| - 1];
      Uncounted(before) + (if e.Fault? || e.Ended? || (e.Complete? && !Counted(e.tag)) then Sent(before) else 0)
  }

  /** Reports keep the server's own numbers: over any stretch of a session, the counts of an honest server's
      tags add up to the rows kept and the rows dropped, short of the rows that no tag has counted. */
  lemma {:induction false} TagsAddUp(es: seq<Event>)
    requires Honest(es)
    ensures TagTotal(es) + Uncounted(es) + Sent(es) == Rows(es, true) + Rows(es, false)
  {
    if es != [] {
      TagsAddUp(es[..|es| - 1]);
    }
  }

  /** The report of a cycle names the server's last tag, not the one the client was shown, and counts every
      row of the cycle once: the numbers of the cycle's tags add up to them, short of rows no tag counts. */
  lemma ReportKeepsServerTag(before: seq<Event>, cycle: seq<Event>, tag: string)
    requires forall i :: 0 <= i < |cycle| ==> cycle[i].Row? || cycle[i].Complete? || cycle[i].Other?
    requires Counted(tag) && Honest(cycle + [Complete(tag)])
    ensures var r := ReportOf(cycle + [Complete(tag)]);
            && CycleReports(before + [Begin] + (cycle + [Complete(tag)]) + [Ended]) ==
               CycleReports(before + [Begin] + (cycle + [Complete(tag)])) + [r]
            && r.tag == Some(tag) && r.error.None?
            && TagTotal(cycle + [Complete(tag)]) + Uncounted(cycle) == r.rows + r.rowsDropped
  {
    var whole := cycle + [Complete(tag)];
    assert whole[..|cycle|] == cycle;
    CycleSince(before, whole);
    Next(before + [Begin] + whole, Ended);
    TagsAddUp(whole);
    NoFault(whole);
  }

  lemma {:induction false} NoFault(es: seq<Event>)
    requires forall i :: 0 <= i < |es| ==> !es[i].Fault?
    ensures LastFault(es).None?
  {
    if es != [] {
      NoFault(es[..|es| - 1]);
    }
  }

  lemma {:induction false} CycleSince(before: seq<Event>, cycle: seq<Event>)
    requires forall i :: 0 <= i < |cycle| ==> !cycle[i].Begin? && !cycle[i].Ended?
    ensures Cycle(before + [Begin] + cycle) == cycle && Active(before + [Begin] + cycle)
  {
    var all := before + [Begin] + cycle;
    if cycle == [] {
      assert all[|all| - 1] == Begin;
    } else {
      var k := |cycle| - 1;
      assert all[..|all| - 1] == before + [Begin] + cycle[..k];
      CycleSince(before, cycle[..k]);
    }
  }
}

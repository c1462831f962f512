/**
 What the upstream connection of a session can look like, for every phase its client can be in, as
 long as the client waits for its answers: whatever hooks decide, servers do and connections suffer.
 */
module Shapes {
  import opened Protocol
  import opened Connection
  import opened Session

  /** Neither ends a cycle nor starts a COPY. */
  predicate Plain(ms: seq<Backend>) {
    forall i :: 0 <= i < |ms| ==> !ms[i].ReadyForQuery? && !ms[i].CopyInResponse?
  }

  predicate Calm(ms: seq<Backend>) {
    Plain(ms) && NoError(ms)
  }

  predicate EndsWith(ms: seq<Backend>, last: Backend) {
    ms != [] && ms[|ms| - 1] == last
  }

  /** The cycle's only ReadyForQuery comes last and carries the server's status. */
  predicate Ending(c: Conn) {
    c.server.mode.Ready? && EndsWith(c.unread, ReadyForQuery(c.server.tx)) && Plain(c.unread[..|c.unread| - 1])
  }

  /** A COPY started by Query, with the client still to be told. */
  predicate CopyOffered(c: Conn) {
    c.server.mode == Copying(false) && EndsWith(c.unread, CopyInResponse) && Plain(c.unread[..|c.unread| - 1])
  }

  /** The same COPY after a cancel request. */
  predicate Withdrawn(c: Conn) {
    c.server.mode.Ready? && EndsWith(c.unread, ReadyForQuery(c.server.tx)) && Offers(c.unread[..|c.unread| - 1])
  }

  predicate Offers(ms: seq<Backend>) {
    exists k :: 0 <= k < |ms| && OfferAt(ms, k)
  }

  /** The only CopyInResponse is at `k`. */
  predicate OfferAt(ms: seq<Backend>, k: nat) {
    k < |ms| && Plain(ms[..k]) && ms[k].CopyInResponse? && Plain(ms[k + 1..])
  }

  predicate InCopy(c: Conn) {
    c.server.mode == Copying(false) && Plain(c.unread)
  }

  /** A COPY started by Execute, with the client still to be told. */
  predicate Offer(c: Conn) {
    c.server.mode == Copying(true) && EndsWith(c.unread, CopyInResponse) && Calm(c.unread[..|c.unread| - 1])
  }

  /** The same COPY after a cancel request. */
  predicate Aborted(c: Conn) {
    && c.server.mode.Skip?
    && exists k :: 0 <= k < |c.unread| && OfferAt(c.unread, k) && NoError(c.unread[..k])
  }

  predicate Fetching(c: Conn) {
    c.server.mode == Copying(true) && Calm(c.unread)
  }

  /** The Execute of a COPY is still buffered. */
  predicate Offering(c: Conn) {
    !c.server.mode.Copying? && Offer(Flushed(c)) && Plain(c.unread)
  }

  /** Nothing read so far or still to come can end a cycle or start a COPY. */
  predicate Open(c: Conn) {
    var f := Flushed(c);
    && !c.server.mode.Copying? && !f.server.mode.Copying?
    && Plain(f.unread) && (f.server.mode.Ready? ==> NoError(f.unread))
  }

  /** The connection has something in store for the client. */
  predicate Busy(c: Conn, phase: Phase) {
    match phase
    case AtRest => false
    case Batch => false
    case Asking => Offering(c)
    case Pending => c.fed == [] && (Offer(c) || Aborted(c))
    case Waiting(extended) =>
      && c.fed == []
      && (Ending(c) || (if extended then Offer(c) || Aborted(c) else CopyOffered(c) || Withdrawn(c)))
    case CopyingIn(extended) => c.fed == [] && (if extended then Fetching(c) else Ending(c) || InCopy(c))
  }

  predicate Shape(c: Conn, phase: Phase) {
    Open(c) || Busy(c, phase)
  }

  // ---------------------------------------------------------------- sequences

  lemma PlainStatuses(reports: seq<(string, string)>)
    ensures Plain(Statuses(reports)) && NoError(Statuses(reports))
  {
  }

  lemma PlainAppend(a: seq<Backend>, b: seq<Backend>)
    ensures Plain(a + b) <==> Plain(a) && Plain(b)
    ensures NoError(a + b) <==> NoError(a) && NoError(b)
  {
    assert forall i :: 0 <= i < |a| ==> a[i] == (a + b)[i];
    assert forall i :: 0 <= i < |b| ==> b[i] == (a + b)[|a| + i];
  }

  lemma SplitLast(a: seq<Backend>, b: seq<Backend>)
    requires b != []
    ensures (a + b)[..|a + b| - 1] == a + b[..|b| - 1]
    ensures (a + b)[|a + b| - 1] == b[|b| - 1]
  {
  }

  lemma PlainNotReady(ms: seq<Backend>)
    requires Plain(ms)
    ensures ReadyCount(ms) == 0
  {
    NoReadyCount(ms);
  }

  lemma OfferNotReady(ms: seq<Backend>, k: nat)
    requires OfferAt(ms, k)
    ensures ReadyCount(ms) == 0
  {
    NoReadyCount(ms);
    assert forall i :: 0 <= i < k ==> ms[i] == ms[..k][i];
    assert forall i :: k < i < |ms| ==> ms[i] == ms[k + 1..][i - k - 1];
  }

  lemma ReadyCountLast(ms: seq<Backend>)
    requires ms != []
    ensures ReadyCount(ms) == ReadyCount(ms[..|ms| - 1]) + (if ms[|ms| - 1].ReadyForQuery? then 1 else 0)
  {
  }

  // ---------------------------------------------------------------- what is owed

  /** What a shape owes: one ReadyForQuery in a simple COPY or behind a Query or Sync, else none. */
  lemma ShapeOwes(c: Conn, phase: Phase)
    requires OnlyPipelined(c) && Shape(c, phase)
    ensures Open(c) ==> Owed(c) == 0
    ensures InBatch(phase) || phase.AtRest? ==> Owed(c) == 0
    ensures Owed(c) <= 1
  {
    FlushKeepsOwed(c);
    if Open(c) {
      PlainNotReady(Flushed(c).unread);
    } else {
      BusyOwes(c, phase);
    }
  }

  lemma BusyOwes(c: Conn, phase: Phase)
    requires OnlyPipelined(c) && Busy(c, phase)
    ensures Owed(c) <= 1 && (InBatch(phase) ==> Owed(c) == 0)
  {
    FlushKeepsOwed(c);
    var u := if phase.Asking? then Flushed(c).unread else c.unread;
    if u != [] {
      ReadyCountLast(u);
    }
    if phase.Asking? {
      PlainNotReady(u[..|u| - 1]);
    } else if Fetching(c) || InCopy(c) {
      PlainNotReady(u);
    } else if Ending(c) || CopyOffered(c) || Offer(c) {
      PlainNotReady(u[..|u| - 1]);
    } else if Aborted(c) {
      var k :| 0 <= k < |u| && OfferAt(u, k) && NoError(u[..k]);
      OfferNotReady(u, k);
    } else {
      var front := u[..|u| - 1];
      var k :| 0 <= k < |front| && OfferAt(front, k);
      OfferNotReady(front, k);
    }
  }

  // ---------------------------------------------------------------- writing

  /** What a client's message does to the connection, now and behind everything buffered. */
  lemma WrittenIs(c: Conn, m: Frontend, o: Outcome)
    ensures var d, e := Written(c, m, o), Arrive(Flushed(c), m, o);
            && Flushed(d).server == e.server && Flushed(d).unread == e.unread
            && d.status == c.status && d.cache == c.cache && d.id == c.id
            && (TriggersResponse(m) ==> d.server == e.server && d.unread == e.unread && d.fed == [])
            && (!TriggersResponse(m) ==> d.server == c.server && d.unread == c.unread && d.fed == c.fed + [(m, o)])
  {
    FeedThenFlush(c, m, o);
    if TriggersResponse(m) {
      FlushedNothing(Send(c, m, o));
    }
  }

  lemma WrittenPipelined(c: Conn, m: Frontend, o: Outcome)
    requires OnlyPipelined(c) && (TriggersResponse(m) || Pipelined(m))
    ensures OnlyPipelined(Written(c, m, o))
  {
    WrittenIs(c, m, o);
  }

  /** A batch message reaches a server that is not copying. */
  lemma BatchReact(s: Server, m: Frontend, o: Outcome)
    requires !s.mode.Copying? && (Pipelined(m) || m.Flush?)
    ensures var r := React(s, m, o);
            if m.Execute? && o.shape.CopyFromClient? && s.mode.Ready? && o.ok
            then r.server.mode == Copying(true) && r.replies == Statuses(o.reports) + [CopyInResponse]
            else
              && !r.server.mode.Copying? && Plain(r.replies)
              && (r.server.mode.Ready? ==> s.mode.Ready? && NoError(r.replies))
  {
    PlainStatuses(o.reports);
    PlainAppend(Statuses(o.reports), [ErrorResponse(ServerFault)]);
    PlainAppend(Statuses(o.reports), ExecuteTail(o));
  }

  lemma OpenHolds(d: Conn, u: seq<Backend>, s: Server)
    requires Flushed(d).server == s && Flushed(d).unread == u && !d.server.mode.Copying? && !s.mode.Copying?
    requires Plain(u) && (s.mode.Ready? ==> NoError(u))
    ensures Open(d)
  {
  }

  lemma OpenPrefix(c: Conn)
    requires Open(c)
    ensures Plain(c.unread)
  {
    PlainAppend(c.unread, ReactAll(c.server, c.fed).replies);
  }

  lemma OpenNotPending(c: Conn)
    requires Open(c)
    ensures !Busy(c, Pending)
  {
    OpenPrefix(c);
  }

  lemma WriteInBatch(c: Conn, m: Frontend, o: Outcome)
    requires Open(c) && (Pipelined(m) || m.Flush?)
    ensures var d := Written(c, m, o); Open(d) || (m.Execute? && o.shape.CopyFromClient? && Offering(d))
  {
    var f, d := Flushed(c), Written(c, m, o);
    var r := React(f.server, m, o);
    WrittenIs(c, m, o);
    BatchReact(f.server, m, o);
    if r.server.mode.Copying? {
      OpenPrefix(c);
      PlainStatuses(o.reports);
      PlainAppend(f.unread, Statuses(o.reports));
      assert f.unread + r.replies == (f.unread + Statuses(o.reports)) + [CopyInResponse];
      OfferHolds(Flushed(d), f.unread + Statuses(o.reports));
    } else {
      PlainAppend(f.unread, r.replies);
      OpenHolds(d, f.unread + r.replies, r.server);
    }
  }

  lemma OfferHolds(d: Conn, front: seq<Backend>)
    requires d.server.mode == Copying(true) && d.unread == front + [CopyInResponse] && Calm(front)
    ensures Offer(d)
  {
    assert d.unread[..|d.unread| - 1] == front;
  }

  lemma CopyOfferedHolds(d: Conn, front: seq<Backend>)
    requires d.server.mode == Copying(false) && d.unread == front + [CopyInResponse] && Plain(front)
    ensures CopyOffered(d)
  {
    assert d.unread[..|d.unread| - 1] == front;
  }

  lemma EndingHolds(d: Conn, front: seq<Backend>)
    requires d.server.mode.Ready? && d.unread == front + [ReadyForQuery(d.server.tx)] && Plain(front)
    ensures Ending(d)
  {
    assert d.unread[..|d.unread| - 1] == front;
  }

  lemma SyncReact(s: Server, o: Outcome)
    requires !s.mode.Copying?
    ensures var r := React(s, Sync, o);
            && r.server.mode.Ready? && r.replies != [] && Plain(r.replies[..|r.replies| - 1])
            && r.replies[|r.replies| - 1] == ReadyForQuery(r.server.tx)
  {
  }

  lemma WriteSync(c: Conn, phase: Phase, o: Outcome)
    requires Shape(c, phase) && MaySend(phase, Sync)
    ensures Busy(Written(c, Sync, o), Waiting(true))
  {
    if Open(c) {
      SyncOpen(c, o);
    } else {
      WrittenIs(c, Sync, o);
      assert Flushed(c).unread + [] == Flushed(c).unread;
    }
  }

  lemma JoinFront(a: seq<Backend>, r: seq<Backend>)
    requires r != []
    ensures a + r == (a + r[..|r| - 1]) + [r[|r| - 1]]
    ensures Plain(a) && Plain(r[..|r| - 1]) ==> Plain(a + r[..|r| - 1])
  {
    PlainAppend(a, r[..|r| - 1]);
  }

  lemma SyncOpen(c: Conn, o: Outcome)
    requires Open(c)
    ensures Ending(Written(c, Sync, o)) && Written(c, Sync, o).fed == []
  {
    var f, d := Flushed(c), Written(c, Sync, o);
    var r := React(f.server, Sync, o);
    WrittenIs(c, Sync, o);
    SyncReact(f.server, o);
    JoinFront(f.unread, r.replies);
    EndingHolds(d, f.unread + r.replies[..|r.replies| - 1]);
  }

  /** A Flush behind the Execute of a COPY. */
  lemma WriteFlush(c: Conn, o: Outcome)
    requires Offering(c)
    ensures Busy(Written(c, Flush, o), Pending)
  {
    var f, d := Flushed(c), Written(c, Flush, o);
    WrittenIs(c, Flush, o);
    assert React(f.server, Flush, o) == Reaction(f.server, []);
    assert f.unread + [] == f.unread;
    SameOffer(f, d);
  }

  lemma SameOffer(f: Conn, d: Conn)
    requires Offer(f) && d.server == f.server && d.unread == f.unread
    ensures Offer(d)
  {
  }

  lemma QueryReact(s: Server, m: Frontend, o: Outcome)
    requires m.Query? && s.mode.Ready?
    ensures var r := React(s, m, o);
            && r.replies != [] && Plain(r.replies[..|r.replies| - 1])
            && (if o.shape.CopyFromClient? then r.server.mode == Copying(false) && EndsWith(r.replies, CopyInResponse)
                else r.server.mode.Ready? && EndsWith(r.replies, ReadyForQuery(r.server.tx)))
  {
    var st, tail := Statuses(o.reports), QueryTail(o);
    PlainStatuses(o.reports);
    PlainAppend(st, tail[..|tail| - 1]);
    SplitLast(st, tail);
  }

  lemma WriteQuery(c: Conn, m: Frontend, o: Outcome)
    requires Open(c) && m.Query?
    ensures var d := Written(c, m, o);
            if Flushed(c).server.mode.Ready? then Busy(d, Waiting(false)) else Open(d)
  {
    var f, d := Flushed(c), Written(c, m, o);
    var r := React(f.server, m, o);
    WrittenIs(c, m, o);
    if f.server.mode.Ready? {
      QueryReact(f.server, m, o);
      JoinFront(f.unread, r.replies);
      if o.shape.CopyFromClient? {
        CopyOfferedHolds(d, f.unread + r.replies[..|r.replies| - 1]);
      } else {
        EndingHolds(d, f.unread + r.replies[..|r.replies| - 1]);
      }
    } else {
      assert f.unread + [] == f.unread;
      OpenHolds(d, f.unread, f.server);
    }
  }

  predicate CopyMessage(m: Frontend) {
    m.CopyData? || m.CopyDone? || m.CopyFail?
  }

  /** A COPY message to a server that is not copying goes unanswered. */
  lemma CopyIgnored(c: Conn, m: Frontend, o: Outcome)
    requires CopyMessage(m) && Open(c)
    ensures Open(Written(c, m, o))
  {
    var f := Flushed(c);
    WrittenIs(c, m, o);
    assert f.unread + [] == f.unread;
    OpenHolds(Written(c, m, o), f.unread, f.server);
  }

  lemma AbortReact(s: Server, o: Outcome)
    ensures Plain(AbortBatch(s, o).replies)
  {
    PlainStatuses(o.reports);
    PlainAppend(Statuses(o.reports), [ErrorResponse(ServerFault)]);
  }

  lemma CopyReact(s: Server, m: Frontend, o: Outcome)
    requires CopyMessage(m) && s.mode == Copying(true)
    ensures var r := React(s, m, o);
            && Plain(r.replies)
            && (r.server.mode.Skip?
                || (r.server.mode.Ready? && m.CopyDone? && NoError(r.replies))
                || (r.server.mode == s.mode && m.CopyData? && r.replies == []))
  {
    AbortReact(s, o);
  }

  lemma WriteFetching(c: Conn, m: Frontend, o: Outcome)
    requires c.fed == [] && Fetching(c) && CopyMessage(m)
    ensures var d := Written(c, m, o); Open(d) || (m.CopyData? && d.fed == [] && Fetching(d))
  {
    var d, r := Written(c, m, o), React(c.server, m, o);
    FlushedNothing(c);
    WrittenIs(c, m, o);
    CopyReact(c.server, m, o);
    PlainAppend(c.unread, r.replies);
    if r.server.mode.Copying? {
      assert c.unread + [] == c.unread;
    } else {
      OpenHolds(d, c.unread + r.replies, r.server);
    }
  }

  lemma SimpleCopyReact(s: Server, m: Frontend, o: Outcome)
    requires CopyMessage(m) && s.mode == Copying(false)
    ensures var r := React(s, m, o);
            if r.server.mode.Copying? then r.server.mode == s.mode && m.CopyData? && r.replies == []
            else
              && r.server.mode.Ready? && EndsWith(r.replies, ReadyForQuery(r.server.tx))
              && Plain(r.replies[..|r.replies| - 1])
  {
    AbortReact(s, o);
    var r := React(s, m, o);
    if m.CopyDone? && o.ok {
      assert r.replies[..1] == [Data];
    } else if r.server.mode.Ready? {
      var front := AbortBatch(s, o).replies;
      assert r.replies == front + [ReadyForQuery(r.server.tx)];
      assert r.replies[..|front|] == front;
    }
  }

  lemma WriteInCopy(c: Conn, m: Frontend, o: Outcome)
    requires c.fed == [] && (Ending(c) || InCopy(c)) && CopyMessage(m)
    ensures var d := Written(c, m, o); d.fed == [] && (Ending(d) || (m.CopyData? && InCopy(d)))
  {
    var d, r := Written(c, m, o), React(c.server, m, o);
    FlushedNothing(c);
    WrittenIs(c, m, o);
    if Ending(c) {
      assert c.unread + [] == c.unread;
    } else {
      SimpleCopyReact(c.server, m, o);
      if r.server.mode.Copying? {
        assert c.unread + [] == c.unread;
      } else {
        var front := r.replies[..|r.replies| - 1];
        PlainAppend(c.unread, front);
        assert r.replies == front + [r.replies[|r.replies| - 1]];
        assert c.unread + r.replies == (c.unread + front) + [ReadyForQuery(r.server.tx)];
        EndingHolds(d, c.unread + front);
      }
    }
  }

  lemma WriteCopy(c: Conn, phase: Phase, m: Frontend, o: Outcome)
    requires OnlyPipelined(c) && Shape(c, phase) && MaySend(phase, m) && CopyMessage(m)
    ensures Shape(Written(c, m, o), AfterSending(phase, m, o))
    ensures phase == CopyingIn(false) && Busy(c, phase) ==> Busy(Written(c, m, o), AfterSending(phase, m, o))
  {
    if Busy(c, phase) {
      if phase.extended {
        WriteFetching(c, m, o);
      } else {
        WriteInCopy(c, m, o);
      }
    } else {
      CopyIgnored(c, m, o);
    }
  }

  lemma LegSentIs(c: Conn, leg: LegRun)
    ensures var f, s := Flushed(c), LegSent(c, leg);
            var r := React(f.server, Query(leg.sql), leg.o);
            && s.unread == f.unread + r.replies && s.server == r.server && s.fed == []
            && s.cache == c.cache && s.id == c.id && s.wire == c.wire + [LegQuery(leg.sql)]
  {
    FeedThenFlush(c, Query(leg.sql), leg.o);
  }

  /** A leg whose ReadyForQuery comes met a ready server and did not ask for COPY data. */
  lemma LegIsAnswered(c: Conn, leg: LegRun)
    requires Open(c) && LegRan(c, leg).Some?
    ensures Flushed(c).server.mode.Ready? && !leg.o.shape.CopyFromClient?
  {
    var f, s := Flushed(c), LegSent(c, leg);
    LegSentIs(c, leg);
    DrainLaw(s);
    if !f.server.mode.Ready? {
      SkippedNotReady(f, s);
      assert false;
    } else if leg.o.shape.CopyFromClient? {
      LegOffered(f.unread, f.server, leg);
      assert false;
    }
  }

  lemma LegOffered(unread: seq<Backend>, server: Server, leg: LegRun)
    requires Plain(unread) && server.mode.Ready? && leg.o.shape.CopyFromClient?
    ensures ReadyCount(unread + React(server, Query(leg.sql), leg.o).replies) == 0
  {
    var r := React(server, Query(leg.sql), leg.o);
    QueryReact(server, Query(leg.sql), leg.o);
    JoinFront(unread, r.replies);
    OfferedNotReady(unread + r.replies, unread + r.replies[..|r.replies| - 1]);
  }

  lemma LegEnding(c: Conn, leg: LegRun)
    requires Open(c) && Flushed(c).server.mode.Ready? && !leg.o.shape.CopyFromClient?
    ensures Ending(LegSent(c, leg))
  {
    var f := Flushed(c);
    var r := React(f.server, Query(leg.sql), leg.o);
    LegSentIs(c, leg);
    QueryReact(f.server, Query(leg.sql), leg.o);
    JoinFront(f.unread, r.replies);
    EndingHolds(LegSent(c, leg), f.unread + r.replies[..|r.replies| - 1]);
  }

  lemma SkippedNotReady(f: Conn, s: Conn)
    requires Plain(f.unread) && s.unread == f.unread + []
    ensures ReadyCount(s.unread) == 0
  {
    assert f.unread + [] == f.unread;
    PlainNotReady(f.unread);
  }

  /** Where a scatter leg leaves a connection on which nothing was in store. */
  lemma LegResult(c: Conn, leg: LegRun)
    requires Open(c) && LegRan(c, leg).Some?
    ensures var f, d := Flushed(c), LegRan(c, leg).value;
            && f.server.mode.Ready? && AtBoundary(d) && d.id == c.id && d.wire == c.wire + [LegQuery(leg.sql)]
            && d.server == Executed(f.server, leg.o).(tx := leg.o.tx)
            && d.cache == Reported(c.cache, f.unread + Statuses(leg.o.reports))
  {
    LegIsAnswered(c, leg);
    LegSentIs(c, leg);
    LegEnding(c, leg);
    EndingReads(LegSent(c, leg));
    LegReports(c.cache, Flushed(c).unread, leg.o);
  }

  lemma OfferedNotReady(ms: seq<Backend>, front: seq<Backend>)
    requires ms == front + [CopyInResponse] && Plain(front)
    ensures ReadyCount(ms) == 0
  {
    PlainNotReady(front);
    ReadyCountAppend(front, [CopyInResponse]);
    NoReadyCount([CopyInResponse]);
  }

  lemma EndingReads(s: Conn)
    requires Ending(s) && s.fed == []
    ensures Drain(s).Some?
    ensures var d := Drain(s).value;
            && d == s.(unread := [], status := s.server.tx, cache := d.cache)
            && d.cache == Reported(s.cache, s.unread)
  {
    var front := s.unread[..|s.unread| - 1];
    PlainNotReady(front);
    assert s.unread == front + [ReadyForQuery(s.server.tx)];
    ReadyCountAppend(front, [ReadyForQuery(s.server.tx)]);
    assert [ReadyForQuery(s.server.tx)][..0] == [];
    DrainToLast(s);
    DrainLaw(s);
  }

  lemma LegReports(cache: map<string, string>, unread: seq<Backend>, o: Outcome)
    requires !o.shape.CopyFromClient?
    ensures Reported(cache, unread + (Statuses(o.reports) + QueryTail(o))) ==
            Reported(cache, unread + Statuses(o.reports))
  {
    Regroup(unread, Statuses(o.reports), QueryTail(o));
    SilentTail(cache, unread + Statuses(o.reports), QueryTail(o));
  }

  /** Every message a client may send keeps the shape; a Sync, a Query to a ready server and the COPY
      messages of a simple COPY leave something in store. */
  lemma WriteShape(c: Conn, phase: Phase, m: Frontend, o: Outcome)
    requires OnlyPipelined(c) && Shape(c, phase) && MaySend(phase, m)
    ensures var d, after := Written(c, m, o), AfterSending(phase, m, o);
            && OnlyPipelined(d) && Shape(d, after)
            && (m.Sync? || (m.Query? && Flushed(c).server.mode.Ready?) ||
                (phase == CopyingIn(false) && Busy(c, phase)) ==>
                  Busy(d, after))
  {
    WrittenPipelined(c, m, o);
    if m.Sync? {
      WriteSync(c, phase, o);
    } else if m.Query? {
      WriteQuery(c, m, o);
    } else if CopyMessage(m) {
      WriteCopy(c, phase, m, o);
    } else if Open(c) {
      WriteInBatch(c, m, o);
    } else {
      WriteFlush(c, o);
    }
  }

  // ---------------------------------------------------------------- reading

  lemma FlushedNext(c: Conn)
    requires c.unread != []
    ensures Flushed(c).unread != [] && Flushed(c).unread[0] == c.unread[0] && Flushed(Next(c)) == Next(Flushed(c))
  {
    var r := ReactAll(c.server, c.fed);
    assert (c.unread + r.replies)[1..] == c.unread[1..] + r.replies;
  }

  lemma ReadOpen(c: Conn)
    requires Open(c) && c.unread != []
    ensures Open(Next(c)) && !c.unread[0].ReadyForQuery? && !c.unread[0].CopyInResponse?
  {
    var f := Flushed(c);
    FlushedNext(c);
    OpenHolds(Next(c), f.unread[1..], f.server);
  }

  lemma ReadOffering(c: Conn)
    requires Offering(c) && c.unread != []
    ensures Offering(Next(c)) && !c.unread[0].ReadyForQuery? && !c.unread[0].CopyInResponse?
  {
    var f := Flushed(c);
    FlushedNext(c);
    assert |f.unread| > 1;
    FrontTail(f.unread);
  }

  lemma FrontTail(ms: seq<Backend>)
    requires |ms| > 1
    ensures ms[1..][..|ms| - 2] == ms[..|ms| - 1][1..]
    ensures ms[..|ms| - 1][0] == ms[0]
  {
  }

  lemma ReadOffer(c: Conn)
    requires Offer(c) && c.fed == [] && c.unread != []
    ensures !c.unread[0].ReadyForQuery? && !c.unread[0].ErrorResponse?
    ensures if c.unread[0].CopyInResponse? then Fetching(Next(c)) else Offer(Next(c))
  {
    if |c.unread| > 1 {
      FrontTail(c.unread);
    }
  }

  lemma ReadAborted(c: Conn)
    requires Aborted(c) && c.fed == []
    ensures c.unread != [] && !c.unread[0].ReadyForQuery? && !c.unread[0].ErrorResponse?
    ensures if c.unread[0].CopyInResponse? then Open(Next(c)) else Aborted(Next(c))
  {
    var u := c.unread;
    var k :| 0 <= k < |u| && OfferAt(u, k) && NoError(u[..k]);
    if k == 0 {
      FlushedNothing(Next(c));
    } else {
      assert u[..k][0] == u[0];
      OfferTail(u, k);
      assert NoError(u[1..][..k - 1]);
    }
  }

  lemma OfferTail(ms: seq<Backend>, k: nat)
    requires OfferAt(ms, k) && k > 0
    ensures OfferAt(ms[1..], k - 1) && ms[1..][..k - 1] == ms[..k][1..] && ms[0] == ms[..k][0]
  {
    assert ms[1..][k..] == ms[k + 1..];
    assert ms[1..][..k - 1] == ms[..k][1..];
  }

  lemma ReadEnding(c: Conn)
    requires Ending(c) && c.fed == []
    ensures !c.unread[0].CopyInResponse?
    ensures if c.unread[0].ReadyForQuery? then AtBoundary(Next(c)) else Ending(Next(c))
  {
    if |c.unread| > 1 {
      FrontTail(c.unread);
    }
  }

  lemma ReadCopyOffered(c: Conn)
    requires CopyOffered(c)
    ensures !c.unread[0].ReadyForQuery?
    ensures if c.unread[0].CopyInResponse? then InCopy(Next(c)) else CopyOffered(Next(c))
  {
    if |c.unread| > 1 {
      FrontTail(c.unread);
    }
  }

  lemma ReadWithdrawn(c: Conn)
    requires Withdrawn(c)
    ensures !c.unread[0].ReadyForQuery?
    ensures if c.unread[0].CopyInResponse? then Ending(Next(c)) else Withdrawn(Next(c))
  {
    var u := c.unread;
    var front := u[..|u| - 1];
    var k :| 0 <= k < |front| && OfferAt(front, k);
    FrontTail(u);
    if k == 0 {
      assert front[1..] == u[1..][..|u| - 2];
    } else {
      OfferTail(front, k);
    }
  }

  /** Reading keeps the shape. A ReadyForQuery reaches only a client that waits for it, and leaves the
      connection between cycles. */
  lemma ReadShape(c: Conn, phase: Phase)
    requires Shape(c, phase) && c.unread != []
    ensures var d, m := Next(c), c.unread[0];
            && (m.ReadyForQuery? ==> AtBoundary(d) && Busy(c, phase) && (phase.Waiting? || phase == CopyingIn(false)))
            && Shape(d, AfterHearing(phase, m))
            && (!m.ReadyForQuery? && Busy(c, phase) && (phase.Waiting? || phase == CopyingIn(false)) ==>
                  Busy(d, AfterHearing(phase, m)) || AfterHearing(phase, m) == CopyingIn(true))
            && (m.CopyInResponse? ==> Busy(c, phase) && (phase.Waiting? || phase.Pending?))
  {
    if Busy(c, phase) {
      if phase.Asking? {
        ReadOffering(c);
      } else {
        ReadBusy(c, phase);
      }
    } else {
      ReadOpen(c);
    }
  }

  lemma BoundaryIsOpen(c: Conn)
    requires AtBoundary(c)
    ensures Open(c)
  {
    FlushedNothing(c);
  }

  lemma ReadBusy(c: Conn, phase: Phase)
    requires Busy(c, phase) && !phase.Asking? && c.unread != []
    ensures var d, m := Next(c), c.unread[0];
            && (m.ReadyForQuery? ==> AtBoundary(d) && Open(d) && (phase.Waiting? || phase == CopyingIn(false)))
            && (!m.ReadyForQuery? ==> Shape(d, AfterHearing(phase, m)))
            && (!m.ReadyForQuery? && (phase.Waiting? || phase == CopyingIn(false)) ==>
                  Busy(d, AfterHearing(phase, m)) || AfterHearing(phase, m) == CopyingIn(true))
            && (m.CopyInResponse? ==> phase.Waiting? || phase.Pending?)
  {
    if Ending(c) && (phase.Waiting? || phase == CopyingIn(false)) {
      ReadEnding(c);
      if c.unread[0].ReadyForQuery? {
        BoundaryIsOpen(Next(c));
      }
    } else if phase == Waiting(false) {
      if CopyOffered(c) {
        ReadCopyOffered(c);
      } else {
        ReadWithdrawn(c);
      }
    } else if phase == Waiting(true) || phase.Pending? {
      if Offer(c) {
        ReadOffer(c);
      } else {
        ReadAborted(c);
      }
    }
  }

  // ---------------------------------------------------------------- cancelling

  lemma CancelIdle(c: Conn, o: Outcome)
    requires !c.server.mode.Copying?
    ensures Cancel(c, o) == c
  {
    assert c.unread + [] == c.unread;
  }

  lemma CancelExtended(c: Conn, o: Outcome)
    requires c.fed == [] && c.server.mode == Copying(true) && (Offer(c) || Fetching(c))
    ensures var d := Cancel(c, o); d.fed == [] && (Offer(c) ==> Aborted(d)) && (Fetching(c) ==> Open(d))
  {
    var d, r := Cancel(c, o), AbortBatch(c.server, o).replies;
    var k := |c.unread| - 1;
    AbortReact(c.server, o);
    if Offer(c) {
      assert d.unread[..k] == c.unread[..k] && d.unread[k + 1..] == r;
      assert OfferAt(d.unread, k) && NoError(d.unread[..k]);
    } else {
      PlainAppend(c.unread, r);
      FlushedNothing(d);
      OpenHolds(d, c.unread + r, d.server);
    }
  }

  lemma CancelSimple(c: Conn, o: Outcome)
    requires c.fed == [] && (CopyOffered(c) || InCopy(c))
    ensures var d := Cancel(c, o); d.fed == [] && (CopyOffered(c) ==> Withdrawn(d)) && (InCopy(c) ==> Ending(d))
  {
    var d, r := Cancel(c, o), AbortBatch(c.server, o).replies;
    var k := |c.unread| - 1;
    AbortReact(c.server, o);
    assert d.unread == (c.unread + r) + [ReadyForQuery(d.server.tx)];
    var front := d.unread[..|d.unread| - 1];
    assert front == c.unread + r;
    if CopyOffered(c) {
      assert front[..k] == c.unread[..k] && front[k + 1..] == r;
      assert OfferAt(front, k);
    } else {
      PlainAppend(c.unread, r);
      EndingHolds(d, front);
    }
  }

  /** A cancel request keeps the shape. Outside a COPY it finds nothing to stop. */
  lemma CancelShape(c: Conn, phase: Phase, o: Outcome)
    requires Shape(c, phase)
    ensures var d := Cancel(c, o);
            && Shape(d, phase) && d.fed == c.fed
            && (Busy(c, phase) && (phase.Waiting? || phase == CopyingIn(false)) ==> Busy(d, phase))
            && (c.server.mode.Copying? ==> Busy(c, phase) && c.fed == [])
            && (!c.server.mode.Copying? ==> d == c)
  {
    if !c.server.mode.Copying? {
      CancelIdle(c, o);
    } else if c.server.mode.extended {
      CancelExtended(c, o);
    } else {
      CancelSimple(c, o);
    }
  }
}

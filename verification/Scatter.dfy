/**
 Scatter-gather: one statement run on several endpoints, their result streams merged into one
 client-visible cycle. Each leg carries what its connection will answer, and the completion order of the
 concurrent legs is a parameter.
 */
module Scatter {
  import opened Protocol
  import Decimal
  import Rows

  /** What a leg's connection yields. */
  datatype Item =
    | Ready
    | Status(name: string)
    | Fault(code: string)
    | Description(schema: nat)
    | Data(bytes: seq<Rows.byte>)
    | Complete(tag: string)
    | Other
    | Broken

  datatype Leg = Leg(endpoint: string, connects: bool, items: seq<Item>)

  datatype Merge = Concat | Sum

  datatype Result = Ok(rows: nat) | Err(code: string, sessionBroken: bool)

  const CONNECTION_FAILURE := "08006"
  const NOT_SUPPORTED := "0A000"

  // ---------------------------------------------------------------- one leg

  /** Where a leg's cycle ends: at ReadyForQuery, at a broken connection, or with the stream. */
  function End(items: seq<Item>): nat
    ensures End(items) <= |items|
  {
    if items == [] || items[0].Ready? || items[0].Broken? then 0 else 1 + End(items[1..])
  }

  function Cycle(leg: Leg): seq<Item> {
    leg.items[..End(leg.items)]
  }

  function RelayedOf(items: seq<Item>): seq<Item> {
    if items == [] then []
    else
      var i := items[|items| - 1];
      RelayedOf(items[..|items| - 1]) + (if i.Description? || i.Data? || i.Complete? || i.Other? then [i] else [])
  }

  function DataOf(items: seq<Item>): seq<Item> {
    if items == [] then []
    else DataOf(items[..|items| - 1]) + (if items[|items| - 1].Data? then [items[|items| - 1]] else [])
  }

  function LastFault(items: seq<Item>): Option<string> {
    if items == [] then None
    else if items[|items| - 1].Fault? then Some(items[|items| - 1].code) else LastFault(items[..|items| - 1])
  }

  /** A parameter change was reported. */
  predicate Reported(items: seq<Item>) {
    items != [] && (Reported(items[..|items| - 1]) || items[|items| - 1].Status?)
  }

  datatype LegOutcome = LegOutcome(messages: seq<Item>, rows: nat, error: Option<string>, dirty: bool, broken: bool)

  function Collected(items: seq<Item>): LegOutcome {
    var cycle := items[..End(items)];
    LegOutcome(RelayedOf(cycle), |DataOf(cycle)|, LastFault(cycle), Reported(cycle),
               !(End(items) < |items| && items[End(items)].Ready?))
  }

  lemma {:induction false} EndStep(items: seq<Item>, k: nat)
    requires k <= |items| && forall i :: 0 <= i < k ==> !items[i].Ready? && !items[i].Broken?
    ensures End(items) == k + End(items[k..])
  {
    if k == 0 {
      assert items[0..] == items;
    } else {
      EndStep(items[1..], k - 1);
      assert items[1..][k - 1..] == items[k..];
    }
  }

  lemma CollectStep(items: seq<Item>, k: nat)
    requires k < |items|
    ensures var i, a, b := items[k], items[..k], items[..k + 1];
            && RelayedOf(b) == RelayedOf(a) + (if i.Description? || i.Data? || i.Complete? || i.Other? then [i] else [])
            && |DataOf(b)| == |DataOf(a)| + (if i.Data? then 1 else 0)
            && LastFault(b) == (if i.Fault? then Some(i.code) else LastFault(a))
            && Reported(b) == (Reported(a) || i.Status?)
  {
    assert items[..k + 1][..k] == items[..k];
  }

  /** Read one leg's cycle to its end. */
  method RunQueryCollect(items: seq<Item>) returns (r: LegOutcome)
    ensures r == Collected(items)
  {
    var messages: seq<Item> := [];
    var rows, error, dirty := 0, None, false;
    var k := 0;
    while k < |items|
      invariant 0 <= k <= |items| && forall i :: 0 <= i < k ==> !items[i].Ready? && !items[i].Broken?
      invariant messages == RelayedOf(items[..k]) && rows == |DataOf(items[..k])|
      invariant error == LastFault(items[..k]) && dirty == Reported(items[..k])
    {
      EndStep(items, k);
      CollectStep(items, k);
      match items[k] {
        case Ready => return LegOutcome(messages, rows, error, dirty, false);
        case Broken => return LegOutcome(messages, rows, error, dirty, true);
        case Status(_) => dirty := true;
        case Fault(code) => error := Some(code);
        case _ =>
          if items[k].Data? {
            rows := rows + 1;
          }
          messages := messages + [items[k]];
      }
      k := k + 1;
    }
    EndStep(items, k);
    r := LegOutcome(messages, rows, error, dirty, true);
  }

  /** A leg on a connection from the pool. */
  function Pooled(leg: Leg): LegOutcome {
    if leg.connects then Collected(leg.items) else LegOutcome([], 0, Some(CONNECTION_FAILURE), false, true)
  }

  predicate Unusable(o: LegOutcome) {
    o.error.Some? || o.broken
  }

  function Blame(o: LegOutcome): string {
    if o.error.Some? then o.error.value else CONNECTION_FAILURE
  }

  // ---------------------------------------------------------------- who runs where

  /** The first leg on the endpoint of the lease the session holds. */
  function SessionLeg(legs: seq<Leg>, held: Option<string>): Option<nat> {
    FirstOn(legs, held, 0)
  }

  function FirstOn(legs: seq<Leg>, held: Option<string>, i: nat): (r: Option<nat>)
    requires i <= |legs|
    ensures r.Some? ==> i <= r.value < |legs| && held == Some(legs[r.value].endpoint)
    decreases |legs| - i
  {
    if i == |legs| then None
    else if held == Some(legs[i].endpoint) then Some(i)
    else FirstOn(legs, held, i + 1)
  }

  function Indices(n: nat): seq<nat> {
    seq(n, i requires 0 <= i < n => i)
  }

  /** All legs but the session's. */
  function Others(n: nat, s: Option<nat>): seq<nat>
    requires s.Some? ==> s.value < n
  {
    if s.None? then Indices(n) else Indices(n)[..s.value] + Indices(n)[s.value + 1..]
  }

  method Partition(legs: seq<Leg>, held: Option<string>) returns (session: Option<nat>, pooled: seq<nat>)
    ensures session == SessionLeg(legs, held)
    ensures pooled == Others(|legs|, session)
  {
    session, pooled := None, [];
    var i := 0;
    while i < |legs|
      invariant 0 <= i <= |legs| && (session.Some? ==> session.value < i)
      invariant SessionLeg(legs, held) == if session.Some? then session else FirstOn(legs, held, i)
      invariant pooled == Others(i, session)
    {
      assert Indices(i + 1) == Indices(i) + [i];
      if held == Some(legs[i].endpoint) && session.None? {
        session := Some(i);
      } else {
        pooled := pooled + [i];
      }
      i := i + 1;
    }
  }

  /** The two groups are together all the legs, each once. */
  lemma EveryLegOnce(n: nat, s: Option<nat>, order: seq<nat>)
    requires s.Some? ==> s.value < n
    requires multiset(order) == multiset(Others(n, s))
    ensures multiset((if s.Some? then [s.value] else []) + order) == multiset(Indices(n))
  {
    if s.Some? {
      assert Indices(n) == Indices(n)[..s.value] + [s.value] + Indices(n)[s.value + 1..];
    } else {
      assert [] + order == order;
    }
  }

  // ---------------------------------------------------------------- collecting

  function FirstFailed(os: seq<LegOutcome>): nat
    ensures FirstFailed(os) <= |os|
  {
    if os == [] || Unusable(os[0]) then 0 else 1 + FirstFailed(os[1..])
  }

  lemma {:induction false} FirstFailedAt(os: seq<LegOutcome>, k: nat)
    requires k <= |os| && forall i :: 0 <= i < k ==> !Unusable(os[i])
    requires k < |os| ==> Unusable(os[k])
    ensures FirstFailed(os) == k
  {
    if k > 0 {
      FirstFailedAt(os[1..], k - 1);
    }
  }

  lemma {:induction false} FirstFailedLaw(os: seq<LegOutcome>)
    ensures forall i :: 0 <= i < FirstFailed(os) ==> !Unusable(os[i])
    ensures FirstFailed(os) < |os| ==> Unusable(os[FirstFailed(os)])
  {
    if os != [] && !Unusable(os[0]) {
      FirstFailedLaw(os[1..]);
      assert forall i :: 0 < i < |os| ==> os[i] == os[1..][i - 1];
    }
  }

  function Completions(legs: seq<Leg>, order: seq<nat>): seq<LegOutcome>
    requires forall i :: 0 <= i < |order| ==> order[i] < |legs|
  {
    seq(|order|, i requires 0 <= i < |order| => Pooled(legs[order[i]]))
  }

  method RunLegPooled(leg: Leg) returns (o: LegOutcome)
    ensures o == Pooled(leg)
  {
    if !leg.connects {
      return LegOutcome([], 0, Some(CONNECTION_FAILURE), false, true);
    }
    o := RunQueryCollect(leg.items);
  }

  /** Take the legs as they complete, until the first failure. */
  method Gather(legs: seq<Leg>, order: seq<nat>) returns (done: seq<LegOutcome>, error: Option<string>)
    requires forall i :: 0 <= i < |order| ==> order[i] < |legs|
    ensures var all := Completions(legs, order);
            var k := FirstFailed(all);
            done == all[..k] && error == if k < |all| then Some(Blame(all[k])) else None
  {
    ghost var all := Completions(legs, order);
    done, error := [], None;
    var i := 0;
    while i < |order|
      invariant 0 <= i <= |order| && done == all[..i]
      invariant forall j :: 0 <= j < i ==> !Unusable(all[j])
    {
      var o := RunLegPooled(legs[order[i]]);
      if o.error.Some? || o.broken {
        FirstFailedAt(all, i);
        error := if o.error.Some? then o.error else Some(CONNECTION_FAILURE);
        return;
      }
      done := done + [o];
      i := i + 1;
    }
    FirstFailedAt(all, i);
  }

  function Flat(sources: seq<seq<Item>>): seq<Item> {
    if sources == [] then [] else Flat(sources[..|sources| - 1]) + sources[|sources| - 1]
  }

  // ---------------------------------------------------------------- merging by concatenation

  predicate Described(ms: seq<Item>) {
    exists i :: 0 <= i < |ms| && ms[i].Description?
  }

  function Concatenated(ms: seq<Item>): seq<Item> {
    if ms == [] then []
    else
      var front, last := ms[..|ms| - 1], ms[|ms| - 1];
      Concatenated(front) + (if last.Data? || (last.Description? && !Described(front)) then [last] else [])
  }

  method MergeConcat(ms: seq<Item>, tag: string, rows: nat) returns (out: seq<Item>)
    ensures out == Concatenated(ms) + [Complete(tag + " " + Decimal.Print(rows))]
  {
    out := [];
    var written := false;
    var k := 0;
    while k < |ms|
      invariant 0 <= k <= |ms| && out == Concatenated(ms[..k]) && written == Described(ms[..k])
    {
      assert ms[..k + 1][..k] == ms[..k] && ms[..k + 1][k] == ms[k];
      if ms[k].Description? {
        if !written {
          written := true;
          out := out + [ms[k]];
        }
      } else if ms[k].Data? {
        out := out + [ms[k]];
      }
      k := k + 1;
    }
    assert ms[..k] == ms;
    out := out + [Complete(tag + " " + Decimal.Print(rows))];
  }

  // ---------------------------------------------------------------- merging by summation

  const HALF := 0x8000_0000_0000_0000_0000_0000_0000_0000
  const WORD := 0x1_0000_0000_0000_0000_0000_0000_0000_0000

  /** Wrap-around of 128-bit signed arithmetic. */
  function I128(n: int): int {
    (n + HALF) % WORD - HALF
  }

  predicate Blank(c: char) {
    c == ' ' || 9 as char <= c <= 13 as char
  }

  function Trim(s: string): string
    decreases |s|
  {
    if s == [] then s
    else if Blank(s[0]) then Trim(s[1..])
    else if Blank(s[|s| - 1]) then Trim(s[..|s| - 1])
    else s
  }

  function Text(b: seq<Rows.byte>): string {
    seq(|b|, i requires 0 <= i < |b| => b[i] as char)
  }

  /** A row with a first column. */
  predicate Readable(b: seq<Rows.byte>) {
    |b| >= 4 && Rows.Decode32(b[..4]) <= |b| - 4
  }

  function FirstColumn(b: seq<Rows.byte>): Option<int>
    requires Readable(b)
  {
    var len := Rows.Decode32(b[..4]);
    if len < 0 then None
    else
      var n := Decimal.ReadSigned(Trim(Text(b[4..4 + len])));
      if n.Some? && -HALF <= n.value < HALF then n else None
  }

  predicate AllReadable(ms: seq<Item>) {
    forall i :: 0 <= i < |ms| && ms[i].Data? ==> Readable(ms[i].bytes)
  }

  predicate Numeric(i: Item) {
    i.Data? ==> Readable(i.bytes) && FirstColumn(i.bytes).Some?
  }

  predicate AllNumeric(ms: seq<Item>) {
    ms == [] || (AllNumeric(ms[..|ms| - 1]) && Numeric(ms[|ms| - 1]))
  }

  function Amount(i: Item): int {
    if i.Data? && Numeric(i) then FirstColumn(i.bytes).value else 0
  }

  /** The sum as an integer, without a bound. */
  function SumOf(ms: seq<Item>): int {
    if ms == [] then 0 else SumOf(ms[..|ms| - 1]) + Amount(ms[|ms| - 1])
  }

  /** The first description, if there is one. */
  function SchemaOf(ms: seq<Item>): Option<Item> {
    if ms == [] then None
    else if SchemaOf(ms[..|ms| - 1]).Some? then SchemaOf(ms[..|ms| - 1])
    else if ms[|ms| - 1].Description? then Some(ms[|ms| - 1]) else None
  }

  function Listed(i: Option<Item>): seq<Item> {
    if i.Some? then [i.value] else []
  }

  predicate Latin(s: string) {
    forall i :: 0 <= i < |s| ==> s[i] as int < 256
  }

  function Bytes(s: string): seq<Rows.byte>
    requires Latin(s)
  {
    seq(|s|, i requires 0 <= i < |s| => s[i] as int as Rows.byte)
  }

  lemma SignedIsLatin(n: int)
    ensures Latin(Decimal.PrintSigned(n))
  {
    Decimal.PrintReadSigned(n);
  }

  function SumRow(total: int): seq<Rows.byte> {
    SignedIsLatin(total);
    var text := Decimal.PrintSigned(total);
    Rows.Encode32(|text|) + Bytes(text)
  }

  lemma WrapStep(a: int, b: int)
    ensures I128(I128(a) + b) == I128(a + b)
  {
    var q := (a + HALF) / WORD;
    assert a + HALF == q * WORD + (a + HALF) % WORD;
    assert I128(a) + b + HALF + q * WORD == a + b + HALF;
    Shift(I128(a) + b + HALF, q);
  }

  lemma Shift(x: int, q: int)
    ensures (x + q * WORD) % WORD == x % WORD
  {
  }

  /** The running total of the merge. */
  function Total(ms: seq<Item>): int {
    if ms == [] then 0
    else if ms[|ms| - 1].Data? then I128(Total(ms[..|ms| - 1]) + Amount(ms[|ms| - 1]))
    else Total(ms[..|ms| - 1])
  }

  lemma TotalStep(ms: seq<Item>, k: nat)
    requires k < |ms|
    ensures Total(ms[..k + 1]) == if ms[k].Data? then I128(Total(ms[..k]) + Amount(ms[k])) else Total(ms[..k])
  {
    assert ms[..k + 1][..k] == ms[..k] && ms[..k + 1][k] == ms[k];
  }

  /** Wrapping at every step or once at the end comes to the same. */
  lemma {:induction false} TotalIsWrappedSum(ms: seq<Item>)
    ensures Total(ms) == I128(SumOf(ms))
  {
    if ms != [] {
      TotalIsWrappedSum(ms[..|ms| - 1]);
      WrapStep(SumOf(ms[..|ms| - 1]), Amount(ms[|ms| - 1]));
    }
  }

  lemma NumericStep(ms: seq<Item>, k: nat)
    requires k < |ms|
    ensures AllNumeric(ms[..k + 1]) == (AllNumeric(ms[..k]) && Numeric(ms[k]))
    ensures AllNumeric(ms) ==> Numeric(ms[k])
    ensures ms[k].Data? || Numeric(ms[k])
  {
    assert ms[..k + 1][..k] == ms[..k];
    if AllNumeric(ms) {
      NumericAt(ms, k);
    }
  }

  lemma {:induction false} NumericAt(ms: seq<Item>, k: nat)
    requires k < |ms| && AllNumeric(ms)
    ensures Numeric(ms[k])
  {
    if k < |ms| - 1 {
      NumericAt(ms[..|ms| - 1], k);
    }
  }

  lemma SchemaStep(ms: seq<Item>, k: nat)
    requires k < |ms|
    ensures SchemaOf(ms[..k + 1]) ==
            if SchemaOf(ms[..k]).None? && ms[k].Description? then Some(ms[k]) else SchemaOf(ms[..k])
  {
    assert ms[..k + 1][..k] == ms[..k] && ms[..k + 1][k] == ms[k];
  }

  /** The merge has taken in `ms`. */
  predicate Tallied(ms: seq<Item>, total: int, schema: Option<Item>) {
    total == Total(ms) && schema == SchemaOf(ms) && AllNumeric(ms)
  }

  /** Add one row to the running total, unless its first column is not a number. */
  method AddRow(total: int, row: Item) returns (sum: int, ok: bool)
    requires row.Data? && Readable(row.bytes)
    ensures ok == Numeric(row) && (ok ==> sum == I128(total + Amount(row)))
  {
    var n := FirstColumn(row.bytes);
    sum, ok := if n.Some? then I128(total + n.value) else total, n.Some?;
  }

  lemma RowTallied(ms: seq<Item>, k: nat, total: int, schema: Option<Item>, sum: int)
    requires k < |ms| && ms[k].Data? && Tallied(ms[..k], total, schema)
    requires Numeric(ms[k]) && sum == I128(total + Amount(ms[k]))
    ensures Tallied(ms[..k + 1], sum, schema)
  {
    TotalStep(ms, k);
    SchemaStep(ms, k);
    NumericStep(ms, k);
  }

  lemma OtherTallied(ms: seq<Item>, k: nat, total: int, schema: Option<Item>)
    requires k < |ms| && !ms[k].Data? && Tallied(ms[..k], total, schema)
    ensures Tallied(ms[..k + 1], total, if schema.None? && ms[k].Description? then Some(ms[k]) else schema)
  {
    TotalStep(ms, k);
    SchemaStep(ms, k);
    NumericStep(ms, k);
  }

  /** Take in one message. */
  method Absorb(ms: seq<Item>, k: nat, total: int, schema: Option<Item>)
    returns (sum: int, seen: Option<Item>, ok: bool)
    requires k < |ms| && AllReadable(ms) && Tallied(ms[..k], total, schema)
    ensures ok == Numeric(ms[k]) && (ok ==> Tallied(ms[..k + 1], sum, seen))
  {
    sum, seen, ok := total, schema, true;
    if ms[k].Data? {
      sum, ok := AddRow(total, ms[k]);
      if ok {
        RowTallied(ms, k, total, schema, sum);
      }
    } else {
      OtherTallied(ms, k, total, schema);
      if ms[k].Description? && schema.None? {
        seen := Some(ms[k]);
      }
    }
  }

  method MergeSum(ms: seq<Item>, tag: string) returns (out: seq<Item>, ok: bool)
    requires AllReadable(ms)
    ensures ok == AllNumeric(ms)
    ensures out == if ok then Listed(SchemaOf(ms)) + [Item.Data(SumRow(Total(ms))), Complete(tag + " 1")] else []
  {
    var total := 0;
    var schema: Option<Item> := None;
    var k := 0;
    while k < |ms|
      invariant 0 <= k <= |ms| && Tallied(ms[..k], total, schema)
    {
      NumericStep(ms, k);
      total, schema, ok := Absorb(ms, k, total, schema);
      if !ok {
        return [], false;
      }
      k := k + 1;
    }
    assert ms[..k] == ms;
    out := if schema.Some? then [schema.value] else [];
    out := out + [Item.Data(SumRow(total))];
    out := out + [Complete(tag + " 1")];
    ok := true;
  }

  // ---------------------------------------------------------------- the whole request

  datatype Request = Request(legs: seq<Leg>, merge: Merge, tag: string)

  predicate Known(legs: seq<Leg>, endpoints: set<string>) {
    forall i :: 0 <= i < |legs| ==> legs[i].endpoint in endpoints
  }

  predicate Within(order: seq<nat>, n: nat) {
    forall i :: 0 <= i < |order| ==> order[i] < n
  }

  /** The pooled legs complete in some order. */
  predicate Completes(legs: seq<Leg>, held: Option<string>, order: seq<nat>) {
    multiset(order) == multiset(Others(|legs|, SessionLeg(legs, held)))
  }

  function Messages(legs: seq<Leg>, order: seq<nat>): seq<seq<Item>>
    requires Within(order, |legs|)
  {
    seq(|order|, i requires 0 <= i < |order| => Pooled(legs[order[i]]).messages)
  }

  /** The streams to merge: the session's leg first, then the pooled legs as they completed. */
  function Sources(legs: seq<Leg>, held: Option<string>, order: seq<nat>): seq<seq<Item>>
    requires Within(order, |legs|)
  {
    var s := SessionLeg(legs, held);
    (if s.Some? then [Collected(legs[s.value].items).messages] else []) + Messages(legs, order)
  }

  /** What the caller is told, and the pooled legs whose connections are checked in. */
  function Verdict(q: Request, endpoints: set<string>, held: Option<string>, order: seq<nat>): (Result, seq<nat>)
    requires Within(order, |q.legs|)
  {
    var done := Completions(q.legs, order);
    var k := FirstFailed(done);
    var s := SessionLeg(q.legs, held);
    var flat := Flat(Sources(q.legs, held, order));
    if !Known(q.legs, endpoints) then (Err(NOT_SUPPORTED, false), [])
    else if k < |done| then (Err(Blame(done[k]), false), order[..k])
    else if s.Some? && Collected(q.legs[s.value].items).broken
      then (Err(Blame(Collected(q.legs[s.value].items)), true), [])
    else if s.Some? && Collected(q.legs[s.value].items).error.Some?
      then (Err(Collected(q.legs[s.value].items).error.value, false), order)
    else if q.merge.Sum? && !AllNumeric(flat) then (Err(NOT_SUPPORTED, false), [])
    else (Ok(if q.merge.Sum? then 1 else |DataOf(flat)|), order)
  }

  /** What the client is sent. */
  function Delivered(q: Request, endpoints: set<string>, held: Option<string>, order: seq<nat>): seq<Item>
    requires Within(order, |q.legs|)
  {
    var flat := Flat(Sources(q.legs, held, order));
    if Verdict(q, endpoints, held, order).0.Err? then [] else Merged(q, flat)
  }

  function Merged(q: Request, flat: seq<Item>): seq<Item> {
    if q.merge.Sum? then Listed(SchemaOf(flat)) + [Item.Data(SumRow(Total(flat))), Complete(q.tag + " 1")]
    else Concatenated(flat) + [Complete(q.tag + " " + Decimal.Print(|DataOf(flat)|))]
  }

  predicate LegsReadable(legs: seq<Leg>) {
    forall i :: 0 <= i < |legs| ==> AllReadable(legs[i].items)
  }

  lemma OrderWithin(legs: seq<Leg>, held: Option<string>, order: seq<nat>)
    requires Completes(legs, held, order)
    ensures Within(order, |legs|)
  {
    forall i | 0 <= i < |order| ensures order[i] < |legs| {
      assert order[i] in multiset(order);
      assert order[i] in Others(|legs|, SessionLeg(legs, held));
    }
  }

  lemma {:induction false} FlatAppend(a: seq<seq<Item>>, b: seq<seq<Item>>)
    ensures Flat(a + b) == Flat(a) + Flat(b)
  {
    if b == [] {
      assert a + b == a;
    } else {
      assert (a + b)[..|a + b| - 1] == a + b[..|b| - 1];
      FlatAppend(a, b[..|b| - 1]);
    }
  }

  lemma {:induction false} DataAppend(a: seq<Item>, b: seq<Item>)
    ensures DataOf(a + b) == DataOf(a) + DataOf(b)
  {
    if b == [] {
      assert a + b == a;
    } else {
      assert (a + b)[..|a + b| - 1] == a + b[..|b| - 1];
      DataAppend(a, b[..|b| - 1]);
    }
  }

  /** Collecting keeps every row, in order. */
  lemma {:induction false} RelayedData(items: seq<Item>)
    ensures DataOf(RelayedOf(items)) == DataOf(items)
    ensures AllReadable(items) ==> AllReadable(RelayedOf(items))
  {
    if items != [] {
      var front, last := items[..|items| - 1], items[|items| - 1];
      RelayedData(front);
      if AllReadable(items) {
        assert forall i :: 0 <= i < |front| ==> front[i] == items[i];
      }
      assert RelayedOf(items) == RelayedOf(front) + RelayedOf(items)[|RelayedOf(front)|..];
      if last.Data? {
        assert RelayedOf(items)[..|RelayedOf(items)| - 1] == RelayedOf(front);
      } else if RelayedOf(items) != RelayedOf(front) {
        assert RelayedOf(items)[..|RelayedOf(items)| - 1] == RelayedOf(front);
      }
    }
  }

  lemma {:induction false} FlatReadable(sources: seq<seq<Item>>)
    requires forall i :: 0 <= i < |sources| ==> AllReadable(sources[i])
    ensures AllReadable(Flat(sources))
  {
    if sources != [] {
      FlatReadable(sources[..|sources| - 1]);
    }
  }

  lemma SourcesReadable(legs: seq<Leg>, held: Option<string>, order: seq<nat>)
    requires Within(order, |legs|) && LegsReadable(legs)
    ensures AllReadable(Flat(Sources(legs, held, order)))
  {
    forall i | 0 <= i < |legs|
      ensures AllReadable(Collected(legs[i].items).messages) && AllReadable(Pooled(legs[i]).messages)
    {
      RelayedData(Cycle(legs[i]));
    }
    FlatReadable(Sources(legs, held, order));
  }

  /** Rows counted leg by leg. */
  lemma {:induction false} RowsAdd(legs: seq<Leg>, order: seq<nat>)
    requires Within(order, |legs|)
    ensures RowCount(Completions(legs, order)) == |DataOf(Flat(Messages(legs, order)))|
  {
    if order != [] {
      var front := order[..|order| - 1];
      RowsAdd(legs, front);
      var leg := legs[order[|order| - 1]];
      assert Completions(legs, order)[..|order| - 1] == Completions(legs, front);
      assert Messages(legs, order)[..|order| - 1] == Messages(legs, front);
      DataAppend(Flat(Messages(legs, front)), Pooled(leg).messages);
      RelayedData(Cycle(leg));
    }
  }

  function RowCount(os: seq<LegOutcome>): nat {
    if os == [] then 0 else RowCount(os[..|os| - 1]) + os[|os| - 1].rows
  }

  method Validate(legs: seq<Leg>, endpoints: set<string>) returns (ok: bool)
    ensures ok == Known(legs, endpoints)
  {
    var i := 0;
    while i < |legs|
      invariant 0 <= i <= |legs| && forall j :: 0 <= j < i ==> legs[j].endpoint in endpoints
    {
      if legs[i].endpoint !in endpoints {
        return false;
      }
      i := i + 1;
    }
    ok := true;
  }

  function MessagesOf(os: seq<LegOutcome>): seq<seq<Item>> {
    seq(|os|, i requires 0 <= i < |os| => os[i].messages)
  }

  lemma AssembleStep(done: seq<LegOutcome>, i: nat)
    requires i < |done|
    ensures Flat(MessagesOf(done[..i + 1])) == Flat(MessagesOf(done[..i])) + done[i].messages
    ensures RowCount(done[..i + 1]) == RowCount(done[..i]) + done[i].rows
  {
    assert done[..i + 1][..i] == done[..i] && MessagesOf(done[..i + 1])[..i] == MessagesOf(done[..i]);
  }

  /** Put the streams in line, and count the rows the legs reported. */
  method Assemble(session: Option<LegOutcome>, done: seq<LegOutcome>) returns (flat: seq<Item>, rows: nat)
    ensures flat == (if session.Some? then session.value.messages else []) + Flat(MessagesOf(done))
    ensures rows == (if session.Some? then session.value.rows else 0) + RowCount(done)
  {
    flat, rows := [], 0;
    if session.Some? {
      rows := rows + session.value.rows;
      flat := flat + session.value.messages;
    }
    ghost var first, firstRows := flat, rows;
    assert first == first + Flat(MessagesOf(done[..0]));
    var i := 0;
    while i < |done|
      invariant 0 <= i <= |done| && flat == first + Flat(MessagesOf(done[..i]))
      invariant rows == firstRows + RowCount(done[..i])
    {
      AssembleStep(done, i);
      Regroup(first, Flat(MessagesOf(done[..i])), done[i].messages);
      rows := rows + done[i].rows;
      flat := flat + done[i].messages;
      i := i + 1;
    }
    assert done[..i] == done;
  }

  lemma AssembledIsSources(legs: seq<Leg>, held: Option<string>, order: seq<nat>)
    requires Within(order, |legs|)
    ensures var s := SessionLeg(legs, held);
            var all := Completions(legs, order);
            && Flat(Sources(legs, held, order)) ==
               (if s.Some? then Collected(legs[s.value].items).messages else []) + Flat(MessagesOf(all))
            && |DataOf(Flat(Sources(legs, held, order)))| ==
               (if s.Some? then Collected(legs[s.value].items).rows else 0) + RowCount(all)
  {
    var s := SessionLeg(legs, held);
    assert MessagesOf(Completions(legs, order)) == Messages(legs, order);
    RowsAdd(legs, order);
    if s.Some? {
      FlatCons(Collected(legs[s.value].items).messages, Messages(legs, order));
      RelayedData(Cycle(legs[s.value]));
      DataAppend(Collected(legs[s.value].items).messages, Flat(Messages(legs, order)));
    } else {
      assert [] + Messages(legs, order) == Messages(legs, order);
    }
  }

  lemma FlatCons(a: seq<Item>, b: seq<seq<Item>>)
    ensures Flat([a] + b) == a + Flat(b)
  {
    FlatAppend([a], b);
    assert [a][..0] == [];
  }

  /** Run a request: nothing is sent before every leg has been collected and the merge is known to work. */
  method ExecuteScatter(q: Request, endpoints: set<string>, held: Option<string>, order: seq<nat>)
    returns (out: seq<Item>, result: Result, returned: seq<nat>)
    requires Completes(q.legs, held, order) && Within(order, |q.legs|) && (q.merge.Sum? ==> LegsReadable(q.legs))
    ensures (result, returned) == Verdict(q, endpoints, held, order)
    ensures out == Delivered(q, endpoints, held, order)
  {
    out, returned := [], [];
    var known := Validate(q.legs, endpoints);
    if !known {
      return [], Err(NOT_SUPPORTED, false), [];
    }
    var session, _ := Partition(q.legs, held);
    var done, error := Gather(q.legs, order);
    var own: Option<LegOutcome> := None;
    if error.None? && session.Some? {
      var o := RunQueryCollect(q.legs[session.value].items);
      if o.broken {
        return [], Err(if o.error.Some? then o.error.value else CONNECTION_FAILURE, true), [];
      }
      own := Some(o);
      error := o.error;
    }
    returned := order[..|done|];
    assert |done| == |order| ==> returned == order;
    if error.Some? {
      return [], Err(error.value, false), returned;
    }
    assert done == Completions(q.legs, order);
    AssembledIsSources(q.legs, held, order);
    if q.merge.Sum? {
      SourcesReadable(q.legs, held, order);
    }
    var flat, rows := Assemble(own, done);
    out, result := MergeSources(q, flat, rows);
    if result.Err? {
      returned := [];
    }
  }

  method MergeSources(q: Request, flat: seq<Item>, rows: nat) returns (out: seq<Item>, result: Result)
    requires (q.merge.Sum? ==> AllReadable(flat)) && rows == |DataOf(flat)|
    ensures result.Err? == (q.merge.Sum? && !AllNumeric(flat))
    ensures result == if result.Err? then Err(NOT_SUPPORTED, false) else Ok(if q.merge.Sum? then 1 else rows)
    ensures out == if result.Err? then [] else Merged(q, flat)
  {
    if q.merge.Concat? {
      out := MergeConcat(flat, q.tag, rows);
      result := Ok(rows);
    } else {
      var ok;
      out, ok := MergeSum(flat, q.tag);
      result := if ok then Ok(1) else Err(NOT_SUPPORTED, false);
    }
  }
}

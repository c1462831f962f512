/** What a scattered request means to the client, whatever order its legs complete in. */
module ScatterLaws {
  import opened Protocol
  import opened Scatter
  import Decimal
  import Rows

  // ---------------------------------------------------------------- sums over a permutation

  function Added<T>(s: seq<T>, f: T -> int): int {
    if s == [] then 0 else Added(s[..|s| - 1], f) + f(s[|s| - 1])
  }

  lemma {:induction false} AddedWithout<T>(s: seq<T>, j: nat, f: T -> int)
    requires j < |s|
    ensures Added(s, f) == Added(s[..j] + s[j + 1..], f) + f(s[j])
  {
    var last := |s| - 1;
    if j == last {
      assert s[..j] + s[j + 1..] == s[..last];
    } else {
      AddedWithout(s[..last], j, f);
      var rest := s[..j] + s[j + 1..];
      assert rest[..|rest| - 1] == s[..last][..j] + s[..last][j + 1..];
    }
  }

  lemma {:induction false} AddedPermuted<T>(a: seq<T>, b: seq<T>, f: T -> int)
    requires multiset(a) == multiset(b)
    ensures Added(a, f) == Added(b, f)
  {
    if a == [] {
      assert |multiset(b)| == 0;
    } else {
      var x := a[|a| - 1];
      var j := LastElsewhere(a, b);
      AddedPermuted(a[..|a| - 1], b[..j] + b[j + 1..], f);
      AddedWithout(b, j, f);
    }
  }

  /** The last element of `a` is somewhere in `b`, and without it the rest is a permutation again. */
  lemma LastElsewhere<T>(a: seq<T>, b: seq<T>) returns (j: nat)
    requires a != [] && multiset(a) == multiset(b)
    ensures j < |b| && b[j] == a[|a| - 1]
    ensures multiset(a[..|a| - 1]) == multiset(b[..j] + b[j + 1..])
  {
    var x := a[|a| - 1];
    assert a == a[..|a| - 1] + [x];
    assert x in multiset(b);
    j :| 0 <= j < |b| && b[j] == x;
    assert b == b[..j] + [x] + b[j + 1..];
    Cancel(multiset(a[..|a| - 1]), multiset(b[..j] + b[j + 1..]), x);
  }

  lemma Cancel<T>(m: multiset<T>, n: multiset<T>, x: T)
    requires m + multiset{x} == n + multiset{x}
    ensures m == n
  {
    assert m == (m + multiset{x}) - multiset{x};
    assert n == (n + multiset{x}) - multiset{x};
  }

  // ---------------------------------------------------------------- legs by number

  /** A leg that will fail wherever it runs; one on the session's own lease needs no connection. */
  predicate Fails(leg: Leg, own: bool) {
    Unusable(if own then Collected(leg.items) else Pooled(leg))
  }

  predicate AllHealthy(legs: seq<Leg>, s: Option<nat>) {
    forall i :: 0 <= i < |legs| ==> !Fails(legs[i], s == Some(i))
  }

  /** The legs in the order their streams are merged. */
  function Line(legs: seq<Leg>, held: Option<string>, order: seq<nat>): seq<nat> {
    var s := SessionLeg(legs, held);
    (if s.Some? then [s.value] else []) + order
  }

  function Streams(legs: seq<Leg>, line: seq<nat>): seq<seq<Item>>
    requires Within(line, |legs|)
  {
    seq(|line|, i requires 0 <= i < |line| => RelayedOf(Cycle(legs[line[i]])))
  }

  function LegRows(legs: seq<Leg>, line: seq<nat>): seq<seq<Item>>
    requires Within(line, |legs|)
  {
    seq(|line|, i requires 0 <= i < |line| => DataOf(Cycle(legs[line[i]])))
  }

  /** How often leg `i` returned the row `x`. */
  function Copies(legs: seq<Leg>, x: Item): nat -> int {
    (i: nat) => if i < |legs| then multiset(DataOf(Cycle(legs[i])))[x] else 0
  }

  function Amounts(legs: seq<Leg>): nat -> int {
    (i: nat) => if i < |legs| then SumOf(Cycle(legs[i])) else 0
  }

  lemma LineIsAll(legs: seq<Leg>, held: Option<string>, order: seq<nat>)
    requires Completes(legs, held, order)
    ensures Within(order, |legs|) && Within(Line(legs, held, order), |legs|)
    ensures multiset(Line(legs, held, order)) == multiset(Indices(|legs|))
  {
    OrderWithin(legs, held, order);
    EveryLegOnce(|legs|, SessionLeg(legs, held), order);
  }

  /** Every leg is in line. */
  lemma InLine(legs: seq<Leg>, held: Option<string>, order: seq<nat>, i: nat) returns (k: nat)
    requires Completes(legs, held, order) && i < |legs|
    ensures k < |Line(legs, held, order)| && Line(legs, held, order)[k] == i
  {
    LineIsAll(legs, held, order);
    assert Indices(|legs|)[i] == i;
    assert i in multiset(Indices(|legs|));
    assert i in Line(legs, held, order);
    k :| k < |Line(legs, held, order)| && Line(legs, held, order)[k] == i;
  }

  /** A pooled leg is not the session's. */
  lemma PooledIsOther(legs: seq<Leg>, held: Option<string>, order: seq<nat>, k: nat)
    requires Completes(legs, held, order) && k < |order|
    ensures order[k] < |legs| && SessionLeg(legs, held) != Some(order[k])
  {
    var s := SessionLeg(legs, held);
    assert order[k] in multiset(order);
    assert order[k] in Others(|legs|, s);
  }

  /** No pooled leg and not the session's failing is the same as no leg failing. */
  lemma HealthyExactly(legs: seq<Leg>, held: Option<string>, order: seq<nat>)
    requires Completes(legs, held, order) && Within(order, |legs|)
    ensures var s := SessionLeg(legs, held);
            AllHealthy(legs, s) <==>
            && FirstFailed(Completions(legs, order)) == |order|
            && (s.Some? ==> !Unusable(Collected(legs[s.value].items)))
  {
    var s := SessionLeg(legs, held);
    var all := Completions(legs, order);
    FirstFailedLaw(all);
    forall k | 0 <= k < |order|
      ensures s != Some(order[k]) && (Unusable(all[k]) <==> Fails(legs[order[k]], s == Some(order[k])))
    {
      PooledIsOther(legs, held, order, k);
    }
    if FirstFailed(all) == |order| && (s.Some? ==> !Unusable(Collected(legs[s.value].items))) {
      forall i | 0 <= i < |legs| ensures !Fails(legs[i], s == Some(i)) {
        var k := InLine(legs, held, order, i);
        if s != Some(i) {
          var j := if s.Some? then k - 1 else k;
          assert order[j] == i && !Unusable(all[j]);
        }
      }
    }
  }

  lemma HealthyMessages(legs: seq<Leg>, held: Option<string>, order: seq<nat>)
    requires Completes(legs, held, order) && Within(order, |legs|) && AllHealthy(legs, SessionLeg(legs, held))
    ensures Messages(legs, order) == Streams(legs, order)
  {
    forall k | 0 <= k < |order| ensures Messages(legs, order)[k] == RelayedOf(Cycle(legs[order[k]])) {
      PooledIsOther(legs, held, order, k);
      assert !Fails(legs[order[k]], false);
    }
  }

  lemma StreamsCons(legs: seq<Leg>, i: nat, order: seq<nat>)
    requires Within(order, |legs|) && i < |legs|
    ensures Within([i] + order, |legs|)
    ensures Streams(legs, [i] + order) == [RelayedOf(Cycle(legs[i]))] + Streams(legs, order)
  {
  }

  lemma HealthySources(legs: seq<Leg>, held: Option<string>, order: seq<nat>)
    requires Completes(legs, held, order) && AllHealthy(legs, SessionLeg(legs, held))
    ensures Within(order, |legs|) && Within(Line(legs, held, order), |legs|)
    ensures Sources(legs, held, order) == Streams(legs, Line(legs, held, order))
  {
    var s := SessionLeg(legs, held);
    LineIsAll(legs, held, order);
    HealthyMessages(legs, held, order);
    if s.Some? {
      StreamsCons(legs, s.value, order);
    } else {
      assert [] + order == order && [] + Streams(legs, order) == Streams(legs, order);
    }
  }

  // ---------------------------------------------------------------- rows and sums of a line

  lemma {:induction false} LineRows(legs: seq<Leg>, line: seq<nat>)
    requires Within(line, |legs|)
    ensures DataOf(Flat(Streams(legs, line))) == Flat(LegRows(legs, line))
  {
    if line != [] {
      var front, leg := line[..|line| - 1], legs[line[|line| - 1]];
      LineRows(legs, front);
      assert Streams(legs, line)[..|line| - 1] == Streams(legs, front);
      assert LegRows(legs, line)[..|line| - 1] == LegRows(legs, front);
      DataAppend(Flat(Streams(legs, front)), RelayedOf(Cycle(leg)));
      RelayedData(Cycle(leg));
    }
  }

  lemma {:induction false} LineCopies(legs: seq<Leg>, line: seq<nat>, x: Item)
    requires Within(line, |legs|)
    ensures multiset(Flat(LegRows(legs, line)))[x] == Added(line, Copies(legs, x))
  {
    if line != [] {
      var front := line[..|line| - 1];
      LineCopies(legs, front, x);
      assert LegRows(legs, line)[..|line| - 1] == LegRows(legs, front);
    }
  }

  lemma {:induction false} SumAppend(a: seq<Item>, b: seq<Item>)
    ensures SumOf(a + b) == SumOf(a) + SumOf(b)
  {
    if b == [] {
      assert a + b == a;
    } else {
      assert (a + b)[..|a + b| - 1] == a + b[..|b| - 1];
      SumAppend(a, b[..|b| - 1]);
    }
  }

  lemma {:induction false} RelayedSum(items: seq<Item>)
    ensures SumOf(RelayedOf(items)) == SumOf(items)
  {
    if items != [] {
      var front := items[..|items| - 1];
      RelayedSum(front);
      SumAppend(RelayedOf(front), RelayedOf(items)[|RelayedOf(front)|..]);
      var tail := RelayedOf(items)[|RelayedOf(front)|..];
      assert RelayedOf(items) == RelayedOf(front) + tail;
      assert tail == [] || (tail == [items[|items| - 1]] && tail[..0] == []);
    }
  }

  lemma {:induction false} LineSum(legs: seq<Leg>, line: seq<nat>)
    requires Within(line, |legs|)
    ensures SumOf(Flat(Streams(legs, line))) == Added(line, Amounts(legs))
  {
    if line != [] {
      var front, leg := line[..|line| - 1], legs[line[|line| - 1]];
      LineSum(legs, front);
      assert Streams(legs, line)[..|line| - 1] == Streams(legs, front);
      SumAppend(Flat(Streams(legs, front)), RelayedOf(Cycle(leg)));
      RelayedSum(Cycle(leg));
    }
  }

  // ---------------------------------------------------------------- concatenation

  function DescriptionsOf(ms: seq<Item>): seq<Item> {
    if ms == [] then []
    else DescriptionsOf(ms[..|ms| - 1]) + (if ms[|ms| - 1].Description? then [ms[|ms| - 1]] else [])
  }

  lemma {:induction false} DescriptionsAppend(a: seq<Item>, b: seq<Item>)
    ensures DescriptionsOf(a + b) == DescriptionsOf(a) + DescriptionsOf(b)
  {
    if b == [] {
      assert a + b == a;
    } else {
      assert (a + b)[..|a + b| - 1] == a + b[..|b| - 1];
      DescriptionsAppend(a, b[..|b| - 1]);
    }
  }

  lemma Single(i: Item)
    ensures DataOf([i]) == (if i.Data? then [i] else [])
    ensures DescriptionsOf([i]) == (if i.Description? then [i] else [])
  {
    assert [i][..0] == [];
  }

  lemma {:induction false} ConcatenatedLaw(ms: seq<Item>)
    ensures DataOf(Concatenated(ms)) == DataOf(ms)
    ensures |DescriptionsOf(Concatenated(ms))| == if Described(ms) then 1 else 0
    ensures |Concatenated(ms)| == |DataOf(ms)| + |DescriptionsOf(Concatenated(ms))|
  {
    if ms != [] {
      var front, last := ms[..|ms| - 1], ms[|ms| - 1];
      ConcatenatedLaw(front);
      DescribedStep(ms);
      DataAppend(Concatenated(front), [last]);
      DescriptionsAppend(Concatenated(front), [last]);
      Single(last);
      assert Concatenated(front) + [] == Concatenated(front);
    }
  }

  predicate FirstDescription(ms: seq<Item>, k: nat) {
    k < |ms| && ms[k].Description? && forall i :: 0 <= i < k ==> !ms[i].Description?
  }

  predicate DescriptionKept(ms: seq<Item>, out: seq<Item>) {
    forall k :: 0 <= k < |ms| && FirstDescription(ms, k) ==>
      |DataOf(ms[..k])| < |out| && out[|DataOf(ms[..k])|] == ms[k]
  }

  /** The first description is the one that is kept, and it stands behind the rows it stood behind; one
      that opens the first stream opens the result. */
  lemma {:induction false} DescriptionStands(ms: seq<Item>, k: nat)
    requires FirstDescription(ms, k)
    ensures |DataOf(ms[..k])| < |Concatenated(ms)| && Concatenated(ms)[|DataOf(ms[..k])|] == ms[k]
  {
    var front := ms[..|ms| - 1];
    if k == |ms| - 1 {
      ConcatenatedLaw(front);
      assert !Described(front);
    } else {
      assert front[..k] == ms[..k];
      DescriptionStands(front, k);
    }
  }

  lemma DescribedStep(ms: seq<Item>)
    requires ms != []
    ensures Described(ms) <==> Described(ms[..|ms| - 1]) || ms[|ms| - 1].Description?
  {
    var front := ms[..|ms| - 1];
    assert forall i :: 0 <= i < |front| ==> front[i] == ms[i];
  }

  lemma ConcatOutput(flat: seq<Item>, complete: Item)
    requires complete.Complete?
    ensures var out := Concatenated(flat) + [complete];
            && DataOf(out) == DataOf(flat) && |DescriptionsOf(out)| <= 1
            && |out| == |DataOf(out)| + |DescriptionsOf(out)| + 1
            && DescriptionKept(flat, out)
  {
    forall k: nat | FirstDescription(flat, k)
      ensures |DataOf(flat[..k])| < |Concatenated(flat)| && Concatenated(flat)[|DataOf(flat[..k])|] == flat[k]
    {
      DescriptionStands(flat, k);
    }
    ConcatenatedLaw(flat);
    DataAppend(Concatenated(flat), [complete]);
    DescriptionsAppend(Concatenated(flat), [complete]);
    Single(complete);
  }

  /** Whatever the order of the line, every row is there as often as the legs returned it. */
  lemma LineBag(legs: seq<Leg>, line: seq<nat>, x: Item)
    requires Within(line, |legs|) && multiset(line) == multiset(Indices(|legs|))
    ensures multiset(Flat(LegRows(legs, line)))[x] == Added(Indices(|legs|), Copies(legs, x))
  {
    LineCopies(legs, line, x);
    AddedPermuted(line, Indices(|legs|), Copies(legs, x));
  }

  /** The rows of a successful request, leg by leg. */
  lemma SuccessRows(q: Request, endpoints: set<string>, held: Option<string>, order: seq<nat>)
    requires Completes(q.legs, held, order) && Within(order, |q.legs|)
    requires Verdict(q, endpoints, held, order).0.Ok?
    ensures var line := Line(q.legs, held, order);
            && Within(line, |q.legs|) && multiset(line) == multiset(Indices(|q.legs|))
            && Sources(q.legs, held, order) == Streams(q.legs, line)
            && DataOf(Flat(Sources(q.legs, held, order))) == Flat(LegRows(q.legs, line))
  {
    HealthyExactly(q.legs, held, order);
    HealthySources(q.legs, held, order);
    LineIsAll(q.legs, held, order);
    LineRows(q.legs, Line(q.legs, held, order));
  }

  lemma ConcatDelivers(q: Request, endpoints: set<string>, held: Option<string>, order: seq<nat>)
    requires Within(order, |q.legs|) && q.merge.Concat? && Verdict(q, endpoints, held, order).0.Ok?
    ensures var flat := Flat(Sources(q.legs, held, order));
            && Delivered(q, endpoints, held, order) ==
               Concatenated(flat) + [Complete(q.tag + " " + Decimal.Print(|DataOf(flat)|))]
            && Verdict(q, endpoints, held, order).0 == Ok(|DataOf(flat)|)
  {
  }

  /** Concat, for every completion order: the rows sent are the legs' rows, each leg's together and in
      order; the first description of the legs is sent, where it stood among the rows, and no other; the
      tag counts the rows sent. */
  lemma ConcatMerges(q: Request, endpoints: set<string>, held: Option<string>, order: seq<nat>)
    requires Completes(q.legs, held, order) && Within(order, |q.legs|)
    requires q.merge.Concat? && Verdict(q, endpoints, held, order).0.Ok?
    ensures var out := Delivered(q, endpoints, held, order);
            var line := Line(q.legs, held, order);
            && Within(line, |q.legs|)
            && DataOf(out) == Flat(LegRows(q.legs, line)) && |DescriptionsOf(out)| <= 1
            && |out| == |DataOf(out)| + |DescriptionsOf(out)| + 1
            && DescriptionKept(Flat(Streams(q.legs, line)), out)
            && out[|out| - 1] == Complete(q.tag + " " + Decimal.Print(|DataOf(out)|))
            && Verdict(q, endpoints, held, order).0 == Ok(|DataOf(out)|)
  {
    var flat := Flat(Sources(q.legs, held, order));
    SuccessRows(q, endpoints, held, order);
    ConcatDelivers(q, endpoints, held, order);
    ConcatOutput(flat, Complete(q.tag + " " + Decimal.Print(|DataOf(flat)|)));
  }

  /** Concat, for every completion order: every row is sent as often as all the legs together returned it. */
  lemma ConcatKeepsRows(q: Request, endpoints: set<string>, held: Option<string>, order: seq<nat>, x: Item)
    requires Completes(q.legs, held, order) && Within(order, |q.legs|)
    requires q.merge.Concat? && Verdict(q, endpoints, held, order).0.Ok?
    ensures multiset(DataOf(Delivered(q, endpoints, held, order)))[x] == Added(Indices(|q.legs|), Copies(q.legs, x))
  {
    ConcatMerges(q, endpoints, held, order);
    LineIsAll(q.legs, held, order);
    LineBag(q.legs, Line(q.legs, held, order), x);
  }

  // ---------------------------------------------------------------- summation

  lemma {:induction false} TrimDigits(s: string)
    requires forall i :: 0 <= i < |s| ==> Decimal.IsDigit(s[i]) || s[i] == '-'
    ensures Trim(s) == s
  {
    if s != [] {
      assert !Blank(s[0]) && !Blank(s[|s| - 1]);
    }
  }

  function Pow10(k: nat): nat {
    if k == 0 then 1 else 10 * Pow10(k - 1)
  }

  lemma TimesTen(x: nat, y: nat)
    ensures 10 * (x * y) == 10 * x * y
  {
  }

  lemma {:induction false} Pow10Add(a: nat, b: nat)
    ensures Pow10(a + b) == Pow10(a) * Pow10(b)
  {
    if a > 0 {
      Pow10Add(a - 1, b);
      TimesTen(Pow10(a - 1), Pow10(b));
    }
  }

  lemma {:induction false} PrintShort(n: nat, k: nat)
    requires 0 < k && n < Pow10(k)
    ensures |Decimal.Print(n)| <= k
  {
    if n >= 10 {
      assert k > 1;
      PrintShort(n / 10, k - 1);
    }
  }

  lemma SignedIsShort(total: int)
    requires -HALF <= total < HALF
    ensures |Decimal.PrintSigned(total)| <= 41
  {
    assert Pow10(10) == 1_00000_00000;
    Pow10Add(10, 10);
    Pow10Add(20, 20);
    PrintShort(if total < 0 then -total else total, 40);
  }

  lemma BytesText(s: string)
    requires Latin(s)
    ensures Text(Bytes(s)) == s
  {
  }

  lemma PrefixedReads(s: string, n: int)
    requires Latin(s) && |s| <= 41 && Trim(s) == s && Decimal.ReadSigned(s) == Some(n) && -HALF <= n < HALF
    ensures var row := Rows.Encode32(|s|) + Bytes(s); Readable(row) && FirstColumn(row) == Some(n)
  {
    var row := Rows.Encode32(|s|) + Bytes(s);
    Rows.PrefixRoundTrip(|s|);
    assert row[..4] == Rows.Encode32(|s|);
    assert row[4..4 + |s|] == Bytes(s);
    BytesText(s);
  }

  /** The merged row reads back as the total. */
  lemma SumRowReads(total: int)
    requires -HALF <= total < HALF
    ensures Readable(SumRow(total)) && FirstColumn(SumRow(total)) == Some(total)
  {
    var text := Decimal.PrintSigned(total);
    Decimal.PrintReadSigned(total);
    SignedIsShort(total);
    SignedIsLatin(total);
    TrimDigits(text);
    PrefixedReads(text, total);
  }

  lemma I128Range(n: int)
    ensures -HALF <= I128(n) < HALF
    ensures I128(n) == n <==> -HALF <= n < HALF
  {
  }

  /** Sum, for every completion order: one row, which reads as the sum over all legs, exactly when that sum
      is a signed 128-bit number. */
  lemma SumMerges(q: Request, endpoints: set<string>, held: Option<string>, order: seq<nat>)
    requires Completes(q.legs, held, order) && Within(order, |q.legs|)
    requires q.merge.Sum? && Verdict(q, endpoints, held, order).0.Ok?
    ensures var out := Delivered(q, endpoints, held, order);
            var sum := Added(Indices(|q.legs|), Amounts(q.legs));
            && Verdict(q, endpoints, held, order).0 == Ok(1)
            && DataOf(out) == [Item.Data(SumRow(I128(sum)))] && |DescriptionsOf(out)| <= 1
            && out[|out| - 1] == Complete(q.tag + " 1")
            && Readable(SumRow(I128(sum))) && FirstColumn(SumRow(I128(sum))) == Some(I128(sum))
            && (I128(sum) == sum <==> -HALF <= sum < HALF)
  {
    var line, flat := Line(q.legs, held, order), Flat(Sources(q.legs, held, order));
    SuccessRows(q, endpoints, held, order);
    LineSum(q.legs, line);
    AddedPermuted(line, Indices(|q.legs|), Amounts(q.legs));
    TotalIsWrappedSum(flat);
    var sum := Added(Indices(|q.legs|), Amounts(q.legs));
    assert Total(flat) == I128(sum);
    I128Range(sum);
    SumRowReads(I128(sum));
    SchemaIsDescription(flat);
    SumOutput(SchemaOf(flat), Item.Data(SumRow(I128(sum))), Complete(q.tag + " 1"));
  }

  lemma {:induction false} SchemaIsDescription(ms: seq<Item>)
    ensures SchemaOf(ms).Some? ==> SchemaOf(ms).value.Description?
  {
    if ms != [] {
      SchemaIsDescription(ms[..|ms| - 1]);
    }
  }

  lemma SumOutput(schema: Option<Item>, row: Item, complete: Item)
    requires row.Data? && complete.Complete? && (schema.Some? ==> schema.value.Description?)
    ensures var out := Listed(schema) + [row, complete];
            DataOf(out) == [row] && |DescriptionsOf(out)| <= 1
  {
    assert [row, complete] == [row] + [complete];
    DataAppend(Listed(schema), [row, complete]);
    DataAppend([row], [complete]);
    DescriptionsAppend(Listed(schema), [row, complete]);
    DescriptionsAppend([row], [complete]);
    Single(row);
    Single(complete);
    if schema.Some? {
      Single(schema.value);
    }
  }

  const LONG := 0x8000_0000_0000_0000

  /** Up to 2^63 rows of 64-bit values never overflow, at no point of the summation. */
  lemma {:induction false} SumFits(ms: seq<Item>)
    requires forall i :: 0 <= i < |ms| ==> -LONG <= Amount(ms[i]) < LONG
    requires |DataOf(ms)| <= LONG
    ensures -LONG * |DataOf(ms)| <= SumOf(ms) <= LONG * |DataOf(ms)|
    ensures -HALF <= SumOf(ms) < HALF && Total(ms) == SumOf(ms)
  {
    TotalIsWrappedSum(ms);
    if ms != [] {
      SumFits(ms[..|ms| - 1]);
    }
  }

  // ---------------------------------------------------------------- success and clean-up

  lemma {:induction false} RelayedNumeric(items: seq<Item>)
    ensures AllNumeric(RelayedOf(items)) <==> AllNumeric(items)
  {
    if items != [] {
      var front, last := items[..|items| - 1], items[|items| - 1];
      RelayedNumeric(front);
      NumericSplit(front, [last]);
      assert items == front + [last];
      var tail := RelayedOf(items)[|RelayedOf(front)|..];
      assert RelayedOf(items) == RelayedOf(front) + tail;
      NumericSplit(RelayedOf(front), tail);
    }
  }

  lemma {:induction false} NumericSplit(a: seq<Item>, b: seq<Item>)
    ensures AllNumeric(a + b) <==> AllNumeric(a) && AllNumeric(b)
  {
    if b == [] {
      assert a + b == a;
    } else {
      assert (a + b)[..|a + b| - 1] == a + b[..|b| - 1];
      NumericSplit(a, b[..|b| - 1]);
    }
  }

  lemma {:induction false} LineNumeric(legs: seq<Leg>, line: seq<nat>)
    requires Within(line, |legs|)
    ensures AllNumeric(Flat(Streams(legs, line))) <==>
            forall k :: 0 <= k < |line| ==> AllNumeric(Cycle(legs[line[k]]))
  {
    if line != [] {
      var front, leg := line[..|line| - 1], legs[line[|line| - 1]];
      LineNumeric(legs, front);
      assert Streams(legs, line)[..|line| - 1] == Streams(legs, front);
      NumericSplit(Flat(Streams(legs, front)), RelayedOf(Cycle(leg)));
      RelayedNumeric(Cycle(leg));
      assert forall k :: 0 <= k < |front| ==> front[k] == line[k];
    }
  }

  /** A request succeeds exactly when its endpoints are known, no leg fails, and a sum finds numbers only;
      the completion order has no say. Otherwise nothing at all has been sent. */
  lemma SucceedsExactly(q: Request, endpoints: set<string>, held: Option<string>, order: seq<nat>)
    requires Completes(q.legs, held, order) && Within(order, |q.legs|)
    ensures Verdict(q, endpoints, held, order).0.Ok? <==>
            && Known(q.legs, endpoints)
            && AllHealthy(q.legs, SessionLeg(q.legs, held))
            && (q.merge.Sum? ==> forall i :: 0 <= i < |q.legs| ==> AllNumeric(Cycle(q.legs[i])))
    ensures Verdict(q, endpoints, held, order).0.Err? ==> Delivered(q, endpoints, held, order) == []
  {
    HealthyExactly(q.legs, held, order);
    if AllHealthy(q.legs, SessionLeg(q.legs, held)) {
      var line := Line(q.legs, held, order);
      HealthySources(q.legs, held, order);
      LineNumeric(q.legs, line);
      if AllNumeric(Flat(Streams(q.legs, line))) {
        forall i | 0 <= i < |q.legs| ensures AllNumeric(Cycle(q.legs[i])) {
          var k := InLine(q.legs, held, order, i);
        }
      }
    }
  }

  /** Connections of legs that completed well are dropped without a check-in exactly when no pooled leg
      failed and either the session's own connection broke, or its leg went through and the sum met a value
      that is no number. */
  lemma DroppedExactly(q: Request, endpoints: set<string>, held: Option<string>, order: seq<nat>)
    requires Completes(q.legs, held, order) && Within(order, |q.legs|) && Known(q.legs, endpoints) && order != []
    ensures var s := SessionLeg(q.legs, held);
            var own := if s.Some? then Collected(q.legs[s.value].items) else LegOutcome([], 0, None, false, false);
            var k := FirstFailed(Completions(q.legs, order));
            && Verdict(q, endpoints, held, order).1 <= order[..k]
            && (Verdict(q, endpoints, held, order).1 != order[..k] <==>
                && k == |order|
                && (own.broken ||
                    (own.error.None? && q.merge.Sum? &&
                     exists i :: 0 <= i < |q.legs| && !AllNumeric(Cycle(q.legs[i])))))
  {
    var s := SessionLeg(q.legs, held);
    var k := FirstFailed(Completions(q.legs, order));
    assert k == |order| ==> order[..k] == order;
    HealthyExactly(q.legs, held, order);
    SucceedsExactly(q, endpoints, held, order);
  }
}

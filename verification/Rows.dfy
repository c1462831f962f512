/**
 The DataRow codec behind `on_row`: parsing a row's bytes into slots that point into them, editing the
 slots, and building the bytes again.
 */
module Rows {
  import opened Protocol

  newtype byte = x: int | 0 <= x < 256

  const WORD := 0x1_0000_0000
  const HALF := 0x8000_0000

  /** A column value; `None` is NULL. */
  type Value = Option<seq<byte>>

  // ---------------------------------------------------------------- the 32-bit length prefix

  /** The signed 32-bit integer that `n` becomes when it is cast. */
  function Wrapped(n: int): int {
    if n % WORD < HALF then n % WORD else n % WORD - WORD
  }

  function Decode32(b: seq<byte>): int
    requires |b| == 4
  {
    Wrapped(b[0] as int * 0x100_0000 + b[1] as int * 0x1_0000 + b[2] as int * 0x100 + b[3] as int)
  }

  function Encode32(n: int): seq<byte> {
    var u := n % WORD;
    [(u / 0x100_0000) as byte, (u / 0x1_0000 % 0x100) as byte, (u / 0x100 % 0x100) as byte, (u % 0x100) as byte]
  }

  /** A length survives the prefix up to the cast, and unchanged exactly when it is a signed 32-bit number. */
  lemma PrefixRoundTrip(n: int)
    ensures Decode32(Encode32(n)) == Wrapped(n)
    ensures Wrapped(n) == n <==> -HALF <= n < HALF
  {
    var u := n % WORD;
    var a, b, c := u / 0x100, u / 0x1_0000, u / 0x100_0000;
    assert b == a / 0x100 && c == b / 0x100;
    assert u == a * 0x100 + u % 0x100;
    assert a == b * 0x100 + a % 0x100;
    assert b == c * 0x100 + b % 0x100;
  }

  // ---------------------------------------------------------------- the wire format

  /** One column on the wire. */
  function Field(v: Value): seq<byte> {
    if v.None? then Encode32(-1) else Encode32(|v.value|) + v.value
  }

  function Encoded(vs: seq<Value>): seq<byte> {
    if vs == [] then [] else Encoded(vs[..|vs| - 1]) + Field(vs[|vs| - 1])
  }

  /** The `n` columns that start at `off`, if the bytes hold that many. */
  function Values(data: seq<byte>, off: nat, n: nat): Option<seq<Value>>
    requires off <= |data|
    decreases n
  {
    if n == 0 then Some([])
    else if |data| - off < 4 then None
    else
      var len := Decode32(data[off..off + 4]);
      if len < 0 then Consed(None, Values(data, off + 4, n - 1))
      else if |data| - off - 4 < len then None
      else Consed(Some(data[off + 4..off + 4 + len]), Values(data, off + 4 + len, n - 1))
  }

  function Consed(v: Value, rest: Option<seq<Value>>): Option<seq<Value>> {
    if rest.Some? then Some([v] + rest.value) else None
  }

  function Joined(done: seq<Value>, rest: Option<seq<Value>>): Option<seq<Value>> {
    if rest.Some? then Some(done + rest.value) else None
  }

  predicate Short(v: Value) {
    v.None? || |v.value| < HALF
  }

  predicate AllShort(vs: seq<Value>) {
    forall i :: 0 <= i < |vs| ==> Short(vs[i])
  }

  // ---------------------------------------------------------------- the objects

  datatype Slot = Range(offset: nat, len: nat) | Owned(bytes: seq<byte>)

  /** A slot points inside the data. */
  predicate Inside(data: seq<byte>, slot: Option<Slot>) {
    slot.Some? && slot.value.Range? ==> slot.value.offset + slot.value.len <= |data| && slot.value.len < HALF
  }

  function Content(data: seq<byte>, slot: Option<Slot>): Value
    requires Inside(data, slot)
  {
    match slot
    case None => None
    case Some(Range(offset, len)) => Some(data[offset..offset + len])
    case Some(Owned(bytes)) => Some(bytes)
  }

  predicate AllInside(data: seq<byte>, slots: seq<Option<Slot>>) {
    forall i :: 0 <= i < |slots| ==> Inside(data, slots[i])
  }

  function Contents(data: seq<byte>, slots: seq<Option<Slot>>): seq<Value>
    requires AllInside(data, slots)
  {
    seq(|slots|, i requires 0 <= i < |slots| => Content(data, slots[i]))
  }

  lemma JoinedStep(done: seq<Value>, v: Value, rest: Option<seq<Value>>)
    ensures Joined(done, Consed(v, rest)) == Joined(done + [v], rest)
  {
    if rest.Some? {
      assert done + ([v] + rest.value) == (done + [v]) + rest.value;
    }
  }

  lemma ContentsStep(data: seq<byte>, slots: seq<Option<Slot>>, slot: Option<Slot>)
    requires AllInside(data, slots) && Inside(data, slot)
    ensures AllInside(data, slots + [slot])
    ensures Contents(data, slots + [slot]) == Contents(data, slots) + [Content(data, slot)]
  {
  }

  lemma EncodedStep(vs: seq<Value>, i: nat)
    requires i < |vs|
    ensures Encoded(vs[..i + 1]) == Encoded(vs[..i]) + Field(vs[i])
  {
    assert vs[..i + 1][..i] == vs[..i];
  }

  /** Length prefix and bytes of one slot. */
  method EncodeSlot(data: seq<byte>, slot: Option<Slot>) returns (b: seq<byte>)
    requires Inside(data, slot)
    ensures b == Field(Content(data, slot))
  {
    match slot {
      case Some(Range(offset, len)) =>
        b := Encode32(len);
        b := b + data[offset..offset + len];
      case Some(Owned(bytes)) =>
        b := Encode32(|bytes|);
        b := b + bytes;
      case None =>
        b := Encode32(-1);
    }
  }

  /** The bytes of all slots, one after the other. */
  method Build(data: seq<byte>, slots: seq<Option<Slot>>) returns (b: seq<byte>)
    requires AllInside(data, slots)
    ensures b == Encoded(Contents(data, slots))
  {
    ghost var vs := Contents(data, slots);
    b := [];
    var i := 0;
    while i < |slots|
      invariant 0 <= i <= |slots| && b == Encoded(vs[..i])
    {
      EncodedStep(vs, i);
      var field := EncodeSlot(data, slots[i]);
      b := b + field;
      i := i + 1;
    }
    assert vs[..i] == vs;
  }

  class DataRow {
    var fieldCount: nat
    var data: seq<byte>

    constructor (fieldCount: nat, data: seq<byte>)
      ensures this.fieldCount == fieldCount && this.data == data
    {
      this.fieldCount, this.data := fieldCount, data;
    }
  }

  class DataRowMut {
    const row: DataRow
    var values: seq<Option<Slot>>
    var modified: bool

    ghost predicate Valid()
      reads this, row
    {
      AllInside(row.data, values)
    }

    ghost function View(): seq<Value>
      reads this, row
      requires Valid()
    {
      Contents(row.data, values)
    }

    constructor (row: DataRow, values: seq<Option<Slot>>)
      ensures this.row == row && this.values == values && !modified
    {
      this.row, this.values, this.modified := row, values, false;
    }

    method SetText(index: nat, value: seq<byte>) returns (ok: bool)
      requires Valid()
      modifies this
      ensures Valid() && ok == (index < |old(values)|) && modified == (old(modified) || ok)
      ensures View() == if ok then old(View())[index := Some(value)] else old(View())
    {
      if index >= |values| {
        return false;
      }
      values := values[index := Some(Owned(value))];
      modified := true;
      ok := true;
    }

    method SetNull(index: nat) returns (ok: bool)
      requires Valid()
      modifies this
      ensures Valid() && ok == (index < |old(values)|) && modified == (old(modified) || ok)
      ensures View() == if ok then old(View())[index := None] else old(View())
    {
      if index >= |values| {
        return false;
      }
      values := values[index := None];
      modified := true;
      ok := true;
    }

    /** Untouched rows keep their bytes; edited ones are the wire form of the values. */
    method Apply()
      requires Valid()
      modifies row
      ensures row.data == if modified then Encoded(old(View())) else old(row.data)
      ensures row.fieldCount == old(row.fieldCount)
    {
      if modified {
        row.data := Build(row.data, values);
      }
    }
  }

  /** Read one column off the cursor, of `left` that are still to come after it. */
  method TakeColumn(data: seq<byte>, offset: nat, cursor: seq<byte>, ghost left: nat)
    returns (slot: Option<Option<Slot>>, next: nat, rest: seq<byte>)
    requires offset <= |data| && cursor == data[offset..]
    ensures slot.None? ==> Values(data, offset, left + 1).None?
    ensures slot.Some? ==>
              && Inside(data, slot.value) && next <= |data| && rest == data[next..]
              && Values(data, offset, left + 1) == Consed(Content(data, slot.value), Values(data, next, left))
  {
    slot, next, rest := None, offset, cursor;
    if |cursor| < 4 {
      return;
    }
    var len := Decode32(cursor[..4]);
    assert cursor[..4] == data[offset..offset + 4];
    rest := cursor[4..];
    next := offset + 4;
    if len < 0 {
      slot := Some(None);
    } else {
      if |rest| < len {
        return;
      }
      slot := Some(Some(Range(next, len)));
      next := next + len;
      rest := rest[len..];
    }
  }

  /** Walk the bytes, remembering where each value lies. */
  method ParseSlots(data: seq<byte>, fieldCount: nat) returns (r: Option<seq<Option<Slot>>>)
    ensures r.Some? == Values(data, 0, fieldCount).Some?
    ensures r.Some? ==> AllInside(data, r.value) && Some(Contents(data, r.value)) == Values(data, 0, fieldCount)
  {
    var values: seq<Option<Slot>> := [];
    var cursor := data;
    var offset: nat := 0;
    var i := 0;
    ghost var all := Values(data, 0, fieldCount);
    assert Contents(data, values) == [] && (all.Some? ==> [] + all.value == all.value);
    while i < fieldCount
      invariant 0 <= i <= fieldCount && offset <= |data| && cursor == data[offset..]
      invariant AllInside(data, values)
      invariant all == Joined(Contents(data, values), Values(data, offset, fieldCount - i))
    {
      var slot;
      slot, offset, cursor := TakeColumn(data, offset, cursor, fieldCount - i - 1);
      if slot.None? {
        return None;
      }
      ContentsStep(data, values, slot.value);
      JoinedStep(Contents(data, values), Content(data, slot.value), Values(data, offset, fieldCount - i - 1));
      values := values + [slot.value];
      i := i + 1;
    }
    assert Contents(data, values) + [] == Contents(data, values);
    r := Some(values);
  }

  /** Parse succeeds exactly when the bytes hold the declared columns; then every slot lies inside the data
      and stands for the column's value. */
  method Parse(row: DataRow) returns (r: Option<DataRowMut>)
    ensures r.Some? == Values(row.data, 0, row.fieldCount).Some?
    ensures r.Some? ==> fresh(r.value) && r.value.row == row && r.value.Valid() && !r.value.modified
    ensures r.Some? ==> r.value.View() == Values(row.data, 0, row.fieldCount).value
  {
    var slots := ParseSlots(row.data, row.fieldCount);
    if slots.None? {
      return None;
    }
    var parsed := new DataRowMut(row, slots.value);
    r := Some(parsed);
  }

  // ---------------------------------------------------------------- round trips

  lemma SliceShift(pre: seq<byte>, data: seq<byte>, i: nat, j: nat)
    requires i <= j <= |data|
    ensures (pre + data)[|pre| + i..|pre| + j] == data[i..j]
  {
  }

  /** Bytes before the columns play no part. */
  lemma {:induction false} ValuesShift(pre: seq<byte>, data: seq<byte>, off: nat, n: nat)
    requires off <= |data|
    ensures Values(pre + data, |pre| + off, n) == Values(data, off, n)
    decreases n
  {
    if n > 0 && |data| - off >= 4 {
      SliceShift(pre, data, off, off + 4);
      var len := Decode32(data[off..off + 4]);
      if len < 0 {
        ValuesShift(pre, data, off + 4, n - 1);
      } else if |data| - off - 4 >= len {
        SliceShift(pre, data, off + 4, off + 4 + len);
        ValuesShift(pre, data, off + 4 + len, n - 1);
      }
    }
  }

  lemma {:induction false} EncodedHead(vs: seq<Value>)
    requires vs != []
    ensures Encoded(vs) == Field(vs[0]) + Encoded(vs[1..])
  {
    var last := |vs| - 1;
    if last > 0 {
      EncodedHead(vs[..last]);
      assert vs[1..][..last - 1] == vs[..last][1..];
    }
  }

  /** What a parser finds at the head of one encoded column. */
  lemma FieldParses(v: Value, rest: seq<byte>, n: nat)
    requires Short(v)
    ensures Values(Field(v) + rest, 0, n + 1) == Consed(v, Values(rest, 0, n))
  {
    var data := Field(v) + rest;
    var len := if v.None? then -1 else |v.value|;
    PrefixRoundTrip(len);
    assert data[0..4] == Encode32(len);
    ValuesShift(Field(v), rest, 0, n);
    if v.Some? {
      assert data[4..4 + len] == v.value;
    }
  }

  /** A value of 2^31 bytes or more is never read back: its length comes out negative or too small. */
  lemma LongFieldLost(v: Value, rest: seq<byte>, n: nat)
    requires !Short(v)
    ensures var r := Values(Field(v) + rest, 0, n + 1); r.Some? ==> r.value[0] != v
  {
    var data := Field(v) + rest;
    PrefixRoundTrip(|v.value|);
    assert data[0..4] == Encode32(|v.value|);
    assert Decode32(data[0..4]) < |v.value|;
  }

  /** Encoding and parsing are inverse on a row exactly when every value is shorter than 2^31 bytes. */
  lemma {:induction false} EncodedRoundTrip(vs: seq<Value>)
    ensures Values(Encoded(vs), 0, |vs|) == Some(vs) <==> AllShort(vs)
  {
    if vs != [] {
      EncodedHead(vs);
      EncodedRoundTrip(vs[1..]);
      var rest := Values(Encoded(vs[1..]), 0, |vs| - 1);
      assert vs == [vs[0]] + vs[1..];
      if Short(vs[0]) {
        FieldParses(vs[0], Encoded(vs[1..]), |vs| - 1);
        if rest.Some? && [vs[0]] + rest.value == vs {
          assert rest.value == vs[1..];
        }
        assert forall i :: 0 < i < |vs| ==> vs[i] == vs[1..][i - 1];
      } else {
        LongFieldLost(vs[0], Encoded(vs[1..]), |vs| - 1);
      }
    }
  }

  /** A parsed row has the declared number of columns, none of them too long to be encoded again. */
  lemma {:induction false} ParsedShort(data: seq<byte>, off: nat, n: nat)
    requires off <= |data| && Values(data, off, n).Some?
    ensures |Values(data, off, n).value| == n
    ensures AllShort(Values(data, off, n).value)
    decreases n
  {
    if n > 0 {
      var len := Decode32(data[off..off + 4]);
      ParsedShort(data, if len < 0 then off + 4 else off + 4 + len, n - 1);
    }
  }

  // ---------------------------------------------------------------- sequences of edits

  datatype Edit = SetText(index: nat, value: seq<byte>) | SetNull(index: nat)

  function Put(e: Edit): Value {
    if e.SetText? then Some(e.value) else None
  }

  function Edited(vs: seq<Value>, edits: seq<Edit>): (r: seq<Value>)
    ensures |r| == |vs|
  {
    if edits == [] then vs
    else
      var before, e := Edited(vs, edits[..|edits| - 1]), edits[|edits| - 1];
      if e.index < |vs| then before[e.index := Put(e)] else before
  }

  /** The last edit of column `i`, if there is one. */
  function LastEdit(edits: seq<Edit>, i: nat): Option<Value> {
    if edits == [] then None
    else
      var e := edits[|edits| - 1];
      if e.index == i then Some(Put(e)) else LastEdit(edits[..|edits| - 1], i)
  }

  lemma {:induction false} EditedColumn(vs: seq<Value>, edits: seq<Edit>, i: nat)
    requires i < |vs|
    ensures Edited(vs, edits)[i] == if LastEdit(edits, i).Some? then LastEdit(edits, i).value else vs[i]
  {
    if edits != [] {
      EditedColumn(vs, edits[..|edits| - 1], i);
    }
  }

  predicate Touches(edits: seq<Edit>, n: nat) {
    exists k :: 0 <= k < |edits| && edits[k].index < n
  }

  /** The bytes a row leaves with. */
  function Rewritten(data: seq<byte>, vs: seq<Value>, edits: seq<Edit>): seq<byte> {
    if Touches(edits, |vs|) then Encoded(Edited(vs, edits)) else data
  }

  lemma {:induction false} UntouchedSame(vs: seq<Value>, edits: seq<Edit>)
    requires !Touches(edits, |vs|)
    ensures Edited(vs, edits) == vs
    ensures forall i: nat :: i < |vs| ==> LastEdit(edits, i).None?
  {
    if edits != [] {
      var before := edits[..|edits| - 1];
      assert forall k :: 0 <= k < |before| ==> before[k] == edits[k];
      UntouchedSame(vs, before);
      assert edits[|edits| - 1].index >= |vs|;
    }
  }

  predicate EditsShort(edits: seq<Edit>, n: nat) {
    forall i: nat :: i < n && LastEdit(edits, i).Some? ==> Short(LastEdit(edits, i).value)
  }

  lemma EditedShort(vs: seq<Value>, edits: seq<Edit>)
    requires AllShort(vs)
    ensures AllShort(Edited(vs, edits)) <==> EditsShort(edits, |vs|)
  {
    var es := Edited(vs, edits);
    forall i: nat | i < |vs|
      ensures LastEdit(edits, i).Some? ==> es[i] == LastEdit(edits, i).value
      ensures LastEdit(edits, i).None? ==> es[i] == vs[i]
    {
      EditedColumn(vs, edits, i);
    }
  }

  /** For every row that parses and every sequence of edits: parsing the rewritten bytes gives the edited
      row, each column its last edit or its original value, exactly when no surviving edit is 2^31 bytes
      or longer. */
  lemma RewriteRoundTrip(data: seq<byte>, n: nat, edits: seq<Edit>)
    requires Values(data, 0, n).Some?
    ensures var vs := Values(data, 0, n).value;
            && |vs| == n
            && (Values(Rewritten(data, vs, edits), 0, n) == Some(Edited(vs, edits)) <==> EditsShort(edits, n))
  {
    var vs := Values(data, 0, n).value;
    ParsedShort(data, 0, n);
    EditedShort(vs, edits);
    if Touches(edits, n) {
      EncodedRoundTrip(Edited(vs, edits));
    } else {
      UntouchedSame(vs, edits);
    }
  }

  /** The row path of the pump: parse, let the hook edit, build the bytes again. A row that does not parse
      is passed on as it came. */
  method EditRow(row: DataRow, edits: seq<Edit>) returns (parsed: bool)
    modifies row
    ensures parsed == Values(old(row.data), 0, row.fieldCount).Some? && row.fieldCount == old(row.fieldCount)
    ensures row.data == if parsed then Rewritten(old(row.data), Values(old(row.data), 0, row.fieldCount).value, edits)
                        else old(row.data)
  {
    var r := Parse(row);
    if r.None? {
      return false;
    }
    var m := r.value;
    ghost var vs := m.View();
    var k := 0;
    while k < |edits|
      invariant 0 <= k <= |edits| && m.row == row && m.Valid()
      invariant row.data == old(row.data) && row.fieldCount == old(row.fieldCount)
      invariant m.View() == Edited(vs, edits[..k]) && m.modified == Touches(edits[..k], |vs|)
    {
      assert edits[..k + 1][..k] == edits[..k];
      TouchesStep(edits, k, |vs|);
      if edits[k].SetText? {
        var _ := m.SetText(edits[k].index, edits[k].value);
      } else {
        var _ := m.SetNull(edits[k].index);
      }
      k := k + 1;
    }
    assert edits[..k] == edits;
    m.Apply();
    parsed := true;
  }

  lemma TouchesStep(edits: seq<Edit>, k: nat, n: nat)
    requires k < |edits|
    ensures Touches(edits[..k + 1], n) <==> Touches(edits[..k], n) || edits[k].index < n
  {
    var more, less := edits[..k + 1], edits[..k];
    assert forall j :: 0 <= j < k ==> more[j] == less[j];
    assert more[k] == edits[k];
  }
}

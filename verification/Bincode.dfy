/**
 A concrete entry layout: every enum tag and integer a variable-length little-endian
 integer, as in bincode's standard configuration.  It is self-delimiting.
 */
module Bincode {
  import opened Bytes
  import opened MarketTypes
  import opened Wal

  // ---- fixed-width little-endian -----------------------------------------------

  function ToLE(n: nat, k: nat): (s: seq<byte>)
    ensures |s| == k
  {
    if k == 0 then [] else [n % 256] + ToLE(n / 256, k - 1)
  }

  function FromLE(s: seq<byte>): (n: nat)
  {
    if s == [] then 0 else s[0] + 256 * FromLE(s[1..])
  }

  lemma {:induction false} FromLEBound(s: seq<byte>)
    ensures FromLE(s) < Pow256(|s|)
  {
    if s == [] {
    } else {
      FromLEBound(s[1..]);
    }
  }

  lemma {:induction false} LERoundTrip(n: nat, k: nat)
    requires n < Pow256(k)
    ensures FromLE(ToLE(n, k)) == n
  {
    if k == 0 {
    } else {
      LERoundTrip(n / 256, k - 1);
      assert ToLE(n, k)[1..] == ToLE(n / 256, k - 1);
    }
  }

  // ---- variable-length integers ------------------------------------------------

  /** Bytes after the marker: 251 announces two, 252 four, 253 eight. */
  function Width(marker: byte): nat {
    if marker == 251 then 2 else if marker == 252 then 4 else if marker == 253 then 8 else 0
  }

  function EncodeInt(n: u64): (s: seq<byte>)
    ensures |s| > 0
  {
    if n < 251 then [n]
    else if n < 0x1_0000 then [251] + ToLE(n, 2)
    else if n < 0x1_0000_0000 then [252] + ToLE(n, 4)
    else [253] + ToLE(n, 8)
  }

  /** The number that bytes spell, each weighted by its place. */
  function PlaceValue(s: seq<byte>): nat {
    if s == [] then 0 else PlaceValue(s[..|s| - 1]) + s[|s| - 1] * Pow256(|s| - 1)
  }

  lemma {:induction false} Scaled(x: nat, p: nat)
    ensures x * (256 * p) == 256 * (x * p)
  {
  }

  lemma {:induction false} PlaceValueCons(x: byte, s: seq<byte>)
    ensures PlaceValue([x] + s) == x + 256 * PlaceValue(s)
  {
    if s == [] {
      assert ([x] + s)[..0] == [];
    } else {
      var n := |s| - 1;
      PlaceValueCons(x, s[..n]);
      assert ([x] + s)[..|s|] == [x] + s[..n];
      assert Pow256(|s|) == 256 * Pow256(n);
      Scaled(s[n], Pow256(n));
    }
  }

  lemma {:induction false} LESpells(n: nat, k: nat)
    requires n < Pow256(k)
    ensures PlaceValue(ToLE(n, k)) == n
  {
    if k == 0 {
    } else {
      LESpells(n / 256, k - 1);
      PlaceValueCons(n % 256, ToLE(n / 256, k - 1));
    }
  }

  /** Up to 250 one byte; otherwise a marker and 2, 4 or 8 bytes, least significant first. */
  lemma {:induction false} IntLayout(n: u64)
    ensures var s := EncodeInt(n);
            && (n <= 250 ==> s == [n])
            && (250 < n <= 0xFFFF ==> |s| == 3 && s[0] == 251)
            && (0xFFFF < n <= 0xFFFF_FFFF ==> |s| == 5 && s[0] == 252)
            && (0xFFFF_FFFF < n ==> |s| == 9 && s[0] == 253)
            && (250 < n ==> PlaceValue(s[1..]) == n)
  {
    Widths();
    if 250 < n {
      var k := if n <= 0xFFFF then 2 else if n <= 0xFFFF_FFFF then 4 else 8;
      assert EncodeInt(n)[1..] == ToLE(n, k);
      LESpells(n, k);
    }
  }

  datatype Field = Word | Variant

  /** Enum tags are 32-bit: an eight-byte integer is not accepted for one. */
  function DecodeInt(b: seq<byte>, field: Field): (p: Parsed<u64>)
    ensures p.Parsed? ==> 0 < p.size <= |b|
  {
    if b == [] || b[0] >= 254 || (field.Variant? && b[0] == 253) then NoParse
    else
      var w := Width(b[0]);
      if b[0] < 251 then Parsed(b[0], 1)
      else if |b| < 1 + w then NoParse
      else
        FromLEBound(b[1..1 + w]); Widths();
        Parsed(FromLE(b[1..1 + w]), 1 + w)
  }

  ghost predicate Fits(n: u64, field: Field) {
    field.Variant? ==> n < 251
  }

  lemma {:induction false} IntRoundTrip(n: u64, field: Field, rest: seq<byte>)
    requires Fits(n, field)
    ensures DecodeInt(EncodeInt(n) + rest, field) == Parsed(n, |EncodeInt(n)|)
  {
    Widths();
    var b := EncodeInt(n) + rest;
    if n >= 251 {
      var w := Width(b[0]);
      assert b[1..1 + w] == ToLE(n, w);
      LERoundTrip(n, w);
    }
  }

  lemma {:induction false} IntTorn(n: u64, field: Field, k: nat)
    requires Fits(n, field) && k < |EncodeInt(n)|
    ensures DecodeInt(EncodeInt(n)[..k], field) == NoParse
  {
  }

  /** What follows an integer does not change it. */
  lemma {:induction false} IntStays(b: seq<byte>, field: Field, rest: seq<byte>)
    requires DecodeInt(b, field).Parsed?
    ensures DecodeInt(b + rest, field) == DecodeInt(b, field)
  {
    var w := Width(b[0]);
    if b[0] >= 251 {
      assert (b + rest)[1..1 + w] == b[1..1 + w];
    }
  }

  /** No layout of an integer is shorter than the one written. */
  lemma {:induction false} IntShortest(b: seq<byte>, field: Field)
    requires DecodeInt(b, field).Parsed?
    ensures |EncodeInt(DecodeInt(b, field).value)| <= DecodeInt(b, field).size
  {
    if b[0] >= 251 {
      Widths();
      FromLEBound(b[1..1 + Width(b[0])]);
    }
  }

  // ---- a run of fields ---------------------------------------------------------

  function EncodeInts(xs: seq<u64>): seq<byte> {
    if xs == [] then [] else EncodeInt(xs[0]) + EncodeInts(xs[1..])
  }

  function DecodeFields(b: seq<byte>, shape: seq<Field>): (p: Parsed<seq<u64>>)
    ensures p.Parsed? ==> p.size <= |b| && |p.value| == |shape|
  {
    if shape == [] then Parsed([], 0)
    else
      var p := DecodeInt(b, shape[0]);
      if p.NoParse? then NoParse
      else
        var q := DecodeFields(b[p.size..], shape[1..]);
        if q.NoParse? then NoParse else Parsed([p.value] + q.value, p.size + q.size)
  }

  ghost predicate AllFit(xs: seq<u64>, shape: seq<Field>) {
    |xs| == |shape| && forall i :: 0 <= i < |xs| ==> Fits(xs[i], shape[i])
  }

  lemma {:induction false} FieldsRoundTrip(xs: seq<u64>, shape: seq<Field>, rest: seq<byte>)
    requires AllFit(xs, shape)
    ensures DecodeFields(EncodeInts(xs) + rest, shape) == Parsed(xs, |EncodeInts(xs)|)
  {
    if xs == [] {
    } else {
      hide DecodeInt, EncodeInt;
      var tail := EncodeInts(xs[1..]) + rest;
      assert EncodeInts(xs) + rest == EncodeInt(xs[0]) + tail;
      IntRoundTrip(xs[0], shape[0], tail);
      FieldsRoundTrip(xs[1..], shape[1..], rest);
      assert (EncodeInt(xs[0]) + tail)[|EncodeInt(xs[0])|..] == tail;
      assert xs == [xs[0]] + xs[1..];
    }
  }

  lemma {:induction false} FieldsTorn(xs: seq<u64>, shape: seq<Field>, k: nat)
    requires AllFit(xs, shape) && k < |EncodeInts(xs)|
    ensures DecodeFields(EncodeInts(xs)[..k], shape) == NoParse
  {
    hide DecodeInt, EncodeInt;
    var first, tail := EncodeInt(xs[0]), EncodeInts(xs[1..]);
    var b := EncodeInts(xs)[..k];
    if k < |first| {
      assert b == first[..k];
      IntTorn(xs[0], shape[0], k);
    } else {
      assert b == first + tail[..k - |first|];
      IntRoundTrip(xs[0], shape[0], tail[..k - |first|]);
      assert b[|first|..] == tail[..k - |first|];
      FieldsTorn(xs[1..], shape[1..], k - |first|);
    }
  }

  lemma {:induction false} FieldsStay(b: seq<byte>, shape: seq<Field>, rest: seq<byte>)
    requires DecodeFields(b, shape).Parsed?
    ensures DecodeFields(b + rest, shape) == DecodeFields(b, shape)
  {
    hide DecodeInt;
    if shape == [] {
    } else {
      var p := DecodeInt(b, shape[0]);
      IntStays(b, shape[0], rest);
      assert (b + rest)[p.size..] == b[p.size..] + rest;
      FieldsStay(b[p.size..], shape[1..], rest);
    }
  }

  lemma {:induction false} FieldsShortest(b: seq<byte>, shape: seq<Field>)
    requires DecodeFields(b, shape).Parsed?
    ensures |EncodeInts(DecodeFields(b, shape).value)| <= DecodeFields(b, shape).size
  {
    hide DecodeInt, EncodeInt;
    if shape == [] {
    } else {
      var p := DecodeInt(b, shape[0]);
      IntShortest(b, shape[0]);
      FieldsShortest(b[p.size..], shape[1..]);
      var xs := DecodeFields(b, shape).value;
      assert xs[1..] == DecodeFields(b[p.size..], shape[1..]).value;
    }
  }

  // ---- log entries -------------------------------------------------------------

  const PLACE: seq<Field> := [Word, Word, Variant, Word, Word]
  const CANCEL: seq<Field> := [Word, Word]

  function Fields(e: LogEntry): seq<u64> {
    match e
    case Place(id, user, side, price, quantity) => [id, user, if side.Bid? then 0 else 1, price, quantity]
    case Cancel(id, user) => [id, user]
  }

  function Tag(e: LogEntry): (t: u64)
  {
    if e.Place? then 0 else 1
  }

  function EncodeEntry(e: LogEntry): seq<byte> {
    EncodeInt(Tag(e)) + EncodeInts(Fields(e))
  }

  lemma {:induction false} TwoInts(a: u64, b: u64)
    ensures EncodeInts([a, b]) == EncodeInt(a) + EncodeInt(b)
  {
    hide EncodeInt;
    assert [a, b][1..] == [b] && [b][1..] == [];
    assert EncodeInts([b]) == EncodeInt(b);
  }

  lemma {:induction false} FiveInts(a: u64, b: u64, c: u64, d: u64, e: u64)
    ensures EncodeInts([a, b, c, d, e]) == EncodeInt(a) + EncodeInt(b) + EncodeInt(c) + EncodeInt(d) + EncodeInt(e)
  {
    hide EncodeInt;
    assert [a, b, c, d, e][1..] == [b, c, d, e] && [b, c, d, e][1..] == [c, d, e] && [c, d, e][1..] == [d, e];
    TwoInts(d, e);
    assert EncodeInts([c, d, e]) == EncodeInt(c) + (EncodeInt(d) + EncodeInt(e));
    assert EncodeInts([b, c, d, e]) == EncodeInt(b) + EncodeInts([c, d, e]);
  }

  /** Tag 0, then the fields in their declared order, a bid as 0 and an ask as 1. */
  lemma {:induction false} PlaceLayout(id: OrderId, user: UserId, side: Side, price: Price, quantity: Quantity)
    ensures EncodeEntry(Place(id, user, side, price, quantity))
            == [0] + (EncodeInt(id) + EncodeInt(user) + [if side.Bid? then 0 else 1] + EncodeInt(price) + EncodeInt(quantity))
  {
    IntLayout(0);
    IntLayout(1);
    hide EncodeInt, EncodeInts, PlaceValue;
    FiveInts(id, user, if side.Bid? then 0 else 1, price, quantity);
  }

  /** Tag 1, then the fields in their declared order. */
  lemma {:induction false} CancelLayout(id: OrderId, user: UserId)
    ensures EncodeEntry(Cancel(id, user)) == [1] + (EncodeInt(id) + EncodeInt(user))
  {
    IntLayout(1);
    hide EncodeInt, EncodeInts, PlaceValue;
    TwoInts(id, user);
  }

  function FromFields(tag: u64, xs: seq<u64>): Parsed<LogEntry>
    requires tag == 0 ==> |xs| == 5
    requires tag == 1 ==> |xs| == 2
  {
    if tag == 0 && xs[2] <= 1 then Parsed(Place(xs[0], xs[1], if xs[2] == 0 then Bid else Ask, xs[3], xs[4]), 0)
    else if tag == 1 then Parsed(Cancel(xs[0], xs[1]), 0)
    else NoParse
  }

  function DecodeEntry(b: seq<byte>): (p: Parsed<LogEntry>)
    ensures p.Parsed? ==> 0 < p.size <= |b|
  {
    var tag := DecodeInt(b, Variant);
    if tag.NoParse? || tag.value > 1 then NoParse
    else
      var xs := DecodeFields(b[tag.size..], if tag.value == 0 then PLACE else CANCEL);
      if xs.NoParse? then NoParse
      else
        var e := FromFields(tag.value, xs.value);
        if e.NoParse? then NoParse else Parsed(e.value, tag.size + xs.size)
  }

  function Shape(e: LogEntry): seq<Field> {
    if e.Place? then PLACE else CANCEL
  }

  lemma {:induction false} EntryRoundTrip(e: LogEntry, rest: seq<byte>)
    ensures DecodeEntry(EncodeEntry(e) + rest) == Parsed(e, |EncodeEntry(e)|)
  {
    hide DecodeInt, EncodeInt, DecodeFields, EncodeInts;
    var head, tail := EncodeInt(Tag(e)), EncodeInts(Fields(e)) + rest;
    assert EncodeEntry(e) + rest == head + tail;
    IntRoundTrip(Tag(e), Variant, tail);
    assert (head + tail)[|head|..] == tail;
    assert AllFit(Fields(e), Shape(e));
    FieldsRoundTrip(Fields(e), Shape(e), rest);
    assert FromFields(Tag(e), Fields(e)) == Parsed(e, 0);
  }

  lemma {:induction false} EntryTorn(e: LogEntry, k: nat)
    requires k < |EncodeEntry(e)|
    ensures DecodeEntry(EncodeEntry(e)[..k]) == NoParse
  {
    hide DecodeInt, EncodeInt, DecodeFields, EncodeInts;
    var head, tail := EncodeInt(Tag(e)), EncodeInts(Fields(e));
    var b := EncodeEntry(e)[..k];
    if k < |head| {
      assert b == head[..k];
      IntTorn(Tag(e), Variant, k);
    } else {
      assert b == head + tail[..k - |head|];
      IntRoundTrip(Tag(e), Variant, tail[..k - |head|]);
      assert b[|head|..] == tail[..k - |head|];
      assert AllFit(Fields(e), Shape(e));
      FieldsTorn(Fields(e), Shape(e), k - |head|);
    }
  }

  lemma {:induction false} EntryStays(b: seq<byte>, rest: seq<byte>)
    requires DecodeEntry(b).Parsed?
    ensures DecodeEntry(b + rest) == DecodeEntry(b)
  {
    hide DecodeInt, DecodeFields;
    var tag := DecodeInt(b, Variant);
    IntStays(b, Variant, rest);
    assert (b + rest)[tag.size..] == b[tag.size..] + rest;
    FieldsStay(b[tag.size..], if tag.value == 0 then PLACE else CANCEL, rest);
  }

  lemma {:induction false} EntryShortest(b: seq<byte>)
    requires DecodeEntry(b).Parsed?
    ensures |EncodeEntry(DecodeEntry(b).value)| <= DecodeEntry(b).size
  {
    hide DecodeInt, DecodeFields, EncodeInt, EncodeInts;
    var tag := DecodeInt(b, Variant);
    var shape := if tag.value == 0 then PLACE else CANCEL;
    IntShortest(b, Variant);
    FieldsShortest(b[tag.size..], shape);
    var xs := DecodeFields(b[tag.size..], shape).value;
    assert Fields(DecodeEntry(b).value) == xs;
  }

  const STANDARD := Codec(EncodeEntry, DecodeEntry)

  lemma {:induction false} StandardIsSelfDelimiting()
    ensures SelfDelimiting(STANDARD)
  {
    hide EncodeEntry, DecodeEntry;
    forall e, rest ensures STANDARD.decode(STANDARD.encode(e) + rest) == Parsed(e, |STANDARD.encode(e)|) {
      EntryRoundTrip(e, rest);
    }
    forall e, k | 0 <= k < |STANDARD.encode(e)| ensures STANDARD.decode(STANDARD.encode(e)[..k]) == NoParse {
      EntryTorn(e, k);
    }
    forall b ensures STANDARD.decode(b).Parsed? ==> 0 < STANDARD.decode(b).size <= |b| {
      assert STANDARD.decode(b) == DecodeEntry(b);
    }
    forall b, rest | STANDARD.decode(b).Parsed? ensures STANDARD.decode(b + rest) == STANDARD.decode(b) {
      EntryStays(b, rest);
    }
  }

  lemma {:induction false} StandardIsCompact()
    ensures Compact(STANDARD)
  {
    hide EncodeEntry, DecodeEntry;
    forall b | STANDARD.decode(b).Parsed?
      ensures |STANDARD.encode(STANDARD.decode(b).value)| <= STANDARD.decode(b).size
    {
      EntryShortest(b);
    }
  }

  // ---- appending behind a torn entry -------------------------------------------

  /** The entry kind that the byte at the front announces. */
  lemma {:induction false} FrontKind(b: seq<byte>)
    requires b != [] && b[0] < 251 && DecodeEntry(b).Parsed?
    ensures DecodeEntry(b).value.Place? <==> b[0] == 0
  {
  }

  /** Whatever follows, the first entry read behind a torn one is of the torn one's kind. */
  lemma {:induction false} LostBehindTorn(x: LogEntry, k: nat, e: LogEntry, rest: seq<byte>, es: seq<LogEntry>)
    requires 0 < k < |EncodeEntry(x)| && (x.Place? <==> e.Cancel?)
    ensures SelfDelimiting(STANDARD)
    ensures DecodeAll(STANDARD, EncodeEntry(x)[..k] + rest) != [e] + es
  {
    StandardIsSelfDelimiting();
    hide SelfDelimiting, DecodeEntry;
    var b := EncodeEntry(x)[..k] + rest;
    assert b[0] == EncodeEntry(x)[0] == Tag(x);
    if DecodeEntry(b).Parsed? {
      FrontKind(b);
    }
    assert STANDARD.decode(b) == DecodeEntry(b);
    var read := DecodeAll(STANDARD, b);
    assert read != [] ==> DecodeEntry(b).Parsed? && read[0] == DecodeEntry(b).value;
    assert ([e] + es)[0] == e;
  }

  /**
   A log whose last entry was cut short still takes new entries.  They all read back,
   whatever they are, if and only if nothing was left of the cut entry; otherwise none
   that start with the other kind of entry do.
   */
  lemma {:induction false} AppendAfterCut(es: seq<LogEntry>, x: LogEntry, k: nat)
    requires k < |EncodeEntry(x)|
    ensures SelfDelimiting(STANDARD)
    ensures var file := EncodeAll(STANDARD, es) + EncodeEntry(x)[..k];
            && ((forall more :: DecodeAll(STANDARD, file + EncodeAll(STANDARD, more)) == es + more) <==> k == 0)
            && (k > 0 ==> forall more: seq<LogEntry> :: more != [] && (x.Place? <==> more[0].Cancel?) ==>
                  DecodeAll(STANDARD, file + EncodeAll(STANDARD, more)) != es + more)
  {
    StandardIsSelfDelimiting();
    hide SelfDelimiting, EncodeEntry, DecodeEntry, EncodeAll, DecodeAll;
    var torn := EncodeEntry(x)[..k];
    var file := EncodeAll(STANDARD, es) + torn;
    forall more
      ensures DecodeAll(STANDARD, file + EncodeAll(STANDARD, more)) == es + DecodeAll(STANDARD, torn + EncodeAll(STANDARD, more))
    {
      assert file + EncodeAll(STANDARD, more) == EncodeAll(STANDARD, es) + (torn + EncodeAll(STANDARD, more));
      DecodePast(STANDARD, es, torn + EncodeAll(STANDARD, more));
    }
    if k == 0 {
      forall more ensures DecodeAll(STANDARD, file + EncodeAll(STANDARD, more)) == es + more {
        assert torn + EncodeAll(STANDARD, more) == EncodeAll(STANDARD, more);
        ReadsBack(STANDARD, more);
      }
    } else {
      forall more: seq<LogEntry> | more != [] && (x.Place? <==> more[0].Cancel?)
        ensures DecodeAll(STANDARD, file + EncodeAll(STANDARD, more)) != es + more
      {
        LostBehindTorn(x, k, more[0], EncodeAll(STANDARD, more), more[1..]);
        assert more == [more[0]] + more[1..];
        var read := DecodeAll(STANDARD, torn + EncodeAll(STANDARD, more));
        assert (es + read)[|es|..] == read && (es + more)[|es|..] == more;
      }
      var other := if x.Place? then [Cancel(0, 0)] else [Place(0, 0, Bid, 0, 0)];
      assert DecodeAll(STANDARD, file + EncodeAll(STANDARD, other)) != es + other;
    }
  }

  lemma {:induction false} CancelBytes(id: OrderId, user: UserId)
    requires id < 251 && user < 251
    ensures EncodeEntry(Cancel(id, user)) == [1, id, user]
  {
    var xs := [id, user];
    assert xs[1..] == [user] && xs[1..][1..] == [];
    assert EncodeInts(xs[1..]) == EncodeInt(user) + EncodeInts(xs[1..][1..]);
  }

  /** One byte of the cancellation of order 0, and all of that of order 2 by user 2. */
  lemma {:induction false} DamagedBytes()
    ensures var logged := [Cancel(0, 0), Cancel(2, 2)];
            Keeps(STANDARD, logged, [1, 3]) && Stream(STANDARD, logged, [1, 3]) == [1, 1, 2, 2]
  {
    CancelBytes(0, 0);
    CancelBytes(2, 2);
    hide EncodeEntry;
    var logged, kept := [Cancel(0, 0), Cancel(2, 2)], [1, 3];
    assert logged[..1][..0] == [] && kept[..1][..0] == [];
    assert Stream(STANDARD, logged[..1], kept[..1]) == Stream(STANDARD, logged[..1][..0], kept[..1][..0]) + [1];
  }

  lemma {:induction false} UnknownKind()
    ensures STANDARD.decode([2]) == NoParse
  {
  }

  lemma {:induction false} DamagedReading()
    ensures SelfDelimiting(STANDARD)
    ensures DecodeAll(STANDARD, [1, 1, 2, 2]) == [Cancel(1, 2)]
  {
    hide SelfDelimiting, EncodeEntry, DecodeEntry;
    StandardIsSelfDelimiting();
    CancelBytes(1, 2);
    UnknownKind();
    DecodeFront(STANDARD, Cancel(1, 2), [2]);
    assert [1, 1, 2] + [2] == [1, 1, 2, 2];
  }

  /**
   A log damaged in the middle can read back as an operation nobody submitted: one byte
   of the cancellation of order 0 and all of that of order 2 by user 2 read as the
   cancellation of order 1 by user 2.
   */
  lemma {:induction false} DamageInventsOperation(es: seq<LogEntry>)
    ensures SelfDelimiting(STANDARD)
    ensures var logged := [Cancel(0, 0), Cancel(2, 2)];
            && Keeps(STANDARD, logged, [1, 3])
            && DecodeAll(STANDARD, EncodeAll(STANDARD, es) + Stream(STANDARD, logged, [1, 3])) == es + [Cancel(1, 2)]
  {
    hide SelfDelimiting, Stream, DecodeAll, EncodeAll, Keeps;
    DamagedBytes();
    DamagedReading();
    DecodePast(STANDARD, es, [1, 1, 2, 2]);
  }
}

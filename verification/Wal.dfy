/** The write-ahead log as bytes: an append-only file read back entry by entry. */
module Wal {
  import opened Bytes
  import opened MarketTypes
  import opened Sequences

  datatype Parsed<T> = NoParse | Parsed(value: T, size: nat)

  /** How an entry is laid out in bytes, and how one entry is read off the front of a byte string. */
  datatype Codec = Codec(encode: LogEntry -> seq<byte>, decode: seq<byte> -> Parsed<LogEntry>)

  /**
   Entries are self-delimiting: they read back whatever follows, and not at all when cut
   short; and reading is a walk forwards, so what follows an entry does not change it.
   */
  ghost predicate SelfDelimiting(c: Codec) {
    && (forall e, rest :: c.decode(c.encode(e) + rest) == Parsed(e, |c.encode(e)|))
    && (forall e, k :: 0 <= k < |c.encode(e)| ==> c.decode(c.encode(e)[..k]) == NoParse)
    && (forall b :: c.decode(b).Parsed? ==> 0 < c.decode(b).size <= |b|)
    && (forall b, rest :: c.decode(b).Parsed? ==> c.decode(b + rest) == c.decode(b))
  }

  /** The layout written is the shortest of those that read as the same entry. */
  ghost predicate Compact(c: Codec) {
    forall b :: c.decode(b).Parsed? ==> |c.encode(c.decode(b).value)| <= c.decode(b).size
  }

  function EncodeAll(c: Codec, es: seq<LogEntry>): seq<byte> {
    if es == [] then [] else c.encode(es[0]) + EncodeAll(c, es[1..])
  }

  /** Read entries until one does not decode. */
  ghost function DecodeAll(c: Codec, b: seq<byte>): seq<LogEntry>
    requires SelfDelimiting(c)
    decreases |b|
  {
    var p := c.decode(b);
    if p.NoParse? then [] else [p.value] + DecodeAll(c, b[p.size..])
  }

  lemma {:induction false} EncodeAllConcat(c: Codec, a: seq<LogEntry>, b: seq<LogEntry>)
    ensures EncodeAll(c, a + b) == EncodeAll(c, a) + EncodeAll(c, b)
  {
    if a == [] {
      assert a + b == b;
    } else {
      assert (a + b)[1..] == a[1..] + b;
      EncodeAllConcat(c, a[1..], b);
    }
  }

  lemma {:induction false} EncodeAllSnoc(c: Codec, a: seq<LogEntry>, e: LogEntry)
    ensures EncodeAll(c, a + [e]) == EncodeAll(c, a) + c.encode(e)
  {
    EncodeAllConcat(c, a, [e]);
    assert EncodeAll(c, [e]) == c.encode(e) + EncodeAll(c, [e][1..]);
    assert [e][1..] == [];
  }

  // ---- reading back ------------------------------------------------------------

  lemma {:induction false} DecodeFront(c: Codec, e: LogEntry, rest: seq<byte>)
    requires SelfDelimiting(c)
    ensures DecodeAll(c, c.encode(e) + rest) == [e] + DecodeAll(c, rest)
  {
  }

  lemma {:induction false} DecodePast(c: Codec, es: seq<LogEntry>, rest: seq<byte>)
    requires SelfDelimiting(c)
    ensures DecodeAll(c, EncodeAll(c, es) + rest) == es + DecodeAll(c, rest)
  {
    hide SelfDelimiting;
    if es == [] {
      assert EncodeAll(c, es) + rest == rest;
    } else {
      var tail := EncodeAll(c, es[1..]) + rest;
      assert EncodeAll(c, es) + rest == c.encode(es[0]) + tail;
      DecodeFront(c, es[0], tail);
      DecodePast(c, es[1..], rest);
    }
  }

  lemma {:induction false} TornEntry(c: Codec, e: LogEntry, k: nat)
    requires SelfDelimiting(c) && k < |c.encode(e)|
    ensures DecodeAll(c, c.encode(e)[..k]) == []
  {
    assert c.decode(c.encode(e)[..k]) == NoParse;
  }

  lemma {:induction false} NothingLeft(c: Codec)
    requires SelfDelimiting(c)
    ensures DecodeAll(c, []) == []
  {
    assert c.decode([]).NoParse?;
  }

  /** Round trip of a whole log. */
  lemma {:induction false} ReadsBack(c: Codec, es: seq<LogEntry>)
    requires SelfDelimiting(c)
    ensures DecodeAll(c, EncodeAll(c, es)) == es
  {
    DecodePast(c, es, []);
    NothingLeft(c);
    assert EncodeAll(c, es) + [] == EncodeAll(c, es);
  }

  // ---- reading on ---------------------------------------------------------------

  /** What is left where reading stops. */
  ghost function Unread(c: Codec, b: seq<byte>): seq<byte>
    requires SelfDelimiting(c)
    decreases |b|
  {
    var p := c.decode(b);
    if p.NoParse? then b else Unread(c, b[p.size..])
  }

  lemma {:induction false} FirstStays(c: Codec, b: seq<byte>, rest: seq<byte>)
    requires SelfDelimiting(c) && c.decode(b).Parsed?
    ensures c.decode(b + rest) == c.decode(b)
    ensures 0 < c.decode(b).size <= |b|
    ensures (b + rest)[c.decode(b).size..] == b[c.decode(b).size..] + rest
  {
  }

  /** With more bytes behind it a file reads as before, and then on from where reading stopped. */
  lemma {:induction false} ReadsOn(c: Codec, b: seq<byte>, rest: seq<byte>)
    requires SelfDelimiting(c)
    ensures DecodeAll(c, b + rest) == DecodeAll(c, b) + DecodeAll(c, Unread(c, b) + rest)
    ensures Unread(c, b + rest) == Unread(c, Unread(c, b) + rest)
    decreases |b|
  {
    hide SelfDelimiting;
    var p := c.decode(b);
    if p.NoParse? {
      assert DecodeAll(c, b) == [];
    } else {
      FirstStays(c, b, rest);
      var tail := b[p.size..];
      ReadsOn(c, tail, rest);
      Assoc([p.value], DecodeAll(c, tail), DecodeAll(c, Unread(c, tail) + rest));
    }
  }

  lemma {:induction false} DecodedFits(c: Codec, b: seq<byte>)
    requires SelfDelimiting(c) && Compact(c)
    ensures |EncodeAll(c, DecodeAll(c, b))| <= |b|
    decreases |b|
  {
    var p := c.decode(b);
    if p.NoParse? {
    } else {
      DecodedFits(c, b[p.size..]);
      assert DecodeAll(c, b)[1..] == DecodeAll(c, b[p.size..]);
    }
  }

  // ---- a file cut at any byte --------------------------------------------------

  /** How many whole entries the first k bytes of the log hold. */
  function Whole(c: Codec, es: seq<LogEntry>, k: nat): (j: nat)
    ensures j <= |es|
  {
    if es == [] || k < |c.encode(es[0])| then 0 else 1 + Whole(c, es[1..], k - |c.encode(es[0])|)
  }

  lemma {:induction false} WholeIsMaximal(c: Codec, es: seq<LogEntry>, k: nat)
    ensures var j := Whole(c, es, k);
            && |EncodeAll(c, es[..j])| <= k
            && (j < |es| ==> k < |EncodeAll(c, es[..j + 1])|)
  {
    if es == [] {
    } else {
      var n := |c.encode(es[0])|;
      var j := Whole(c, es, k);
      if k < n {
        assert es[..0] == [];
        assert es[..1][1..] == [];
        assert EncodeAll(c, es[..1]) == c.encode(es[0]) + [];
      } else {
        WholeIsMaximal(c, es[1..], k - n);
        assert es[..j][1..] == es[1..][..j - 1];
        if j < |es| {
          assert es[..j + 1][1..] == es[1..][..j];
        }
      }
    }
  }

  /** Cutting a log at any byte loses exactly the entries that are no longer whole. */
  lemma {:induction false} CutReadsPrefix(c: Codec, es: seq<LogEntry>, k: nat)
    requires SelfDelimiting(c)
    requires k <= |EncodeAll(c, es)|
    ensures DecodeAll(c, EncodeAll(c, es)[..k]) == es[..Whole(c, es, k)]
  {
    hide SelfDelimiting;
    var b := EncodeAll(c, es);
    if es == [] {
      NothingLeft(c);
      assert b[..k] == [];
    } else {
      var first, tail := c.encode(es[0]), EncodeAll(c, es[1..]);
      if k < |first| {
        assert b[..k] == first[..k];
        TornEntry(c, es[0], k);
      } else {
        assert b[..k] == first + tail[..k - |first|];
        DecodeFront(c, es[0], tail[..k - |first|]);
        CutReadsPrefix(c, es[1..], k - |first|);
        var j := Whole(c, es[1..], k - |first|);
        assert es[..1 + j] == [es[0]] + es[1..][..j];
      }
    }
  }

  /** Every number of entries is what some cut leaves, in the middle of a bundle or not. */
  lemma {:induction false} EveryPrefixIsReachable(c: Codec, es: seq<LogEntry>, j: nat)
    requires SelfDelimiting(c) && j <= |es|
    ensures var k := |EncodeAll(c, es[..j])|;
            k <= |EncodeAll(c, es)| && DecodeAll(c, EncodeAll(c, es)[..k]) == es[..j]
  {
    assert es == es[..j] + es[j..];
    EncodeAllConcat(c, es[..j], es[j..]);
    ReadsBack(c, es[..j]);
    var k := |EncodeAll(c, es[..j])|;
    assert EncodeAll(c, es)[..k] == EncodeAll(c, es[..j]);
  }

  // ---- a log some of whose entries were cut while being written -----------------

  /** Entry i with only its first kept[i] bytes. */
  ghost predicate Keeps(c: Codec, es: seq<LogEntry>, kept: seq<nat>) {
    |kept| == |es| && forall i :: 0 <= i < |es| ==> kept[i] <= |c.encode(es[i])|
  }

  ghost function Stream(c: Codec, es: seq<LogEntry>, kept: seq<nat>): seq<byte>
    requires Keeps(c, es, kept)
  {
    if es == [] then []
    else
      var n := |es| - 1;
      Stream(c, es[..n], kept[..n]) + c.encode(es[n])[..kept[n]]
  }

  /** How many entries come before the first that lost bytes. */
  ghost function Unbroken(c: Codec, es: seq<LogEntry>, kept: seq<nat>): (m: nat)
    requires Keeps(c, es, kept)
    ensures m <= |es|
    ensures forall i :: 0 <= i < m ==> kept[i] == |c.encode(es[i])|
    ensures m < |es| ==> kept[m] < |c.encode(es[m])|
  {
    if es == [] then 0
    else
      var n := |es| - 1;
      var m := Unbroken(c, es[..n], kept[..n]);
      if m == n && kept[n] == |c.encode(es[n])| then n + 1 else m
  }

  lemma {:induction false} StreamSnoc(c: Codec, es: seq<LogEntry>, kept: seq<nat>, e: LogEntry, k: nat)
    requires Keeps(c, es, kept) && k <= |c.encode(e)|
    ensures Keeps(c, es + [e], kept + [k])
    ensures Stream(c, es + [e], kept + [k]) == Stream(c, es, kept) + c.encode(e)[..k]
  {
    assert (es + [e])[..|es|] == es && (kept + [k])[..|kept|] == kept;
  }

  /** A log is as long as its entries exactly when none lost bytes. */
  lemma {:induction false} StreamLength(c: Codec, es: seq<LogEntry>, kept: seq<nat>)
    requires Keeps(c, es, kept)
    ensures |Stream(c, es, kept)| <= |EncodeAll(c, es)|
    ensures |Stream(c, es, kept)| == |EncodeAll(c, es)| <==> Unbroken(c, es, kept) == |es|
  {
    if es == [] {
    } else {
      hide EncodeAll;
      var n := |es| - 1;
      StreamLength(c, es[..n], kept[..n]);
      EncodeAllSnoc(c, es[..n], es[n]);
      assert es[..n] + [es[n]] == es;
    }
  }

  /** Entries that kept all their bytes are all there, at the front. */
  lemma {:induction false} WholeFront(c: Codec, es: seq<LogEntry>, kept: seq<nat>, m: nat)
    requires Keeps(c, es, kept) && m <= |es|
    requires forall i :: 0 <= i < m ==> kept[i] == |c.encode(es[i])|
    ensures EncodeAll(c, es[..m]) <= Stream(c, es, kept)
    ensures m == |es| ==> EncodeAll(c, es) == Stream(c, es, kept)
  {
    if es == [] {
    } else {
      hide EncodeAll;
      var n := |es| - 1;
      var last := c.encode(es[n])[..kept[n]];
      if m <= n {
        WholeFront(c, es[..n], kept[..n], m);
        assert es[..n][..m] == es[..m];
      } else {
        WholeFront(c, es[..n], kept[..n], n);
        assert last == c.encode(es[n]);
        EncodeAllSnoc(c, es[..n], es[n]);
        assert es[..n] + [es[n]] == es == es[..m];
      }
    }
  }

  // ---- the handler -------------------------------------------------------------

  const BUFFER_CAPACITY: nat := 8192

  /** An encoder hands over an entry in pieces, none longer than one integer. */
  const LARGEST_PIECE: nat := 8

  /** An append-mode file behind a write buffer of fixed capacity. */
  class WalHandler {
    var file: seq<byte>
    var buffer: seq<byte>

    ghost predicate Valid()
      reads this
    {
      |buffer| <= BUFFER_CAPACITY
    }

    constructor (existing: seq<byte>)
      ensures Valid() && file == existing && buffer == []
    {
      file, buffer := existing, [];
    }

    /** Hand what is pending to the device, which may accept any part of it. */
    method Flush() returns (ok: bool)
      requires Valid()
      modifies this
      ensures Valid() && |buffer| <= |old(buffer)|
      ensures file + buffer == old(file) + old(buffer) && old(file) <= file
      ensures ok <==> buffer == []
    {
      var accepted: nat :| accepted <= |buffer|;
      file, buffer := file + buffer[..accepted], buffer[accepted..];
      ok := buffer == [];
    }

    /** Buffer one piece, making room first if there is none. */
    method Put(piece: seq<byte>) returns (ok: bool)
      requires Valid() && |piece| <= LARGEST_PIECE
      modifies this
      ensures Valid() && old(file) <= file
      ensures ok ==> file + buffer == old(file) + old(buffer) + piece && |buffer| <= |old(buffer)| + |piece|
      ensures !ok ==> file + buffer == old(file) + old(buffer) && buffer != [] && |old(buffer)| + |piece| > 8192
    {
      ok := true;
      if |buffer| + |piece| > BUFFER_CAPACITY {
        ok := Flush();
        if !ok {
          return;
        }
      }
      Assoc(file, buffer, piece);
      buffer := buffer + piece;
    }

    /**
     Encode into the buffer piece by piece, then flush.  A piece the buffer has no room
     for makes it flush first, and if that fails the rest of the entry is not written.
     */
    method WriteEntry(c: Codec, e: LogEntry) returns (ok: bool, ghost kept: nat)
      requires Valid()
      modifies this
      ensures Valid() && kept <= |c.encode(e)|
      ensures file + buffer == old(file) + old(buffer) + c.encode(e)[..kept]
      ensures old(file) <= file
      ensures ok <==> buffer == []
      ensures kept < |c.encode(e)| ==> |old(buffer)| + kept + 8 > 8192 && !ok
    {
      var bytes := c.encode(e);
      var written := 0;
      ghost var start := file + buffer;
      while written < |bytes|
        invariant Valid() && written <= |bytes|
        invariant file + buffer == start + bytes[..written]
        invariant old(file) <= file && |buffer| <= |old(buffer)| + written
      {
        var size: nat :| 1 <= size <= LARGEST_PIECE && written + size <= |bytes|;
        var piece := bytes[written..written + size];
        ok := Put(piece);
        if !ok {
          kept := written;
          return;
        }
        Assoc(start, bytes[..written], piece);
        assert bytes[..written + size] == bytes[..written] + piece;
        written := written + size;
      }
      assert bytes[..written] == bytes;
      kept := written;
      ok := Flush();
    }

    /** Entries of a log file; a file that cannot be opened reads as an empty log. */
    static method ReadAll(c: Codec, path: Option<seq<byte>>) returns (entries: seq<LogEntry>)
      requires SelfDelimiting(c)
      ensures entries == if path.None? then [] else DecodeAll(c, path.value)
    {
      entries := [];
      if path.None? {
        return;
      }
      var reader := path.value;
      while true
        invariant DecodeAll(c, path.value) == entries + DecodeAll(c, reader)
        decreases |reader|
      {
        var result := c.decode(reader);
        if result.NoParse? {
          break;
        }
        entries := entries + [result.value];
        reader := reader[result.size..];
      }
    }
  }
}

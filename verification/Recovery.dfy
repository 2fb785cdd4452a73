/** A crash at any moment, and the restart after it. */
module Recovery {
  import opened Bytes
  import opened MarketTypes
  import opened Sequences
  import opened OrderBooks
  import opened Wal
  import opened Processor

  /** The file ends with a whole entry: everything in it is read. */
  ghost predicate Clean(c: Codec, file: seq<byte>)
    requires SelfDelimiting(c)
  {
    file == EncodeAll(c, DecodeAll(c, file))
  }

  lemma {:induction false} EntriesTakeRoom(c: Codec, e: LogEntry)
    requires SelfDelimiting(c)
    ensures |c.encode(e)| > 0
  {
    assert c.decode(c.encode(e) + []) == Parsed(e, |c.encode(e)|);
  }

  lemma {:induction false} WholeOnlyAtEnd(c: Codec, es: seq<LogEntry>, k: nat)
    requires SelfDelimiting(c)
    ensures Whole(c, es, k) == |es| <==> k >= |EncodeAll(c, es)|
  {
    if es == [] {
    } else {
      EntriesTakeRoom(c, es[0]);
      var n := |c.encode(es[0])|;
      assert |EncodeAll(c, es)| == n + |EncodeAll(c, es[1..])|;
      if k >= n {
        WholeOnlyAtEnd(c, es[1..], k - n);
      }
    }
  }

  /**
   Of a log partly written and then cut at byte k, the entries that are whole come back
   in order; all of them come back exactly when nothing was pending and nothing was cut.
   */
  lemma {:induction false} CutLogRecovers(c: Codec, es: seq<LogEntry>, file: seq<byte>, pending: seq<byte>, k: nat)
    requires SelfDelimiting(c)
    requires file + pending == EncodeAll(c, es) && k <= |file|
    ensures DecodeAll(c, file[..k]) == es[..Whole(c, es, k)]
    ensures Whole(c, es, k) == |es| <==> pending == [] && k == |file|
  {
    hide SelfDelimiting;
    assert EncodeAll(c, es)[..k] == file[..k];
    CutReadsPrefix(c, es, k);
    WholeOnlyAtEnd(c, es, k);
  }

  /**
   Of a log that starts with these entries, cut at byte k, those that are whole come
   back first, and nothing else unless the cut is behind all of them.
   */
  lemma {:induction false} FrontRecovers(c: Codec, front: seq<LogEntry>, file: seq<byte>, pending: seq<byte>, k: nat)
    requires SelfDelimiting(c)
    requires EncodeAll(c, front) <= file + pending && k <= |file|
    ensures var j := Whole(c, front, k);
            && front[..j] <= DecodeAll(c, file[..k])
            && (k <= |EncodeAll(c, front)| ==> DecodeAll(c, file[..k]) == front[..j])
  {
    hide SelfDelimiting;
    var bytes := EncodeAll(c, front);
    if k <= |bytes| {
      assert file[..k] == bytes[..k];
      CutReadsPrefix(c, front, k);
    } else {
      var rest := file[|bytes|..k];
      assert file[..k] == bytes + rest;
      DecodePast(c, front, rest);
      WholeOnlyAtEnd(c, front, k);
      assert front[..|front|] == front;
    }
  }

  lemma {:induction false} WholeLogIsRead(c: Codec, es: seq<LogEntry>)
    requires SelfDelimiting(c)
    ensures Unread(c, EncodeAll(c, es)) == []
  {
    if es == [] {
      NothingLeft(c);
    } else {
      var tail := EncodeAll(c, es[1..]);
      WholeLogIsRead(c, es[1..]);
      assert (c.encode(es[0]) + tail)[|c.encode(es[0])|..] == tail;
    }
  }

  // ---- a log as a processor leaves it --------------------------------------------

  /**
   What a processor that found `origin` has written, with the bytes still pending: entry
   i of `logged` with its first kept[i] bytes.
   */
  datatype Log = Log(origin: seq<byte>, logged: seq<LogEntry>, kept: seq<nat>, file: seq<byte>, pending: seq<byte>)

  ghost predicate Written(c: Codec, l: Log) {
    Keeps(c, l.logged, l.kept) && l.file + l.pending == l.origin + Stream(c, l.logged, l.kept) && l.origin <= l.file
  }

  /** Entries up to the first that lost bytes in a full write buffer. */
  ghost function Unharmed(c: Codec, l: Log): seq<LogEntry>
    requires Keeps(c, l.logged, l.kept)
  {
    l.logged[..Unbroken(c, l.logged, l.kept)]
  }

  /** The first k bytes of the file hold every entry. */
  ghost predicate AllIn(c: Codec, l: Log, k: nat)
    requires Keeps(c, l.logged, l.kept)
  {
    Unharmed(c, l) == l.logged && l.pending == [] && k == |l.file|
  }

  /**
   Reading the first k bytes: a cut within the origin gives a prefix of what the origin
   gave; a later one gives all of that again, and then reads on where reading stopped.
   */
  lemma {:induction false} Reread(c: Codec, l: Log, k: nat)
    requires SelfDelimiting(c) && Written(c, l) && k <= |l.file|
    ensures k <= |l.origin| ==> DecodeAll(c, l.file[..k]) <= DecodeAll(c, l.origin)
    ensures k >= |l.origin| ==>
              DecodeAll(c, l.file[..k]) == DecodeAll(c, l.origin) + DecodeAll(c, Unread(c, l.origin) + l.file[|l.origin|..k])
  {
    hide SelfDelimiting, DecodeAll, Unread, Keeps, Stream;
    var n := |l.origin|;
    if k <= n {
      assert l.file[..k] + l.origin[k..] == l.origin;
      ReadsOn(c, l.file[..k], l.origin[k..]);
    }
    if k >= n {
      assert l.file[..k] == l.origin + l.file[n..k];
      ReadsOn(c, l.origin, l.file[n..k]);
    }
  }

  /** Behind an origin that ends with a whole entry, the unharmed entries that are whole come next. */
  lemma {:induction false} CleanReread(c: Codec, l: Log, k: nat)
    requires SelfDelimiting(c) && Written(c, l) && |l.origin| <= k <= |l.file| && Unread(c, l.origin) == []
    ensures var front := Unharmed(c, l);
            var j := Whole(c, front, k - |l.origin|);
            && DecodeAll(c, l.origin) + front[..j] <= DecodeAll(c, l.file[..k])
            && (k - |l.origin| <= |EncodeAll(c, front)| ==> DecodeAll(c, l.file[..k]) == DecodeAll(c, l.origin) + front[..j])
  {
    hide SelfDelimiting, DecodeAll, EncodeAll, Unread, Stream;
    var n := |l.origin|;
    var m := Unbroken(c, l.logged, l.kept);
    Reread(c, l, k);
    WholeFront(c, l.logged, l.kept, m);
    var tail := l.file[n..];
    assert tail + l.pending == Stream(c, l.logged, l.kept) by {
      Assoc(l.origin, tail, l.pending);
      SameTail(l.origin, tail + l.pending, Stream(c, l.logged, l.kept));
    }
    FrontRecovers(c, Unharmed(c, l), tail, l.pending, k - n);
    assert tail[..k - n] == l.file[n..k] == [] + l.file[n..k];
  }

  /** Every entry is read back if all are in. */
  lemma {:induction false} AllInIsRead(c: Codec, l: Log, k: nat)
    requires SelfDelimiting(c) && Written(c, l) && k <= |l.file| && Unread(c, l.origin) == [] && AllIn(c, l, k)
    ensures DecodeAll(c, l.file[..k]) == DecodeAll(c, l.origin) + l.logged
  {
    hide SelfDelimiting, DecodeAll, EncodeAll, Unread, Stream;
    CleanReread(c, l, k);
    StreamLength(c, l.logged, l.kept);
    assert |Unharmed(c, l)| == Unbroken(c, l.logged, l.kept);
    assert l.file == l.file + l.pending;
    WholeOnlyAtEnd(c, l.logged, k - |l.origin|);
    assert l.logged[..|l.logged|] == l.logged;
  }

  /** Reading all of the origin takes all of its bytes. */
  lemma {:induction false} NoShorterOrigin(c: Codec, origin: seq<byte>, k: nat)
    requires SelfDelimiting(c) && Unread(c, origin) == [] && k < |origin|
    ensures DecodeAll(c, origin[..k]) != DecodeAll(c, origin)
  {
    hide SelfDelimiting;
    assert origin[..k] + origin[k..] == origin;
    ReadsOn(c, origin[..k], origin[k..]);
    var rest := Unread(c, origin[..k]) + origin[k..];
    assert Unread(c, rest) == [] && rest != [];
    assert DecodeAll(c, rest) != [];
  }

  /**
   With a compact layout, everything is read back if and only if no entry lost bytes and
   nothing is pending or cut.
   */
  lemma {:induction false} AllReadIff(c: Codec, l: Log, k: nat)
    requires SelfDelimiting(c) && Compact(c) && Written(c, l) && k <= |l.file| && Unread(c, l.origin) == []
    ensures DecodeAll(c, l.file[..k]) == DecodeAll(c, l.origin) + l.logged <==> AllIn(c, l, k)
  {
    hide SelfDelimiting, Compact, DecodeAll, EncodeAll, Unread, Stream;
    var n := |l.origin|;
    if AllIn(c, l, k) {
      AllInIsRead(c, l, k);
    }
    if DecodeAll(c, l.file[..k]) == DecodeAll(c, l.origin) + l.logged {
      Reread(c, l, k);
      if k < n {
        assert l.file[..k] == l.origin[..k];
        NoShorterOrigin(c, l.origin, k);
        assert false;
      }
      var read := l.file[n..k];
      assert Unread(c, l.origin) + read == read;
      SameTail(DecodeAll(c, l.origin), DecodeAll(c, read), l.logged);
      DecodedFits(c, read);
      StreamLength(c, l.logged, l.kept);
      assert |l.file| + |l.pending| == n + |Stream(c, l.logged, l.kept)|;
      assert l.logged[..|l.logged|] == l.logged;
    }
  }

  /**
   What the first k bytes of a log give: first the recovered and unharmed entries that
   are whole, and only those if the cut is not behind them all or nothing was damaged;
   in an undamaged log, everything exactly when nothing is pending or cut.
   */
  ghost predicate ReadsWritten(c: Codec, recovered: seq<LogEntry>, l: Log, k: nat, read: seq<LogEntry>)
    requires Keeps(c, l.logged, l.kept)
  {
    var front := recovered + Unharmed(c, l);
    var j := Whole(c, front, k);
    && front[..j] <= read
    && (k <= |EncodeAll(c, front)| ==> read == front[..j])
    && (front == recovered + l.logged ==> read == front[..j] && (read == front <==> l.pending == [] && k == |l.file|))
  }

  /** With an origin as the layout writes it, the whole log is one run of entries up to the damage. */
  lemma {:induction false} WrittenReread(c: Codec, recovered: seq<LogEntry>, l: Log, k: nat)
    requires SelfDelimiting(c) && Written(c, l) && l.origin == EncodeAll(c, recovered) && k <= |l.file|
    ensures ReadsWritten(c, recovered, l, k, DecodeAll(c, l.file[..k]))
  {
    hide SelfDelimiting, DecodeAll, EncodeAll, Stream;
    var m := Unbroken(c, l.logged, l.kept);
    var front := recovered + Unharmed(c, l);
    WholeFront(c, l.logged, l.kept, m);
    EncodeAllConcat(c, recovered, l.logged[..m]);
    FrontRecovers(c, front, l.file, l.pending, k);
    if front == recovered + l.logged {
      SameTail(recovered, Unharmed(c, l), l.logged);
      assert |Unharmed(c, l)| == m;
      CutLogRecovers(c, front, l.file, l.pending, k);
      assert front[..|front|] == front;
    }
  }

  // ---- crash and restart -------------------------------------------------------

  ghost function LogOf(p: MarketProcessor): Log
    reads p, p.wal
  {
    Log(p.origin, p.logged, p.kept, p.wal.file, p.wal.buffer)
  }

  /** The file found at start could be read. */
  ghost predicate ReadAtStart(p: MarketProcessor)
    requires p.Valid()
    reads p, p.book, p.wal
  {
    p.recovered == DecodeAll(p.codec, p.origin)
  }

  /** It could be read, and ended with a whole entry. */
  ghost predicate CleanStart(p: MarketProcessor)
    requires p.Valid()
    reads p, p.book, p.wal
  {
    ReadAtStart(p) && Unread(p.codec, p.origin) == []
  }

  /**
   Crash and restart: the new processor starts from the first k bytes of the file, and
   its book is the book after the entries it reads there.  However often that happens,
   a crash behind the bytes found at start loses nothing recovered then.  If those
   bytes ended with a whole entry, the logged entries before the first damaged one come
   next; and the new processor has every operation, if and only if none was damaged and
   nothing was pending or cut.  Then its book is the live book itself, slot for slot.
   If the bytes found at start are those the layout writes, a cut anywhere in an
   undamaged log gives exactly the operations that are whole, whatever the layout.
   */
  method Restart(p: MarketProcessor, k: nat) returns (q: MarketProcessor)
    requires p.Valid() && k <= |p.wal.file|
    ensures q.Valid() && q.codec == p.codec && q.origin == p.wal.file[..k] && ReadAtStart(q)
    ensures q.book.View() == PTB.Run(q.recovered)
    ensures ReadAtStart(p) ==> if k <= |p.origin| then q.recovered <= p.recovered else p.recovered <= q.recovered
    ensures CleanStart(p) && k >= |p.origin| ==>
              var front := Unharmed(p.codec, LogOf(p));
              var j := Whole(p.codec, front, k - |p.origin|);
              && p.recovered + front[..j] <= q.recovered
              && (k - |p.origin| <= |EncodeAll(p.codec, front)| ==> q.recovered == p.recovered + front[..j])
    ensures CleanStart(p) && Compact(p.codec) ==>
              (q.recovered == p.recovered + p.logged <==> AllIn(p.codec, LogOf(p), k))
    ensures CleanStart(p) && AllIn(p.codec, LogOf(p), k) ==>
              q.recovered == p.recovered + p.logged && q.book.State() == p.book.State()
    ensures p.origin == EncodeAll(p.codec, p.recovered) ==>
              ReadsWritten(p.codec, p.recovered, LogOf(p), k, q.recovered)
  {
    hide SelfDelimiting, Compact, ValidRep, ViewOf, PTB.Run, DecodeAll, EncodeAll, Stream, Unread, Unharmed, Whole, ReadsWritten;
    q := new MarketProcessor(p.codec, p.wal.file[..k], true);
    assert q.recovered + q.logged == q.recovered;
    if ReadAtStart(p) {
      Reread(p.codec, LogOf(p), k);
    }
    if p.origin == EncodeAll(p.codec, p.recovered) {
      WrittenReread(p.codec, p.recovered, LogOf(p), k);
    }
    if CleanStart(p) {
      if k >= |p.origin| {
        CleanReread(p.codec, LogOf(p), k);
      }
      if Compact(p.codec) {
        AllReadIff(p.codec, LogOf(p), k);
      }
      if AllIn(p.codec, LogOf(p), k) {
        AllInIsRead(p.codec, LogOf(p), k);
        ViewDeterminesRep(q.book.State(), p.book.State());
      }
    }
  }

  /** The next processor starts clean after a crash that leaves a whole log. */
  lemma {:induction false} AllInStartsClean(c: Codec, l: Log, k: nat)
    requires SelfDelimiting(c) && Written(c, l) && k <= |l.file| && Unread(c, l.origin) == [] && AllIn(c, l, k)
    ensures Unread(c, l.file[..k]) == []
  {
    hide SelfDelimiting, DecodeAll, EncodeAll, Unread, Stream;
    WholeFront(c, l.logged, l.kept, |l.logged|);
    assert l.file[..k] == l.origin + EncodeAll(c, l.logged);
    ReadsOn(c, l.origin, EncodeAll(c, l.logged));
    assert [] + EncodeAll(c, l.logged) == EncodeAll(c, l.logged);
    WholeLogIsRead(c, l.logged);
  }

  /** A cleanly started log stays clean whenever nothing is pending. */
  lemma {:induction false} StaysClean(c: Codec, origin: seq<byte>, logged: seq<LogEntry>)
    requires SelfDelimiting(c) && Clean(c, origin)
    ensures Clean(c, origin + EncodeAll(c, logged))
    ensures DecodeAll(c, origin + EncodeAll(c, logged)) == DecodeAll(c, origin) + logged
  {
    hide SelfDelimiting;
    var es := DecodeAll(c, origin);
    EncodeAllConcat(c, es, logged);
    ReadsBack(c, es + logged);
  }
}

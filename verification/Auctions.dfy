/**
 Solver auctions.  The engine keeps one open auction per intent, as a map from amount to
 the last solver that bid it.  The reference groups the bids of a whole run into spans.
 */
module Auctions {
  import opened Bytes
  import opened MarketTypes
  import opened Levels

  const AUCTION_MS: nat := 500

  datatype Auction = Auction(bids: map<u64, string>, endTime: nat)

  type Open = map<string, Auction>

  function Submit(a: Open, now: nat, solver: string, intent: string, amount: u64): Open {
    if intent in a then a[intent := a[intent].(bids := a[intent].bids[amount := solver])]
    else a[intent := Auction(map[amount := solver], now + AUCTION_MS)]
  }

  predicate Due(a: Open, now: nat, intent: string) {
    intent in a && now >= a[intent].endTime
  }

  function Remaining(a: Open, now: nat): Open {
    map intent | intent in a && !Due(a, now, intent) :: a[intent]
  }

  /** The announcement of a finished auction: its highest amount. */
  function Resolution(intent: string, auction: Auction): seq<EngineEvent> {
    if auction.bids == map[] then []
    else
      var amount := Best(Side.Bid, auction.bids.Keys);
      [IntentResolved(intent, auction.bids[amount], amount)]
  }

  // ---- runs --------------------------------------------------------------------

  datatype Input =
    | Bid(now: nat, solver: string, intent: string, amount: u64)
    | Tick(now: nat)

  function Step(a: Open, i: Input): Open {
    match i
    case Bid(now, solver, intent, amount) => Submit(a, now, solver, intent, amount)
    case Tick(now) => Remaining(a, now)
  }

  /** Open auctions after a run. */
  function Active(h: seq<Input>): Open {
    if h == [] then map[] else Step(Active(h[..|h| - 1]), h[|h| - 1])
  }

  function Announced(a: Open, i: Input, intent: string): seq<EngineEvent> {
    if i.Tick? && Due(a, i.now, intent) then Resolution(intent, a[intent]) else []
  }

  /** Everything announced for one intent in a run. */
  function Emitted(h: seq<Input>, intent: string): seq<EngineEvent> {
    if h == [] then []
    else Emitted(h[..|h| - 1], intent) + Announced(Active(h[..|h| - 1]), h[|h| - 1], intent)
  }

  // ---- the reference: spans of a run -------------------------------------------

  /** A bid of the run, with its position in it. */
  datatype SolverBid = SolverBid(at: nat, now: nat, solver: string, amount: u64)

  datatype Close = StillOpen | ClosedAt(at: nat)

  /** One auction: its bids in order, and the position of the tick that closed it. */
  datatype Span = Span(bids: seq<SolverBid>, close: Close)

  function BidOf(i: Input, at: nat, intent: string): seq<SolverBid> {
    if i.Bid? && i.intent == intent then [SolverBid(at, i.now, i.solver, i.amount)] else []
  }

  /** All bids for the intent in a run. */
  function BidsOf(h: seq<Input>, intent: string): seq<SolverBid> {
    if h == [] then [] else BidsOf(h[..|h| - 1], intent) + BidOf(h[|h| - 1], |h| - 1, intent)
  }

  function AllBids(spans: seq<Span>): seq<SolverBid> {
    if spans == [] then [] else AllBids(spans[..|spans| - 1]) + spans[|spans| - 1].bids
  }

  ghost predicate InOrder(bids: seq<SolverBid>) {
    forall i, j :: 0 <= i < j < |bids| ==> bids[i].at < bids[j].at
  }

  function EndTime(s: Span): nat
    requires s.bids != []
  {
    s.bids[0].now + 500
  }

  /** No tick in positions lo .. hi - 1 reached the end time. */
  ghost predicate Quiet(h: seq<Input>, lo: nat, hi: nat, end: nat) {
    forall k :: lo <= k < hi && k < |h| && h[k].Tick? ==> h[k].now < end
  }

  /** An auction ends at the first tick at or after its end time. */
  ghost predicate SpanOk(h: seq<Input>, s: Span) {
    && s.bids != [] && InOrder(s.bids) && s.bids[|s.bids| - 1].at < |h|
    && match s.close
       case StillOpen => Quiet(h, s.bids[0].at, |h|, EndTime(s))
       case ClosedAt(c) =>
         && s.bids[|s.bids| - 1].at < c < |h|
         && h[c].Tick? && h[c].now >= EndTime(s)
         && Quiet(h, s.bids[0].at, c, EndTime(s))
  }

  ghost predicate Follows(s: Span, next: Span) {
    s.close.ClosedAt? && next.bids != [] && s.close.at < next.bids[0].at
  }

  /** Spans follow each other, only the last may be open, and they share out all bids. */
  ghost predicate Partition(h: seq<Input>, intent: string, spans: seq<Span>) {
    && (forall i :: 0 <= i < |spans| ==> SpanOk(h, spans[i]))
    && (forall i :: 0 <= i < |spans| - 1 ==> Follows(spans[i], spans[i + 1]))
    && AllBids(spans) == BidsOf(h, intent)
  }

  /** The winning bid: the largest amount, and the last to bid it. */
  ghost predicate Wins(bids: seq<SolverBid>, w: SolverBid) {
    && w in bids
    && forall b :: b in bids ==> b.amount < w.amount || (b.amount == w.amount && b.at <= w.at)
  }

  /** The announcement made for a span names its winning bid. */
  ghost predicate Announces(intent: string, s: Span, e: EngineEvent) {
    exists w :: Wins(s.bids, w) && e == IntentResolved(intent, w.solver, w.amount)
  }

  predicate IsOpen(spans: seq<Span>) {
    spans != [] && spans[|spans| - 1].close.StillOpen?
  }

  function ClosedSpans(spans: seq<Span>): seq<Span> {
    if IsOpen(spans) then spans[..|spans| - 1] else spans
  }

  /** Amount to last solver: what the engine's map makes of a list of bids. */
  function LastSolvers(bids: seq<SolverBid>): map<u64, string> {
    if bids == [] then map[]
    else LastSolvers(bids[..|bids| - 1])[bids[|bids| - 1].amount := bids[|bids| - 1].solver]
  }

  ghost predicate Tracks(s: Span, a: Auction) {
    s.bids != [] && a == Auction(LastSolvers(s.bids), EndTime(s))
  }

  ghost predicate AllAnnounced(intent: string, spans: seq<Span>, events: seq<EngineEvent>) {
    && |events| == |spans|
    && forall i :: 0 <= i < |spans| ==> Announces(intent, spans[i], events[i])
  }

  /** What the engine's state and output say about the spans of a run. */
  ghost predicate Mirrors(h: seq<Input>, intent: string, spans: seq<Span>) {
    && Partition(h, intent, spans)
    && (intent in Active(h) <==> IsOpen(spans))
    && (IsOpen(spans) ==> Tracks(spans[|spans| - 1], Active(h)[intent]))
    && AllAnnounced(intent, ClosedSpans(spans), Emitted(h, intent))
  }

  // ---- the map keeps the winner ------------------------------------------------

  lemma {:induction false} LastSolverOf(bids: seq<SolverBid>, x: u64) returns (b: SolverBid)
    requires InOrder(bids) && x in LastSolvers(bids)
    ensures b in bids && b.amount == x && b.solver == LastSolvers(bids)[x]
    ensures forall c :: c in bids && c.amount == x ==> c.at <= b.at
  {
    var n := |bids| - 1;
    b := bids[n];
    if b.amount == x {
    } else {
      b := LastSolverOf(bids[..n], x);
      assert bids == bids[..n] + [bids[n]];
    }
  }

  lemma {:induction false} AmountKept(bids: seq<SolverBid>, b: SolverBid)
    requires b in bids
    ensures b.amount in LastSolvers(bids)
  {
    var n := |bids| - 1;
    assert bids == bids[..n] + [bids[n]];
    if b == bids[n] {
    } else {
      AmountKept(bids[..n], b);
    }
  }

  /** Announcing the largest key of the map announces the winning bid. */
  lemma {:induction false} ResolutionAnnounces(intent: string, s: Span)
    requires s.bids != [] && InOrder(s.bids)
    ensures var r := Resolution(intent, Auction(LastSolvers(s.bids), EndTime(s)));
            |r| == 1 && Announces(intent, s, r[0])
  {
    var m := LastSolvers(s.bids);
    AmountKept(s.bids, s.bids[0]);
    var amount := Best(Side.Bid, m.Keys);
    var w := LastSolverOf(s.bids, amount);
    forall b | b in s.bids ensures b.amount < w.amount || (b.amount == w.amount && b.at <= w.at) {
      AmountKept(s.bids, b);
    }
    assert Wins(s.bids, w);
  }

  // ---- one more input ----------------------------------------------------------

  lemma {:induction false} Grows(h: seq<Input>, i: Input, intent: string)
    ensures Active(h + [i]) == Step(Active(h), i)
    ensures Emitted(h + [i], intent) == Emitted(h, intent) + Announced(Active(h), i, intent)
    ensures BidsOf(h + [i], intent) == BidsOf(h, intent) + BidOf(i, |h|, intent)
  {
    assert (h + [i])[..|h|] == h;
  }

  lemma {:induction false} SpanKept(h: seq<Input>, i: Input, s: Span)
    requires SpanOk(h, s)
    requires s.close.StillOpen? && i.Tick? ==> i.now < EndTime(s)
    ensures SpanOk(h + [i], s)
  {
    assert forall k :: 0 <= k < |h| ==> (h + [i])[k] == h[k];
  }

  /** All spans but an open last one outlive any input. */
  lemma {:induction false} ClosedKept(h: seq<Input>, i: Input, spans: seq<Span>)
    requires forall k :: 0 <= k < |spans| ==> SpanOk(h, spans[k]) && spans[k].close.ClosedAt?
    ensures forall k :: 0 <= k < |spans| ==> SpanOk(h + [i], spans[k])
  {
  }

  lemma {:induction false} ClosedOnes(h: seq<Input>, intent: string, spans: seq<Span>)
    requires Partition(h, intent, spans)
    ensures forall k :: 0 <= k < |ClosedSpans(spans)| ==> SpanOk(h, spans[k]) && spans[k].close.ClosedAt?
  {
    hide SpanOk;
    forall k | 0 <= k < |ClosedSpans(spans)| ensures spans[k].close.ClosedAt? {
      if k < |spans| - 1 { assert Follows(spans[k], spans[k + 1]); }
    }
  }

  /** An input that opens, extends or closes nothing for this intent. */
  lemma {:induction false} Unrelated(h: seq<Input>, i: Input, intent: string, spans: seq<Span>)
    requires Mirrors(h, intent, spans)
    requires !(i.Bid? && i.intent == intent) && (i.Tick? ==> !Due(Active(h), i.now, intent))
    ensures Mirrors(h + [i], intent, spans)
  {
    hide SpanOk, AllAnnounced, AllBids, Follows, LastSolvers;
    Grows(h, i, intent);
    ClosedOnes(h, intent, spans);
    ClosedKept(h, i, ClosedSpans(spans));
    if IsOpen(spans) {
      SpanKept(h, i, spans[|spans| - 1]);
    }
    assert Emitted(h, intent) + [] == Emitted(h, intent);
    forall k | 0 <= k < |spans| ensures SpanOk(h + [i], spans[k]) {
      if k < |ClosedSpans(spans)| { assert ClosedSpans(spans)[k] == spans[k]; }
    }
  }

  /** s takes over from an open last span, or comes after the closed ones. */
  ghost predicate Continues(h: seq<Input>, spans: seq<Span>, e: seq<SolverBid>, s: Span) {
    if IsOpen(spans) then s.bids == spans[|spans| - 1].bids + e
    else s.bids == e && e != [] && e[0].at == |h|
  }

  lemma {:induction false} AssembleFollows(h: seq<Input>, intent: string, spans: seq<Span>, e: seq<SolverBid>, s: Span)
    requires Partition(h, intent, spans) && Continues(h, spans, e, s)
    ensures var spans' := ClosedSpans(spans) + [s];
            forall k :: 0 <= k < |spans'| - 1 ==> Follows(spans'[k], spans'[k + 1])
  {
    hide AllBids, BidsOf, Quiet, InOrder;
  }

  lemma {:induction false} AssembleBids(h: seq<Input>, intent: string, spans: seq<Span>, e: seq<SolverBid>, s: Span)
    requires AllBids(spans) == BidsOf(h, intent) && Continues(h, spans, e, s)
    ensures AllBids(ClosedSpans(spans) + [s]) == BidsOf(h, intent) + e
  {
  }

  /** Replacing the last span, or adding one. */
  lemma {:induction false} Assemble(h: seq<Input>, i: Input, intent: string, spans: seq<Span>, s: Span)
    requires Partition(h, intent, spans)
    requires SpanOk(h + [i], s)
    requires Continues(h, spans, BidOf(i, |h|, intent), s)
    ensures Partition(h + [i], intent, ClosedSpans(spans) + [s])
  {
    hide SpanOk, AllBids, BidsOf, Follows, Continues;
    Grows(h, i, intent);
    ClosedOnes(h, intent, spans);
    ClosedKept(h, i, ClosedSpans(spans));
    AssembleFollows(h, intent, spans, BidOf(i, |h|, intent), s);
    AssembleBids(h, intent, spans, BidOf(i, |h|, intent), s);
  }

  /** A closed last span closed before now. */
  lemma {:induction false} LastCloses(h: seq<Input>, intent: string, spans: seq<Span>)
    requires Partition(h, intent, spans) && spans != []
    ensures SpanOk(h, spans[|spans| - 1])
    ensures spans[|spans| - 1].close.ClosedAt? ==> spans[|spans| - 1].close.at < |h|
    ensures spans[|spans| - 1].bids != []
  {
  }

  lemma {:induction false} ExtendedSpan(h: seq<Input>, i: Input, s: Span, e: SolverBid)
    requires SpanOk(h, s) && s.close.StillOpen? && i.Bid? && e.at == |h|
    ensures SpanOk(h + [i], Span(s.bids + [e], StillOpen))
  {
    SpanKept(h, i, s);
  }

  lemma {:induction false} FirstBid(h: seq<Input>, i: Input, e: SolverBid)
    requires i.Bid? && e.at == |h|
    ensures SpanOk(h + [i], Span([e], StillOpen))
  {
  }

  /** The engine's map after one more bid is the map of one more bid. */
  lemma {:induction false} BidTracked(a: Open, s: Span, i: Input, e: SolverBid)
    requires i.Bid? && e.solver == i.solver && e.amount == i.amount && e.now == i.now
    ensures i.intent in a && Tracks(s, a[i.intent]) ==> Tracks(Span(s.bids + [e], StillOpen), Step(a, i)[i.intent])
    ensures i.intent !in a ==> Tracks(Span([e], StillOpen), Step(a, i)[i.intent])
  {
  }

  lemma {:induction false} NewBid(h: seq<Input>, i: Input, intent: string, spans: seq<Span>) returns (spans': seq<Span>)
    requires Mirrors(h, intent, spans)
    requires i.Bid? && i.intent == intent
    ensures Mirrors(h + [i], intent, spans')
  {
    hide AllAnnounced, Partition, SpanOk, Tracks, Emitted, Active, BidsOf;
    Grows(h, i, intent);
    var e := SolverBid(|h|, i.now, i.solver, i.amount);
    var last := if IsOpen(spans) then spans[|spans| - 1] else Span([], StillOpen);
    var s := Span(last.bids + [e], StillOpen);
    if IsOpen(spans) {
      LastCloses(h, intent, spans);
      ExtendedSpan(h, i, last, e);
    } else {
      FirstBid(h, i, e);
      assert [] + [e] == [e];
    }
    BidTracked(Active(h), last, i, e);
    Assemble(h, i, intent, spans, s);
    spans' := ClosedSpans(spans) + [s];
    assert ClosedSpans(spans') == ClosedSpans(spans);
    assert Emitted(h, intent) + [] == Emitted(h, intent);
  }

  lemma {:induction false} SpanClosed(h: seq<Input>, i: Input, s: Span)
    requires SpanOk(h, s) && s.close.StillOpen? && i.Tick? && i.now >= EndTime(s)
    ensures SpanOk(h + [i], s.(close := ClosedAt(|h|)))
    ensures InOrder(s.bids)
  {
    assert forall k :: 0 <= k < |h| ==> (h + [i])[k] == h[k];
  }

  lemma {:induction false} DueTick(h: seq<Input>, i: Input, intent: string, spans: seq<Span>) returns (spans': seq<Span>)
    requires Mirrors(h, intent, spans)
    requires i.Tick? && Due(Active(h), i.now, intent)
    ensures Mirrors(h + [i], intent, spans')
  {
    hide AllBids, Follows, LastSolvers, Announces, SpanOk, BidsOf;
    Grows(h, i, intent);
    var last := spans[|spans| - 1];
    var s := last.(close := ClosedAt(|h|));
    LastCloses(h, intent, spans);
    SpanClosed(h, i, last);
    assert s.bids == last.bids + BidOf(i, |h|, intent);
    Assemble(h, i, intent, spans, s);
    spans' := ClosedSpans(spans) + [s];
    ResolutionAnnounces(intent, s);
    var r := Resolution(intent, Active(h)[intent]);
    assert ClosedSpans(spans') == spans';
    assert Emitted(h + [i], intent) == Emitted(h, intent) + r;
  }

  /**
   Every run: the bids of an intent fall into consecutive auctions, each closed by the
   first tick at or after its end, and the announcements are exactly one per closed
   auction, in order, each naming that auction's winning bid.
   */
  lemma {:induction false} AuctionOutcome(h: seq<Input>, intent: string) returns (spans: seq<Span>)
    ensures Mirrors(h, intent, spans)
  {
    if h == [] {
      spans := [];
    } else {
      var g, i := h[..|h| - 1], h[|h| - 1];
      assert h == g + [i];
      spans := AuctionOutcome(g, intent);
      if i.Bid? && i.intent == intent {
        spans := NewBid(g, i, intent, spans);
      } else if i.Tick? && Due(Active(g), i.now, intent) {
        spans := DueTick(g, i, intent, spans);
      } else {
        Unrelated(g, i, intent, spans);
      }
    }
  }
}

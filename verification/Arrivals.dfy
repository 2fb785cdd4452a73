/** Time priority over whole histories: who arrived first is served first. */
module Arrivals {
  import opened MarketTypes
  import opened PriceTimeBook
  import opened Matching
  import opened Histories

  /** Quantity of a placed order that its matching leaves over. */
  function LeftOver(b: Book, e: LogEntry): Quantity
    requires e.Place?
  {
    var t := Taker(e.orderId, e.userId, e.side, e.price);
    Match(t, b.On(t.side.Opposite()), b.free, e.quantity).left
  }

  function AfterMatching(b: Book, e: LogEntry): Book
    requires e.Place?
  {
    Matched(b, Taker(e.orderId, e.userId, e.side, e.price), e.quantity)
  }

  /** For each slot ever filled, the position in the history of the last order put there. */
  function Arrived(h: seq<LogEntry>): map<nat, nat> {
    if h == [] then map[]
    else
      var n := |h| - 1;
      var b := Run(h[..n]);
      if h[n].Place? && LeftOver(b, h[n]) > 0
      then Arrived(h[..n])[NextSlot(AfterMatching(b, h[n])) := n]
      else Arrived(h[..n])
  }

  /** A resting order is what is left of the placement its slot remembers. */
  ghost predicate Genuine(h: seq<LogEntry>, when: map<nat, nat>, r: Resting) {
    && r.slot in when
    && when[r.slot] < |h|
    && var e := h[when[r.slot]];
    && e.Place? && e.orderId == r.order.id && e.userId == r.order.user
    && e.side == r.order.side && e.price == r.order.price
    && r.order.quantity <= e.quantity
  }

  ghost predicate AllGenuine(h: seq<LogEntry>, when: map<nat, nat>, q: seq<Resting>) {
    forall i :: 0 <= i < |q| ==> Genuine(h, when, q[i])
  }

  ghost predicate Before(side: Side, when: map<nat, nat>, r: Resting, s: Resting)
    requires r.slot in when && s.slot in when
  {
    || (side.Bid? && r.order.price > s.order.price)
    || (side.Ask? && r.order.price < s.order.price)
    || (r.order.price == s.order.price && when[r.slot] < when[s.slot])
  }

  /** Highest bid and lowest ask first; within a price, earlier arrival first. */
  ghost predicate PriceTimeSorted(h: seq<LogEntry>, side: Side, when: map<nat, nat>, q: seq<Resting>) {
    && AllGenuine(h, when, q)
    && forall i, j :: 0 <= i < j < |q| ==> Before(side, when, q[i], q[j])
  }

  lemma {:induction false} ThinnedPriceTime(h: seq<LogEntry>, side: Side, when: map<nat, nat>, q': seq<Resting>, q: seq<Resting>)
    requires Thinned(q', q) && PriceTimeSorted(h, side, when, q)
    ensures PriceTimeSorted(h, side, when, q')
  {
  }

  /** A longer history and a remembered slot nobody uses change nothing. */
  lemma {:induction false} ExtendedPriceTime(h: seq<LogEntry>, e: LogEntry, side: Side, when: map<nat, nat>, slot: nat, q: seq<Resting>)
    requires PriceTimeSorted(h, side, when, q)
    requires Uses(q, slot) == 0
    ensures PriceTimeSorted(h + [e], side, when, q)
    ensures PriceTimeSorted(h + [e], side, when[slot := |h|], q)
  {
    forall i | 0 <= i < |q|
      ensures q[i].slot != slot
      ensures Genuine(h + [e], when, q[i]) && Genuine(h + [e], when[slot := |h|], q[i])
    {
      UsesMember(q, i);
      assert Genuine(h, when, q[i]);
      assert (h + [e])[when[q[i].slot]] == h[when[q[i].slot]];
    }
  }

  /** The newcomer goes behind all that are not worse and before all that are. */
  lemma {:induction false} NewcomerPlace(h: seq<LogEntry>, when: map<nat, nat>, q: seq<Resting>, r: Resting, k: nat, i: nat)
    requires PriceTimeSorted(h, r.order.side, when, q) && Sorted(r.order.side, q)
    requires Uses(q, r.slot) == 0 && k <= |q| && i < |q|
    requires forall j :: 0 <= j < k ==> !Better(r.order.side, r.order.price, q[j].order.price)
    requires k < |q| ==> Better(r.order.side, r.order.price, q[k].order.price)
    ensures q[i].slot in when && q[i].slot != r.slot
    ensures var when' := when[r.slot := |h|];
            if i < k then Before(r.order.side, when', q[i], r) else Before(r.order.side, when', r, q[i])
  {
    UsesMember(q, i);
    assert Genuine(h, when, q[i]);
    if i >= k {
      assert i == k || !Better(r.order.side, q[i].order.price, q[k].order.price);
    }
  }

  lemma {:induction false} InsertPriceTime(h: seq<LogEntry>, e: LogEntry, when: map<nat, nat>, q: seq<Resting>, r: Resting)
    requires PriceTimeSorted(h, r.order.side, when, q) && Sorted(r.order.side, q)
    requires Uses(q, r.slot) == 0
    requires Genuine(h + [e], when[r.slot := |h|], r)
    ensures PriceTimeSorted(h + [e], r.order.side, when[r.slot := |h|], Insert(q, r))
  {
    var side, when' := r.order.side, when[r.slot := |h|];
    ExtendedPriceTime(h, e, side, when, r.slot, q);
    var k := InsertPosition(q, r);
    forall i | 0 <= i < |q|
      ensures q[i].slot in when'
      ensures if i < k then Before(side, when', q[i], r) else Before(side, when', r, q[i])
    {
      NewcomerPlace(h, when, q, r, k, i);
    }
    hide Before, Genuine, Sorted, Uses, Insert;
    var q' := q[..k] + [r] + q[k..];
    forall i | 0 <= i < |q'| ensures Genuine(h + [e], when', q'[i]) {
      assert q'[i] == if i < k then q[i] else if i == k then r else q[i - 1];
    }
    forall i, j | 0 <= i < j < |q'| ensures q'[i].slot in when' && q'[j].slot in when' && Before(side, when', q'[i], q'[j]) {
      assert q'[i] == if i < k then q[i] else if i == k then r else q[i - 1];
      assert q'[j] == if j < k then q[j] else if j == k then r else q[j - 1];
    }
  }

  ghost predicate BookPriceTime(h: seq<LogEntry>, when: map<nat, nat>, b: Book) {
    PriceTimeSorted(h, Bid, when, b.bids) && PriceTimeSorted(h, Ask, when, b.asks)
  }

  lemma {:induction false} RestPriceTime(h: seq<LogEntry>, e: LogEntry, when: map<nat, nat>, m: Book, left: Quantity)
    requires Inv(m) && BookPriceTime(h, when, m)
    requires e.Place? && 0 < left <= e.quantity
    ensures var o := Order(e.orderId, e.userId, e.price, left, e.side);
            BookPriceTime(h + [e], when[NextSlot(m) := |h|], Rest(m, o))
  {
    hide PriceTimeSorted, Sorted;
    var o := Order(e.orderId, e.userId, e.price, left, e.side);
    var slot := NextSlot(m);
    NextSlotFresh(m);
    var other := e.side.Opposite();
    assert PriceTimeSorted(h, e.side, when, m.On(e.side)) && PriceTimeSorted(h, other, when, m.On(other));
    assert Sorted(e.side, m.On(e.side));
    InsertPriceTime(h, e, when, m.On(e.side), Resting(slot, o));
    ExtendedPriceTime(h, e, other, when, slot, m.On(other));
  }

  lemma {:induction false} PlacePriceTime(h: seq<LogEntry>, e: LogEntry, when: map<nat, nat>, b: Book)
    requires Inv(b) && BookPriceTime(h, when, b) && e.Place?
    ensures BookPriceTime(h + [e],
                          if LeftOver(b, e) > 0 then when[NextSlot(AfterMatching(b, e)) := |h|] else when,
                          Apply(b, e).book)
  {
    hide PriceTimeSorted, Thinned, Match, Slotted;
    var t := Taker(e.orderId, e.userId, e.side, e.price);
    var m := AfterMatching(b, e);
    MatchedThins(b, t, e.quantity);
    MatchedInv(b, t, e.quantity);
    ThinnedPriceTime(h, Bid, when, m.bids, b.bids);
    ThinnedPriceTime(h, Ask, when, m.asks, b.asks);
    NextSlotFresh(m);
    TradedIsSpent(t, b.On(e.side.Opposite()), b.free, e.quantity);
    if LeftOver(b, e) > 0 {
      RestPriceTime(h, e, when, m, LeftOver(b, e));
    } else {
      ExtendedPriceTime(h, e, Bid, when, NextSlot(m), m.bids);
      ExtendedPriceTime(h, e, Ask, when, NextSlot(m), m.asks);
    }
  }

  lemma {:induction false} CancelPriceTime(h: seq<LogEntry>, e: LogEntry, when: map<nat, nat>, b: Book)
    requires Inv(b) && BookPriceTime(h, when, b) && e.Cancel?
    ensures BookPriceTime(h + [e], when, Apply(b, e).book)
  {
    hide PriceTimeSorted, Thinned;
    NextSlotFresh(b);
    ExtendedPriceTime(h, e, Bid, when, NextSlot(b), b.bids);
    ExtendedPriceTime(h, e, Ask, when, NextSlot(b), b.asks);
    if Cancels(b, e.orderId, e.userId) {
      var s := b.index[e.orderId];
      WithoutThins(b.bids, s);
      WithoutThins(b.asks, s);
      ThinnedPriceTime(h + [e], Bid, when, WithoutSlot(b.bids, s), b.bids);
      ThinnedPriceTime(h + [e], Ask, when, WithoutSlot(b.asks, s), b.asks);
    }
  }

  /** After any history both sides are in price-time order, by true time of arrival. */
  lemma {:induction false} AlwaysPriceTimeSorted(h: seq<LogEntry>)
    ensures PriceTimeSorted(h, Bid, Arrived(h), Run(h).bids)
    ensures PriceTimeSorted(h, Ask, Arrived(h), Run(h).asks)
  {
    if h == [] {
    } else {
      var n := |h| - 1;
      var g, e := h[..n], h[n];
      AlwaysPriceTimeSorted(g);
      RunInv(g);
      assert h == g + [e];
      if e.Place? {
        PlacePriceTime(g, e, Arrived(g), Run(g));
      } else {
        CancelPriceTime(g, e, Arrived(g), Run(g));
      }
    }
  }
}

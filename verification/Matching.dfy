/**
 What the matcher achieves, stated by position in the queue instead of by walking it:
 an order at position i only depends on how much eligible quantity lies before it.
 */
module Matching {
  import opened Bytes
  import opened MarketTypes
  import opened Sequences
  import opened PriceTimeBook

  /** No order is ahead of one with a better price. */
  ghost predicate Sorted(side: Side, q: seq<Resting>) {
    forall i, j :: 0 <= i < j < |q| ==> !Better(side, q[j].order.price, q[i].order.price)
  }

  ghost predicate Positive(q: seq<Resting>) {
    forall i :: 0 <= i < |q| ==> q[i].order.quantity > 0
  }

  /** A buyer pays at most its limit, a seller gets at least its limit. */
  predicate WithinLimit(t: Taker, price: Price) {
    match t.side
    case Bid => price <= t.price
    case Ask => t.price <= price
  }

  /** Same-user orders are not traded with. */
  predicate Eligible(t: Taker, r: Resting) {
    WithinLimit(t, r.order.price) && r.order.user != t.user
  }

  function Offer(t: Taker, r: Resting): nat {
    if Eligible(t, r) then r.order.quantity else 0
  }

  /** Total quantity this taker could trade with. */
  function Liquidity(t: Taker, q: seq<Resting>): nat {
    if q == [] then 0 else Offer(t, q[0]) + Liquidity(t, q[1..])
  }

  function Monus(a: nat, b: nat): nat {
    if b <= a then a - b else 0
  }

  // ---- the fate of position i --------------------------------------------------

  /** Quantity traded with the order at position i. */
  function Filled(t: Taker, q: seq<Resting>, i: nat, quantity: nat): nat
    requires i < |q|
  {
    Min(Offer(t, q[i]), Monus(quantity, Liquidity(t, q[..i])))
  }

  /** The taker's own order at position i is met before the quantity runs out. */
  predicate SelfCancelled(t: Taker, q: seq<Resting>, i: nat, quantity: nat)
    requires i < |q|
  {
    WithinLimit(t, q[i].order.price) && q[i].order.user == t.user && Liquidity(t, q[..i]) < quantity
  }

  function Survivor(t: Taker, q: seq<Resting>, i: nat, quantity: nat): seq<Resting>
    requires i < |q|
  {
    var fill := Filled(t, q, i, quantity);
    if SelfCancelled(t, q, i, quantity) || (Eligible(t, q[i]) && fill == q[i].order.quantity) then []
    else [Resting(q[i].slot, q[i].order.(quantity := q[i].order.quantity - fill))]
  }

  function EventOf(t: Taker, q: seq<Resting>, i: nat, quantity: nat): seq<EngineEvent>
    requires i < |q|
  {
    if SelfCancelled(t, q, i, quantity) then [OrderCancelled(q[i].order.id)]
    else if Filled(t, q, i, quantity) > 0 then
      [TradeExecuted(q[i].order.id, t.id, q[i].order.price, Filled(t, q, i, quantity))]
    else []
  }

  function Survivors(t: Taker, q: seq<Resting>, k: nat, quantity: nat): seq<Resting>
    requires k <= |q|
  {
    if k == 0 then [] else Survivors(t, q, k - 1, quantity) + Survivor(t, q, k - 1, quantity)
  }

  function Stream(t: Taker, q: seq<Resting>, k: nat, quantity: nat): seq<EngineEvent>
    requires k <= |q|
  {
    if k == 0 then [] else Stream(t, q, k - 1, quantity) + EventOf(t, q, k - 1, quantity)
  }

  /** Slots vacated by the first k positions, the last one on top. */
  function Vacated(t: Taker, q: seq<Resting>, k: nat, quantity: nat): seq<nat>
    requires k <= |q|
  {
    if k == 0 then []
    else (if Survivor(t, q, k - 1, quantity) == [] then [q[k - 1].slot] else []) + Vacated(t, q, k - 1, quantity)
  }

  // ---- moving the head of the queue away ---------------------------------------

  /** Position i + 1 of q fares as position i of its tail, once the head has taken its share. */
  lemma {:induction false} Shift(t: Taker, q: seq<Resting>, i: nat, quantity: nat)
    requires i + 1 < |q|
    ensures var left := Monus(quantity, Offer(t, q[0]));
            && Filled(t, q, i + 1, quantity) == Filled(t, q[1..], i, left)
            && (SelfCancelled(t, q, i + 1, quantity) <==> SelfCancelled(t, q[1..], i, left))
            && Survivor(t, q, i + 1, quantity) == Survivor(t, q[1..], i, left)
            && EventOf(t, q, i + 1, quantity) == EventOf(t, q[1..], i, left)
  {
    assert q[..i + 1][1..] == q[1..][..i];
    assert Liquidity(t, q[..i + 1]) == Offer(t, q[0]) + Liquidity(t, q[1..][..i]);
  }

  lemma {:induction false} ShiftAll(t: Taker, q: seq<Resting>, k: nat, quantity: nat)
    requires k + 1 <= |q|
    ensures var left := Monus(quantity, Offer(t, q[0]));
            && Survivors(t, q, k + 1, quantity) == Survivor(t, q, 0, quantity) + Survivors(t, q[1..], k, left)
            && Stream(t, q, k + 1, quantity) == EventOf(t, q, 0, quantity) + Stream(t, q[1..], k, left)
            && Vacated(t, q, k + 1, quantity)
               == Vacated(t, q[1..], k, left) + (if Survivor(t, q, 0, quantity) == [] then [q[0].slot] else [])
  {
    hide Survivor, EventOf;
    if k == 0 {
    } else {
      var left := Monus(quantity, Offer(t, q[0]));
      ShiftAll(t, q, k - 1, quantity);
      Shift(t, q, k - 1, quantity);
      Assoc(Survivor(t, q, 0, quantity), Survivors(t, q[1..], k - 1, left), Survivor(t, q, k, quantity));
      Assoc(EventOf(t, q, 0, quantity), Stream(t, q[1..], k - 1, left), EventOf(t, q, k, quantity));
      var gone := if Survivor(t, q, k, quantity) == [] then [q[k].slot] else [];
      var first := if Survivor(t, q, 0, quantity) == [] then [q[0].slot] else [];
      Assoc(gone, Vacated(t, q[1..], k - 1, left), first);
    }
  }

  lemma {:induction false} IdleAt(t: Taker, q: seq<Resting>, i: nat, quantity: nat)
    requires i < |q| && q[i].order.quantity > 0
    requires quantity == 0 || !Acceptable(t, q[i].order.price)
    ensures Survivor(t, q, i, quantity) == [q[i]]
    ensures EventOf(t, q, i, quantity) == []
  {
    assert q[i] == Resting(q[i].slot, q[i].order.(quantity := q[i].order.quantity));
  }

  /** Nothing happens to a queue the taker cannot or need not trade with. */
  lemma {:induction false} Idle(t: Taker, q: seq<Resting>, k: nat, quantity: nat)
    requires k <= |q|
    requires quantity == 0 || forall i :: 0 <= i < |q| ==> !Acceptable(t, q[i].order.price)
    requires Positive(q)
    ensures Survivors(t, q, k, quantity) == q[..k]
    ensures Stream(t, q, k, quantity) == []
    ensures Vacated(t, q, k, quantity) == []
  {
    hide Survivor, EventOf;
    if k == 0 {
    } else {
      Idle(t, q, k - 1, quantity);
      IdleAt(t, q, k - 1, quantity);
      assert q[..k] == q[..k - 1] + [q[k - 1]];
    }
  }

  lemma {:induction false} NoLiquidity(t: Taker, q: seq<Resting>)
    requires forall i :: 0 <= i < |q| ==> !Acceptable(t, q[i].order.price)
    ensures Liquidity(t, q) == 0
  {
    if q == [] {
    } else {
      NoLiquidity(t, q[1..]);
    }
  }

  // ---- the walk computes the closed form ---------------------------------------

  /** When the walk stops, no position is left to act on. */
  lemma {:induction false} StopsIdle(t: Taker, q: seq<Resting>, quantity: nat)
    requires Sorted(t.side.Opposite(), q) && Positive(q)
    requires quantity == 0 || q == [] || !Acceptable(t, q[0].order.price)
    ensures Survivors(t, q, |q|, quantity) == q
    ensures Stream(t, q, |q|, quantity) == []
    ensures Vacated(t, q, |q|, quantity) == []
    ensures Min(quantity, Liquidity(t, q)) == 0
  {
    if q != [] && quantity > 0 {
      forall i | 0 <= i < |q| ensures !Acceptable(t, q[i].order.price) {
        assert i == 0 || !Better(t.side.Opposite(), q[i].order.price, q[0].order.price);
      }
      NoLiquidity(t, q);
    }
    Idle(t, q, |q|, quantity);
    assert q[..|q|] == q;
  }

  /** The head's own fate: nothing lies before it. */
  lemma {:induction false} HeadFate(t: Taker, q: seq<Resting>, quantity: nat)
    requires q != [] && quantity > 0 && q[0].order.quantity > 0 && Acceptable(t, q[0].order.price)
    ensures var m := q[0].order;
            if m.user == t.user then
              Survivor(t, q, 0, quantity) == [] && EventOf(t, q, 0, quantity) == [OrderCancelled(m.id)]
            else if m.quantity <= quantity then
              && Survivor(t, q, 0, quantity) == []
              && EventOf(t, q, 0, quantity) == [TradeExecuted(m.id, t.id, m.price, m.quantity)]
            else
              && Survivor(t, q, 0, quantity) == [Resting(q[0].slot, m.(quantity := m.quantity - quantity))]
              && EventOf(t, q, 0, quantity) == [TradeExecuted(m.id, t.id, m.price, quantity)]
  {
    assert q[..0] == [];
  }

  lemma {:induction false} TailOk(t: Taker, q: seq<Resting>)
    requires q != [] && Sorted(t.side.Opposite(), q) && Positive(q)
    ensures Sorted(t.side.Opposite(), q[1..]) && Positive(q[1..]) && q[0].order.quantity > 0
  {
  }

  /** The result by position. */
  function ClosedForm(t: Taker, q: seq<Resting>, free: seq<nat>, quantity: Quantity): Fill {
    Fill(Survivors(t, q, |q|, quantity), Vacated(t, q, |q|, quantity) + free,
         quantity - Min(quantity, Liquidity(t, q)), Stream(t, q, |q|, quantity))
  }

  /** The head leaves the queue, cancelled or filled. */
  lemma {:induction false} ClosedFormPop(t: Taker, q: seq<Resting>, free: seq<nat>, quantity: Quantity)
    requires q != [] && quantity > 0 && q[0].order.quantity > 0 && Acceptable(t, q[0].order.price)
    requires q[0].order.user == t.user || q[0].order.quantity <= quantity
    ensures Offer(t, q[0]) <= quantity
    ensures var m := q[0].order;
            var e := if m.user == t.user then OrderCancelled(m.id) else TradeExecuted(m.id, t.id, m.price, m.quantity);
            ClosedForm(t, q, free, quantity)
            == Prepend([e], ClosedForm(t, q[1..], [q[0].slot] + free, quantity - Offer(t, q[0])))
  {
    hide Survivor, EventOf, Survivors, Stream, Vacated;
    var left := Monus(quantity, Offer(t, q[0]));
    HeadFate(t, q, quantity);
    ShiftAll(t, q, |q| - 1, quantity);
    Assoc(Vacated(t, q[1..], |q| - 1, left), [q[0].slot], free);
    assert [] + Survivors(t, q[1..], |q| - 1, left) == Survivors(t, q[1..], |q| - 1, left);
  }

  /** The head is larger than what is left. */
  lemma {:induction false} ClosedFormPartial(t: Taker, q: seq<Resting>, free: seq<nat>, quantity: Quantity)
    requires q != [] && quantity > 0 && Acceptable(t, q[0].order.price)
    requires Sorted(t.side.Opposite(), q) && Positive(q)
    requires q[0].order.user != t.user && quantity < q[0].order.quantity
    ensures var m := q[0].order;
            ClosedForm(t, q, free, quantity)
            == Fill([Resting(q[0].slot, m.(quantity := m.quantity - quantity))] + q[1..], free, 0,
                    [TradeExecuted(m.id, t.id, m.price, quantity)])
  {
    hide Survivor, EventOf, Survivors, Stream, Vacated, Sorted, Positive;
    TailOk(t, q);
    HeadFate(t, q, quantity);
    ShiftAll(t, q, |q| - 1, quantity);
    StopsIdle(t, q[1..], 0);
    assert [] + free == free;
  }

  lemma {:induction false} ClosedFormStop(t: Taker, q: seq<Resting>, free: seq<nat>, quantity: Quantity)
    requires Sorted(t.side.Opposite(), q) && Positive(q)
    requires quantity == 0 || q == [] || !Acceptable(t, q[0].order.price)
    ensures ClosedForm(t, q, free, quantity) == Fill(q, free, quantity, [])
  {
    hide Survivors, Stream, Vacated, Acceptable, Sorted, Positive;
    StopsIdle(t, q, quantity);
    assert [] + free == free;
  }

  /** Walking the queue computes the closed form. */
  lemma {:induction false} MatchClosedForm(t: Taker, q: seq<Resting>, free: seq<nat>, quantity: Quantity)
    requires Sorted(t.side.Opposite(), q) && Positive(q)
    ensures Match(t, q, free, quantity) == ClosedForm(t, q, free, quantity)
    decreases |q|
  {
    hide Sorted, Positive, ClosedForm;
    if quantity == 0 || q == [] || !Acceptable(t, q[0].order.price) {
      ClosedFormStop(t, q, free, quantity);
    } else {
      TailOk(t, q);
      if q[0].order.user != t.user && quantity < q[0].order.quantity {
        ClosedFormPartial(t, q, free, quantity);
      } else {
        ClosedFormPop(t, q, free, quantity);
        MatchClosedForm(t, q[1..], [q[0].slot] + free, quantity - Offer(t, q[0]));
      }
    }
  }

  // ---- match completeness ------------------------------------------------------

  function Traded(events: seq<EngineEvent>): nat {
    if events == [] then 0
    else (if events[0].TradeExecuted? then events[0].quantity else 0) + Traded(events[1..])
  }

  lemma {:induction false} TradedConcat(a: seq<EngineEvent>, b: seq<EngineEvent>)
    ensures Traded(a + b) == Traded(a) + Traded(b)
  {
    if a == [] {
      assert a + b == b;
    } else {
      assert (a + b)[1..] == a[1..] + b;
      TradedConcat(a[1..], b);
    }
  }

  lemma {:induction false} TradedIsSpent(t: Taker, q: seq<Resting>, free: seq<nat>, quantity: Quantity)
    ensures var f := Match(t, q, free, quantity);
            f.left + Traded(f.events) == quantity
    decreases |q|
  {
    if quantity == 0 || q == [] || !Acceptable(t, q[0].order.price) {
    } else {
      var m := q[0].order;
      if m.user == t.user {
        TradedIsSpent(t, q[1..], [q[0].slot] + free, quantity);
        var f := Match(t, q[1..], [q[0].slot] + free, quantity);
        TradedConcat([OrderCancelled(m.id)], f.events);
      } else if m.quantity <= quantity {
        TradedIsSpent(t, q[1..], [q[0].slot] + free, quantity - m.quantity);
        var f := Match(t, q[1..], [q[0].slot] + free, quantity - m.quantity);
        TradedConcat([TradeExecuted(m.id, t.id, m.price, m.quantity)], f.events);
      }
    }
  }

  /** The taker trades all it wants or all there is; the remainder comes to rest. */
  lemma {:induction false} MatchCompleteness(b: Book, t: Taker, quantity: Quantity)
    requires Sorted(t.side.Opposite(), b.On(t.side.Opposite())) && Positive(b.On(t.side.Opposite()))
    ensures var o := PlaceOrder(b, t, quantity);
            var q := b.On(t.side.Opposite());
            var traded := Min(quantity, Liquidity(t, q));
            && Traded(o.events) == traded
            && o.book.On(t.side.Opposite()) == Survivors(t, q, |q|, quantity)
            && (traded < quantity ==>
                  && o.book.On(t.side) == Insert(b.On(t.side), Resting(NextSlot(Matched(b, t, quantity)),
                                                  Order(t.id, t.user, t.price, quantity - traded, t.side)))
                  && o.events == Stream(t, q, |q|, quantity)
                                 + [OrderPlaced(t.id, t.user, t.price, quantity - traded, t.side)])
            && (traded == quantity ==>
                  && o.book.On(t.side) == b.On(t.side)
                  && o.events == Stream(t, q, |q|, quantity))
  {
    var q := b.On(t.side.Opposite());
    MatchClosedForm(t, q, b.free, quantity);
    TradedIsSpent(t, q, b.free, quantity);
    var f := Match(t, q, b.free, quantity);
    if f.left > 0 {
      TradedConcat(f.events, [OrderPlaced(t.id, t.user, t.price, f.left, t.side)]);
    }
  }

  // ---- price-time priority of the event stream ---------------------------------

  /** Positions of the queue that produced the events, in event order. */
  function Sources(t: Taker, q: seq<Resting>, k: nat, quantity: nat): seq<nat>
    requires k <= |q|
  {
    if k == 0 then []
    else Sources(t, q, k - 1, quantity) + (if EventOf(t, q, k - 1, quantity) == [] then [] else [k - 1])
  }

  ghost predicate Explains(t: Taker, q: seq<Resting>, quantity: nat, src: seq<nat>, events: seq<EngineEvent>) {
    && |src| == |events|
    && (forall a, b :: 0 <= a < b < |src| ==> src[a] < src[b])
    && (forall a :: 0 <= a < |src| ==> src[a] < |q| && [events[a]] == EventOf(t, q, src[a], quantity))
  }

  lemma {:induction false} SourcesExplain(t: Taker, q: seq<Resting>, k: nat, quantity: nat)
    requires k <= |q|
    ensures Explains(t, q, quantity, Sources(t, q, k, quantity), Stream(t, q, k, quantity))
    ensures forall a :: 0 <= a < |Sources(t, q, k, quantity)| ==> Sources(t, q, k, quantity)[a] < k
  {
    if k == 0 {
    } else {
      SourcesExplain(t, q, k - 1, quantity);
    }
  }

  /** One event of the stream, seen from the queue position it came from. */
  ghost predicate FairEvent(t: Taker, r: Resting, e: EngineEvent) {
    && (t.side.Bid? ==> r.order.price <= t.price)
    && (t.side.Ask? ==> r.order.price >= t.price)
    && if r.order.user == t.user then
         e == OrderCancelled(r.order.id)
       else
         && e.TradeExecuted?
         && e.maker == r.order.id && e.taker == t.id && e.price == r.order.price
         && 0 < e.quantity <= r.order.quantity
  }

  /**
   Events follow the queue strictly forwards, hence best price first and, within a
   price, first come first; every trade is fair and every cancelled maker is the taker's
   own; both at prices within the taker's limit.
   */
  lemma {:induction false} EventStreamPriority(t: Taker, q: seq<Resting>, free: seq<nat>, quantity: Quantity)
    requires Sorted(t.side.Opposite(), q) && Positive(q)
    ensures var events := Match(t, q, free, quantity).events;
            var src := Sources(t, q, |q|, quantity);
            && |src| == |events|
            && (forall a, b :: 0 <= a < b < |src| ==> src[a] < src[b])
            && (forall a :: 0 <= a < |src| ==> src[a] < |q| && FairEvent(t, q[src[a]], events[a]))
            && (forall a, b :: 0 <= a < b < |events| && events[a].TradeExecuted? && events[b].TradeExecuted? ==>
                  !Better(t.side.Opposite(), events[b].price, events[a].price))
  {
    MatchClosedForm(t, q, free, quantity);
    SourcesExplain(t, q, |q|, quantity);
    var events := Match(t, q, free, quantity).events;
    var src := Sources(t, q, |q|, quantity);
    forall a | 0 <= a < |src|
      ensures src[a] < |q|
      ensures FairEvent(t, q[src[a]], events[a])
    {
      assert [events[a]] == EventOf(t, q, src[a], quantity);
      assert events[a] == [events[a]][0];
    }
  }

  /** No trade is above a buyer's or below a seller's limit, whatever the book. */
  lemma {:induction false} TradesWithinLimit(t: Taker, q: seq<Resting>, free: seq<nat>, quantity: Quantity)
    ensures forall a :: a in Match(t, q, free, quantity).events && a.TradeExecuted? ==>
              a.taker == t.id && (if t.side.Bid? then a.price <= t.price else a.price >= t.price)
    decreases |q|
  {
    if quantity == 0 || q == [] || !Acceptable(t, q[0].order.price) {
    } else {
      var m := q[0].order;
      if m.user == t.user {
        TradesWithinLimit(t, q[1..], [q[0].slot] + free, quantity);
      } else if m.quantity <= quantity {
        TradesWithinLimit(t, q[1..], [q[0].slot] + free, quantity - m.quantity);
      }
    }
  }

  /** If no opposite order is within the limit, the whole order comes to rest and nothing else happens. */
  lemma {:induction false} UnmetOrderRests(b: Book, t: Taker, quantity: Quantity)
    requires quantity > 0
    requires t.side.Bid? ==> forall i :: 0 <= i < |b.asks| ==> b.asks[i].order.price > t.price
    requires t.side.Ask? ==> forall i :: 0 <= i < |b.bids| ==> b.bids[i].order.price < t.price
    ensures PlaceOrder(b, t, quantity).events == [OrderPlaced(t.id, t.user, t.price, quantity, t.side)]
    ensures PlaceOrder(b, t, quantity).book.On(t.side.Opposite()) == b.On(t.side.Opposite())
  {
    assert [] + [OrderPlaced(t.id, t.user, t.price, quantity, t.side)] == [OrderPlaced(t.id, t.user, t.price, quantity, t.side)];
  }
}

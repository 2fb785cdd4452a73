/** No quantity appears or disappears: the ledger of a whole history. */
module Conservation {
  import opened MarketTypes
  import opened PriceTimeBook
  import opened Matching
  import opened Histories

  function Total(q: seq<Resting>): nat {
    if q == [] then 0 else q[0].order.quantity + Total(q[1..])
  }

  function RestingTotal(b: Book): nat {
    Total(b.bids) + Total(b.asks)
  }

  /** Quantity of the taker's own orders removed from the first k positions. */
  function SelfRemoved(t: Taker, q: seq<Resting>, k: nat, quantity: nat): nat
    requires k <= |q|
  {
    if k == 0 then 0
    else SelfRemoved(t, q, k - 1, quantity)
         + if SelfCancelled(t, q, k - 1, quantity) then q[k - 1].order.quantity else 0
  }

  function QuantityIn(q: seq<Resting>, slot: nat): nat {
    if q == [] then 0
    else (if q[0].slot == slot then q[0].order.quantity else 0) + QuantityIn(q[1..], slot)
  }

  /** Quantity this operation takes off the book without trading it. */
  function RemovedBy(b: Book, e: LogEntry): nat {
    match e
    case Place(id, user, side, price, quantity) =>
      var q := b.On(side.Opposite());
      SelfRemoved(Taker(id, user, side, price), q, |q|, quantity)
    case Cancel(id, user) =>
      if Cancels(b, id, user) then QuantityIn(b.bids, b.index[id]) + QuantityIn(b.asks, b.index[id]) else 0
  }

  function Submitted(h: seq<LogEntry>): nat {
    if h == [] then 0
    else Submitted(h[..|h| - 1]) + (if h[|h| - 1].Place? then h[|h| - 1].quantity else 0)
  }

  function TradedIn(h: seq<LogEntry>): nat {
    if h == [] then 0
    else TradedIn(h[..|h| - 1]) + Traded(Apply(Run(h[..|h| - 1]), h[|h| - 1]).events)
  }

  function RemovedIn(h: seq<LogEntry>): nat {
    if h == [] then 0
    else RemovedIn(h[..|h| - 1]) + RemovedBy(Run(h[..|h| - 1]), h[|h| - 1])
  }

  // ---- one operation -----------------------------------------------------------

  lemma {:induction false} TotalConcat(a: seq<Resting>, b: seq<Resting>)
    ensures Total(a + b) == Total(a) + Total(b)
  {
    if a == [] {
      assert a + b == b;
    } else {
      assert (a + b)[1..] == a[1..] + b;
      TotalConcat(a[1..], b);
    }
  }

  lemma {:induction false} InsertTotal(q: seq<Resting>, r: Resting)
    ensures Total(Insert(q, r)) == Total(q) + r.order.quantity
  {
    if q == [] || Better(r.order.side, r.order.price, q[0].order.price) {
      assert ([r] + q)[1..] == q;
    } else {
      InsertTotal(q[1..], r);
      assert ([q[0]] + Insert(q[1..], r))[1..] == Insert(q[1..], r);
    }
  }

  lemma {:induction false} WithoutTotal(q: seq<Resting>, slot: nat)
    ensures Total(q) == Total(WithoutSlot(q, slot)) + QuantityIn(q, slot)
  {
    if q == [] {
    } else {
      WithoutTotal(q[1..], slot);
      var rest := WithoutSlot(q[1..], slot);
      if q[0].slot == slot {
        assert WithoutSlot(q, slot) == rest;
      } else {
        assert ([q[0]] + rest)[1..] == rest;
      }
    }
  }

  lemma {:induction false} SurvivorTotal(t: Taker, q: seq<Resting>, i: nat, quantity: nat)
    requires i < |q|
    ensures Total(Survivor(t, q, i, quantity)) + Traded(EventOf(t, q, i, quantity))
            + (if SelfCancelled(t, q, i, quantity) then q[i].order.quantity else 0)
            == q[i].order.quantity
  {
  }

  lemma {:induction false} LastTotal(q: seq<Resting>, k: nat)
    requires 0 < k <= |q|
    ensures Total(q[..k]) == Total(q[..k - 1]) + q[k - 1].order.quantity
  {
    TotalConcat(q[..k - 1], [q[k - 1]]);
    assert q[..k] == q[..k - 1] + [q[k - 1]];
    assert Total([q[k - 1]]) == q[k - 1].order.quantity;
  }

  lemma {:induction false} SurvivorsTotal(t: Taker, q: seq<Resting>, k: nat, quantity: nat)
    requires k <= |q|
    ensures Total(Survivors(t, q, k, quantity)) + Traded(Stream(t, q, k, quantity))
            + SelfRemoved(t, q, k, quantity) == Total(q[..k])
  {
    hide Survivor, EventOf, SelfCancelled;
    if k == 0 {
    } else {
      SurvivorsTotal(t, q, k - 1, quantity);
      SurvivorTotal(t, q, k - 1, quantity);
      LastTotal(q, k);
      TotalConcat(Survivors(t, q, k - 1, quantity), Survivor(t, q, k - 1, quantity));
      TradedConcat(Stream(t, q, k - 1, quantity), EventOf(t, q, k - 1, quantity));
    }
  }

  lemma {:induction false} PlaceLedger(b: Book, e: LogEntry)
    requires Inv(b) && e.Place?
    ensures RestingTotal(b) + e.quantity
            == RestingTotal(Apply(b, e).book) + 2 * Traded(Apply(b, e).events) + RemovedBy(b, e)
  {
    hide Match, Survivors, Stream, Sorted, Uncrossed, Slotted, Liquidity;
    var t := Taker(e.orderId, e.userId, e.side, e.price);
    var opp := t.side.Opposite();
    var q := b.On(opp);
    assert SideOk(opp, q);
    MatchClosedForm(t, q, b.free, e.quantity);
    TradedIsSpent(t, q, b.free, e.quantity);
    SurvivorsTotal(t, q, |q|, e.quantity);
    assert q[..|q|] == q;
    var f := Match(t, q, b.free, e.quantity);
    assert RestingTotal(b) == Total(b.On(t.side)) + Total(q);
    if f.left > 0 {
      var o := Order(t.id, t.user, t.price, f.left, t.side);
      var m := Matched(b, t, e.quantity);
      InsertTotal(b.On(t.side), Resting(NextSlot(m), o));
      TradedConcat(f.events, [OrderPlaced(t.id, t.user, t.price, f.left, t.side)]);
      assert m.On(t.side) == b.On(t.side);
      assert Rest(m, o).On(t.side) == Insert(b.On(t.side), Resting(NextSlot(m), o));
      assert Rest(m, o).On(opp) == f.rest;
    }
  }

  lemma {:induction false} CancelLedger(b: Book, e: LogEntry)
    requires e.Cancel?
    ensures RestingTotal(b) == RestingTotal(Apply(b, e).book) + RemovedBy(b, e)
    ensures Traded(Apply(b, e).events) == 0
  {
    if Cancels(b, e.orderId, e.userId) {
      WithoutTotal(b.bids, b.index[e.orderId]);
      WithoutTotal(b.asks, b.index[e.orderId]);
    }
  }

  // ---- every history -----------------------------------------------------------

  /** Submitted = resting + twice traded (maker and taker) + cancelled. */
  lemma {:induction false} Ledger(h: seq<LogEntry>)
    ensures Submitted(h) == RestingTotal(Run(h)) + 2 * TradedIn(h) + RemovedIn(h)
  {
    if h == [] {
    } else {
      var g, e := h[..|h| - 1], h[|h| - 1];
      Ledger(g);
      RunInv(g);
      if e.Place? {
        PlaceLedger(Run(g), e);
      } else {
        CancelLedger(Run(g), e);
      }
    }
  }
}

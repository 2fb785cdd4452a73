/** The order book object: slab, price ladders and id index, edited in place. */
module MatchingEngine {
  import opened Bytes
  import opened MarketTypes
  import opened Sequences
  import opened PriceTimeBook
  import opened Levels
  import opened OrderBooks
  import opened Depth
  import M = Matching

  ghost predicate FrontAt(b: Rep, side: Side, best: Price) {
    b.On(side) != map[] && best == Best(side, b.On(side).Keys) && b.On(side)[best] != []
  }

  /** The simple matcher's remaining work, after the events so far, still gives its result f. */
  ghost predicate Completes(f: Fill, t: Taker, q: seq<Resting>, free: seq<nat>, quantity: Quantity,
                            events: seq<EngineEvent>)
  {
    f == Prepend(events, Match(t, q, free, quantity))
  }

  lemma {:induction false} CompletesAfterFront(f: Fill, t: Taker, q: seq<Resting>, free: seq<nat>, quantity: Quantity,
                            events: seq<EngineEvent>)
    requires q != [] && quantity > 0 && Acceptable(t, q[0].order.price)
    requires Completes(f, t, q, free, quantity, events)
    ensures var m := q[0].order;
            if m.user == t.user then
              Completes(f, t, q[1..], [q[0].slot] + free, quantity, events + [OrderCancelled(m.id)])
            else if m.quantity <= quantity then
              Completes(f, t, q[1..], [q[0].slot] + free, quantity - m.quantity,
                        events + [TradeExecuted(m.id, t.id, m.price, m.quantity)])
            else
              Completes(f, t, [Resting(q[0].slot, m.(quantity := m.quantity - quantity))] + q[1..], free, 0,
                        events + [TradeExecuted(m.id, t.id, m.price, quantity)])
  {
  }

  /** The other side's list, the index and the slab's length do not move. */
  ghost predicate Kept(side: Side, b: Rep, c: Rep)
    requires Sound(b) && Sound(c)
  {
    c.index == b.index && |c.store| == |b.store| && c.On(side) == b.On(side) && ListOn(c, side) == ListOn(b, side)
  }

  /** At most the queue at one price has changed. */
  ghost predicate OnlyLevel(best: Price, before: Ladder, after: Ladder) {
    && best in after && after.Keys == before.Keys
    && forall p :: p in after && p != best ==> after[p] == before[p]
  }

  /** One maker served: the structures move as the list does. */
  lemma {:induction false} ServeFront(b: Rep, side: Side, best: Price)
    requires Sound(b) && FrontAt(b, side, best)
    ensures var ladder := b.On(side);
            var i := ladder[best][0];
            && BelongsAt(b.store, i, side, best)
            && ListOn(b, side) != [] && ListOn(b, side)[0] == Resting(i, b.store[i].order)
            && var b' := b.With(side, ladder[best := ladder[best][1..]]).(store := b.store[i := Vacant], free := [i] + b.free);
            && Sound(b')
            && ListOn(b', side) == ListOn(b, side)[1..]
            && ListOn(b', side.Opposite()) == ListOn(b, side.Opposite())
  {
    FrontIsHead(b, side);
    var i := b.On(side)[best][0];
    ReleaseView(b, i);
    assert Release(b, i) == b.With(side, b.On(side)[best := b.On(side)[best][1..]]).(store := b.store[i := Vacant], free := [i] + b.free);
  }

  /** What one turn of the inner loop does to the structures. */
  datatype Turn = Turn(rep: Rep, left: Quantity, event: EngineEvent)

  ghost function Serve(b: Rep, t: Taker, best: Price, quantity: Quantity): Turn
    requires Sound(b) && FrontAt(b, t.side.Opposite(), best)
  {
    ServeFront(b, t.side.Opposite(), best);
    var opp := t.side.Opposite();
    var ladder := b.On(opp);
    var i := ladder[best][0];
    var m := b.store[i].order;
    if m.user != t.user && quantity < m.quantity then
      Turn(Reduce(b, i, m.quantity - quantity), 0, TradeExecuted(m.id, t.id, best, quantity))
    else
      Turn(b.With(opp, ladder[best := ladder[best][1..]]).(store := b.store[i := Vacant], free := [i] + b.free),
           if m.user == t.user then quantity else quantity - m.quantity,
           if m.user == t.user then OrderCancelled(m.id) else TradeExecuted(m.id, t.id, best, m.quantity))
  }

  lemma {:induction false} Served(f: Fill, b: Rep, t: Taker, best: Price, quantity: Quantity, events: seq<EngineEvent>)
    requires Sound(b) && FrontAt(b, t.side.Opposite(), best) && Acceptable(t, best) && quantity > 0
    requires Completes(f, t, ListOn(b, t.side.Opposite()), b.free, quantity, events)
    ensures var turn := Serve(b, t, best, quantity);
            && Sound(turn.rep)
            && Completes(f, t, ListOn(turn.rep, t.side.Opposite()), turn.rep.free, turn.left, events + [turn.event])
            && Kept(t.side, b, turn.rep)
  {
    hide LadderOk, SlabOk, AllQueued, ListOn;
    var opp := t.side.Opposite();
    ServeFront(b, opp, best);
    CompletesAfterFront(f, t, ListOn(b, opp), b.free, quantity, events);
    var m := b.store[b.On(opp)[best][0]].order;
    if m.user != t.user && quantity < m.quantity {
      ReduceFrontView(b, opp, m.quantity - quantity);
    }
  }

  lemma {:induction false} DropEmptied(side: Side, before: Rep, now: Rep, p: Price)
    requires Sound(before) && Sound(now) && Kept(side, before, now)
    requires p in now.On(side.Opposite()) && now.On(side.Opposite())[p] == []
    ensures var d := DropLevel(now, side.Opposite(), p);
            && Sound(d) && Kept(side, before, d)
            && ListOn(d, side.Opposite()) == ListOn(now, side.Opposite())
            && |d.On(side.Opposite())| < |now.On(side.Opposite())|
  {
    var d := DropLevel(now, side.Opposite(), p);
    DropLevelView(now, side.Opposite(), p);
    ViewOn(now, side.Opposite());
    ViewOn(now, side);
    ViewOn(d, side.Opposite());
    ViewOn(d, side);
    assert d.On(side.Opposite()).Keys == now.On(side.Opposite()).Keys - {p};
  }

  /** With no quantity or no acceptable level left the matcher does nothing. */
  lemma {:induction false} NothingToMatch(t: Taker, b: Rep, quantity: Quantity)
    requires ValidRep(b)
    requires var opp := t.side.Opposite();
             quantity == 0 || b.On(opp) == map[] || !Acceptable(t, Best(opp, b.On(opp).Keys))
    ensures var q := ListOn(b, t.side.Opposite());
            Match(t, q, b.free, quantity) == Fill(q, b.free, quantity, [])
  {
    var opp := t.side.Opposite();
    if b.On(opp) != map[] {
      FrontIsHead(b, opp);
    }
  }

  /** When the loop stops, the simple matcher stops too. */
  lemma {:induction false} Stopped(f: Fill, t: Taker, before: Rep, now: Rep, quantity: Quantity, amount: Quantity,
                events: seq<EngineEvent>)
    requires Sound(before) && ValidRep(now) && Kept(t.side, before, now)
    requires f == Match(t, ListOn(before, t.side.Opposite()), before.free, amount)
    requires Completes(f, t, ListOn(now, t.side.Opposite()), now.free, quantity, events)
    requires var opp := t.side.Opposite();
             quantity == 0 || now.On(opp) == map[] || !Acceptable(t, Best(opp, now.On(opp).Keys))
    ensures f == Fill(ListOn(now, t.side.Opposite()), now.free, quantity, events)
    ensures f == Match(t, ViewOf(before).On(t.side.Opposite()), before.free, amount)
    ensures ViewOf(now) == Matched(ViewOf(before), t, amount)
  {
    hide Match, Best, Acceptable, ListOn, SlabOk, AllQueued, LadderOk, NoEmptyLevel;
    var opp := t.side.Opposite();
    NothingToMatch(t, now, quantity);
    assert events + [] == events;
    ViewOn(before, opp);
    ViewOn(before, t.side);
    ViewOn(now, opp);
    ViewOn(now, t.side);
    SameBook(ViewOf(now), Matched(ViewOf(before), t, amount), t.side);
  }

  lemma {:induction false} EnqueueLevels(b: Rep, o: Order)
    requires SlabOk(b.store, b.free) && NoEmptyLevel(b.bids) && NoEmptyLevel(b.asks)
    ensures NoEmptyLevel(Enqueue(b, o).bids) && NoEmptyLevel(Enqueue(b, o).asks)
  {
    hide SlabOk;
    assert NoEmptyLevel(AddTo(b.On(o.side), o.price, SlotFor(b)));
  }

  lemma {:induction false} EnqueueValid(b: Rep, o: Order)
    requires ValidRep(b) && o.quantity > 0
    ensures ValidRep(Enqueue(b, o))
    ensures ViewOf(Enqueue(b, o)) == Rest(ViewOf(b), o)
  {
    EnqueueView(b, o);
    EnqueueLevels(b, o);
    hide NoEmptyLevel, ViewOf, Rest, Enqueue, SlabOk;
  }

  lemma {:induction false} HeldWhenLive(b: Rep, i: nat, user: UserId)
    requires Sound(b)
    ensures Holds(ListOn(b, Bid), i, user) || Holds(ListOn(b, Ask), i, user) <==> Live(b.store, i) && b.store[i].order.user == user
  {
    if Live(b.store, i) && b.store[i].order.user == user {
      ListedWhereLive(b, i);
      assert Holds(ListOn(b, b.store[i].order.side), i, user);
    }
    forall side: Side | Holds(ListOn(b, side), i, user)
      ensures Live(b.store, i) && b.store[i].order.user == user
    {
      var q := ListOn(b, side);
      var k :| 0 <= k < |q| && q[k].slot == i && q[k].order.user == user;
      LiveWhereListed(b, side, q[k]);
    }
  }

  /** The lookup through index and slab finds what the lists hold. */
  lemma {:induction false} CancelsExactly(b: Rep, id: OrderId, user: UserId)
    requires Sound(b)
    ensures Cancels(ViewOf(b), id, user) <==>
              id in b.index && Live(b.store, b.index[id]) && b.store[b.index[id]].order.user == user
  {
    if id in b.index {
      HeldWhenLive(b, b.index[id], user);
    }
  }

  ghost function Cancelled(b: Rep, id: OrderId): Rep
    requires Sound(b) && id in b.index && Live(b.store, b.index[id])
  {
    var i := b.index[id];
    var o := b.store[i].order;
    var r := Release(b, i);
    var d := if r.On(o.side)[o.price] == [] then DropLevel(r, o.side, o.price) else r;
    d.(index := b.index - {id})
  }

  lemma {:induction false} ReleasedView(b: Rep, i: nat)
    requires Sound(b) && Live(b.store, i)
    ensures Sound(Release(b, i))
    ensures forall side: Side :: ListOn(Release(b, i), side) == WithoutSlot(ListOn(b, side), i)
  {
    ReleaseView(b, i);
    var other := b.store[i].order.side.Opposite();
    NotOnOtherSide(b, i, other);
    SlotsOk(b.store, other, b.On(other));
    WithoutSlotAbsent(ListOn(b, other), i);
    forall side: Side ensures ListOn(Release(b, i), side) == WithoutSlot(ListOn(b, side), i) {
      assert side == other || side == b.store[i].order.side;
    }
  }

  lemma {:induction false} IndexIsBookkeeping(b: Rep, index: map<OrderId, nat>)
    requires Sound(b)
    ensures Sound(b.(index := index))
    ensures forall side: Side :: ListOn(b.(index := index), side) == ListOn(b, side)
  {
  }

  lemma {:induction false} DroppedIfEmpty(b: Rep, side: Side, p: Price)
    requires Sound(b) && p in b.On(side)
    requires forall s: Side, q: Price :: q in b.On(s) && b.On(s)[q] == [] ==> s == side && q == p
    ensures var d := if b.On(side)[p] == [] then DropLevel(b, side, p) else b;
            && ValidRep(d)
            && (forall s: Side :: ListOn(d, s) == ListOn(b, s))
  {
    hide LadderOk, SlabOk, AllQueued, ListOn;
    if b.On(side)[p] == [] {
      var d := DropLevel(b, side, p);
      DropLevelView(b, side, p);
      forall s: Side ensures ListOn(d, s) == ListOn(b, s) {
        ViewOn(b, s);
        ViewOn(d, s);
      }
      assert forall s: Side, q: Price :: q in d.On(s) ==> q in b.On(s) && d.On(s)[q] == b.On(s)[q];
      assert d.On(Bid) == d.bids && d.On(Ask) == d.asks;
    } else {
      assert b.On(Bid) == b.bids && b.On(Ask) == b.asks;
    }
  }

  lemma {:induction false} CancelledView(b: Rep, id: OrderId)
    requires ValidRep(b) && id in b.index && Live(b.store, b.index[id])
    ensures ValidRep(Cancelled(b, id))
    ensures var slot := b.index[id];
            var v := ViewOf(b);
            ViewOf(Cancelled(b, id))
            == Book(WithoutSlot(v.bids, slot), WithoutSlot(v.asks, slot), [slot] + v.free, v.slots, v.index - {id})
    ensures var o := b.store[b.index[id]].order;
            o.price in b.On(o.side)
  {
    var i := b.index[id];
    var o := b.store[i].order;
    assert Queued(b.On(o.side), o.price, i);
    hide LadderOk, SlabOk, AllQueued, ListOn;
    ReleasedView(b, i);
    var r := Release(b, i);
    assert b.On(Bid) == b.bids && b.On(Ask) == b.asks;
    DroppedIfEmpty(r, o.side, o.price);
    var d := if r.On(o.side)[o.price] == [] then DropLevel(r, o.side, o.price) else r;
    IndexIsBookkeeping(d, b.index - {id});
  }

  lemma {:induction false} ValidIsSound(b: Rep)
    requires ValidRep(b)
    ensures Sound(b)
  {
  }

  /** Before the first turn everything is still to do. */
  lemma {:induction false} Start(t: Taker, b: Rep, amount: Quantity) returns (f: Fill)
    requires ValidRep(b)
    ensures Sound(b)
    ensures f == Match(t, ListOn(b, t.side.Opposite()), b.free, amount)
    ensures Completes(f, t, ListOn(b, t.side.Opposite()), b.free, amount, [])
    ensures Kept(t.side, b, b)
  {
    f := Match(t, ListOn(b, t.side.Opposite()), b.free, amount);
    assert [] + f.events == f.events;
  }

  class OrderBook {
    var store: seq<Entry>
    var free: seq<nat>
    var bids: Ladder
    var asks: Ladder
    var index: map<OrderId, nat>

    ghost function State(): Rep
      reads this
    {
      Rep(store, free, bids, asks, index)
    }

    ghost predicate Valid()
      reads this
    {
      ValidRep(State())
    }

    ghost function View(): Book
      requires Valid()
      reads this
    {
      ViewOf(State())
    }

    constructor ()
      ensures Valid() && View() == EMPTY_BOOK
    {
      store, free, bids, asks, index := [], [], map[], map[], map[];
    }

    function LadderOn(side: Side): Ladder
      reads this
    {
      if side.Bid? then bids else asks
    }

    method SetLadder(side: Side, ladder: Ladder)
      modifies this
      ensures State() == old(State()).With(side, ladder)
    {
      if side.Bid? {
        bids := ladder;
      } else {
        asks := ladder;
      }
    }

    /** `Slab::remove`. */
    method Vacate(i: nat)
      requires i < |store|
      modifies this`store, this`free
      ensures store == old(store)[i := Vacant] && free == [i] + old(free)
    {
      store := store[i := Vacant];
      free := [i] + free;
    }

    /** One turn of the inner loop.  The slot at the front always holds an order. */
    method MatchFront(t: Taker, best: Price, quantity: Quantity)
      returns (left: Quantity, event: EngineEvent)
      requires Sound(State()) && FrontAt(State(), t.side.Opposite(), best) && quantity > 0
      modifies this
      ensures Turn(State(), left, event) == Serve(old(State()), t, best, quantity)
    {
      hide LadderOk, SlabOk, AllQueued, ListOn;
      ServeFront(State(), t.side.Opposite(), best);
      left := quantity;
      var opp := t.side.Opposite();
      var queue := LadderOn(opp)[best];
      var maker := queue[0];
      var order := store[maker].order;
      if order.user == t.user {
        SetLadder(opp, LadderOn(opp)[best := queue[1..]]);
        Vacate(maker);
        return left, OrderCancelled(order.id);
      }
      var traded := Min(left, order.quantity);
      event := TradeExecuted(order.id, t.id, best, traded);
      left := left - traded;
      store := store[maker := Occupied(order.(quantity := order.quantity - traded))];
      if store[maker].order.quantity == 0 {
        SetLadder(opp, LadderOn(opp)[best := queue[1..]]);
        Vacate(maker);
      }
    }

    /** The inner loop: serve makers from the front of one price level. */
    method MatchLevel(t: Taker, best: Price, quantity: Quantity, events0: seq<EngineEvent>, ghost f: Fill)
      returns (left: Quantity, events: seq<EngineEvent>)
      requires Sound(State())
      requires FrontAt(State(), t.side.Opposite(), best) && Acceptable(t, best) && quantity > 0
      requires Completes(f, t, ListOn(State(), t.side.Opposite()), free, quantity, events0)
      modifies this
      ensures Sound(State())
      ensures Completes(f, t, ListOn(State(), t.side.Opposite()), free, left, events)
      ensures Kept(t.side, old(State()), State())
      ensures OnlyLevel(best, old(LadderOn(t.side.Opposite())), LadderOn(t.side.Opposite()))
      ensures left <= quantity
      ensures LadderOn(t.side.Opposite())[best] == [] || left == 0
    {
      hide LadderOk, SlabOk, AllQueued, ListOn;
      left, events := quantity, events0;
      while LadderOn(t.side.Opposite())[best] != []
        invariant Sound(State())
        invariant Completes(f, t, ListOn(State(), t.side.Opposite()), free, left, events)
        invariant Kept(t.side, old(State()), State())
        invariant OnlyLevel(best, old(LadderOn(t.side.Opposite())), LadderOn(t.side.Opposite()))
        invariant 0 < left <= quantity
        decreases |LadderOn(t.side.Opposite())[best]|
      {
        Served(f, State(), t, best, left, events);
        var event: EngineEvent;
        left, event := MatchFront(t, best, left);
        events := events + [event];
        if left == 0 {
          break;
        }
      }
    }

    /** One turn of the outer loop: serve the best level and drop it if that empties it. */
    method TakeLevel(t: Taker, quantity: Quantity, events0: seq<EngineEvent>, ghost f: Fill)
      returns (left: Quantity, events: seq<EngineEvent>)
      requires Valid() && quantity > 0
      requires LadderOn(t.side.Opposite()) != map[]
      requires Acceptable(t, Best(t.side.Opposite(), LadderOn(t.side.Opposite()).Keys))
      requires Completes(f, t, ListOn(State(), t.side.Opposite()), free, quantity, events0)
      modifies this
      ensures Valid()
      ensures Completes(f, t, ListOn(State(), t.side.Opposite()), free, left, events)
      ensures Kept(t.side, old(State()), State())
      ensures |LadderOn(t.side.Opposite())| < |old(LadderOn(t.side.Opposite()))|
              || (|LadderOn(t.side.Opposite())| == |old(LadderOn(t.side.Opposite()))| && left == 0)
    {
      hide LadderOk, SlabOk, AllQueued, ListOn, Completes, Acceptable;
      var opp := t.side.Opposite();
      var best := Best(opp, LadderOn(opp).Keys);
      left, events := MatchLevel(t, best, quantity, events0, f);
      assert |LadderOn(opp).Keys| == |old(LadderOn(t.side.Opposite())).Keys|;
      if LadderOn(opp)[best] == [] {
        DropEmptied(t.side, old(State()), State(), best);
        SetLadder(opp, LadderOn(opp) - {best});
      }
    }

    /** The outer loop: take price levels from the best while they are acceptable. */
    method TakerPhase(t: Taker, amount: Quantity)
      returns (quantity: Quantity, events: seq<EngineEvent>)
      requires Valid()
      modifies this
      ensures Valid()
      ensures View() == Matched(old(View()), t, amount)
      ensures var f := Match(t, old(View()).On(t.side.Opposite()), old(free), amount);
              quantity == f.left && events == f.events
    {
      hide ValidRep, ListOn, Match, Matched, Acceptable;
      ghost var before := State();
      quantity, events := amount, [];
      var opp := t.side.Opposite();
      ghost var f := Start(t, before, amount);
      while quantity != 0 && LadderOn(opp) != map[] && Acceptable(t, Best(opp, LadderOn(opp).Keys))
        invariant Valid()
        invariant Sound(before) && Sound(State())
        invariant Completes(f, t, ListOn(State(), opp), free, quantity, events)
        invariant Kept(t.side, before, State())
        decreases |LadderOn(opp)|, quantity
      {
        quantity, events := TakeLevel(t, quantity, events, f);
        assert Sound(State()) by { ValidIsSound(State()); }
      }
      Stopped(f, t, before, State(), quantity, amount, events);
    }

    /** `Slab::insert`. */
    method StoreOrder(order: Order) returns (i: nat)
      requires SlabOk(store, free)
      modifies this`store, this`free
      ensures i == SlotFor(old(State()))
      ensures State() == Stored(old(State()), order)
    {
      if free == [] {
        i := |store|;
        store := store + [Occupied(order)];
      } else {
        i := free[0];
        assert i in free;
        store := store[i := Occupied(order)];
        free := free[1..];
      }
    }

    method PlaceLimitOrder(id: OrderId, user: UserId, side: Side, price: Price, amount: Quantity)
      returns (events: seq<EngineEvent>)
      requires Valid()
      modifies this
      ensures Valid()
      ensures Outcome(View(), events) == PlaceOrder(old(View()), Taker(id, user, side, price), amount)
      ensures forall e :: e in events && e.TradeExecuted? ==>
                e.taker == id && (if side.Bid? then e.price <= price else e.price >= price)
    {
      hide LadderOk, SlabOk, AllQueued, ListOn;
      M.TradesWithinLimit(Taker(id, user, side, price), View().On(side.Opposite()), free, amount);
      var quantity: Quantity;
      quantity, events := TakerPhase(Taker(id, user, side, price), amount);
      if quantity > 0 {
        var order := Order(id, user, price, quantity, side);
        EnqueueValid(State(), order);
        var i := StoreOrder(order);
        index := index[id := i];
        var ladder := LadderOn(side);
        var queue := if price in ladder then ladder[price] else [];
        SetLadder(side, ladder[price := queue + [i]]);
        events := events + [OrderPlaced(id, user, price, quantity, side)];
      }
    }

    method CancelOrder(id: OrderId, user: UserId) returns (events: seq<EngineEvent>)
      requires Valid()
      modifies this
      ensures Valid()
      ensures Outcome(View(), events) == PriceTimeBook.CancelOrder(old(View()), id, user)
    {
      hide LadderOk, SlabOk, AllQueued, ListOn, Cancels;
      events := [];
      if id in index {
        var i := index[id];
        CancelsExactly(State(), id, user);
        if i < |store| && store[i].Occupied? {
          var order := store[i].order;
          if order.user != user {
            return;
          }
          CancelledView(State(), id);
          var side, price := order.side, order.price;
          if price in LadderOn(side) {
            SetLadder(side, LadderOn(side)[price := Without<nat>(LadderOn(side)[price], i)]);
            if LadderOn(side)[price] == [] {
              SetLadder(side, LadderOn(side) - {price});
            }
          }
          index := index - {id};
          Vacate(i);
          events := [OrderCancelled(id)];
        }
      } else {
        CancelsExactly(State(), id, user);
      }
    }

    /** Best `limit` levels of the asks and of the bids. */
    method GetDepth(limit: nat) returns (askLevels: seq<OrderLevel>, bidLevels: seq<OrderLevel>)
      requires Valid()
      ensures Summarises(Ask, View().asks, limit, askLevels)
      ensures Summarises(Bid, View().bids, limit, bidLevels)
      ensures forall i, j :: 0 <= i < j < |askLevels| ==> askLevels[i].price < askLevels[j].price
      ensures forall i, j :: 0 <= i < j < |bidLevels| ==> bidLevels[i].price > bidLevels[j].price
    {
      hide Sound, TotalAt;
      askLevels, bidLevels := DepthOn(Ask, store, asks, limit), DepthOn(Bid, store, bids, limit);
      DepthAgrees(State(), Ask, limit);
      DepthAgrees(State(), Bid, limit);
    }
  }
}

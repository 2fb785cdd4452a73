/**
 The simple book the engine is meant to behave like: one list of resting orders
 per side, best price first and first come first within a price, together with
 the slots the orders occupy (they are visible through the id index).
 */
module PriceTimeBook {
  import opened Bytes
  import opened MarketTypes

  datatype Resting = Resting(slot: nat, order: Order)

  /** `free` is the stack of vacated slots, most recently vacated first. */
  datatype Book = Book(
    bids: seq<Resting>,
    asks: seq<Resting>,
    free: seq<nat>,
    slots: nat,
    index: map<OrderId, nat>
  ) {
    function On(side: Side): seq<Resting> {
      if side.Bid? then bids else asks
    }

    function With(side: Side, q: seq<Resting>): Book {
      if side.Bid? then this.(bids := q) else this.(asks := q)
    }
  }

  const EMPTY_BOOK := Book([], [], [], 0, map[])

  /** A resting order at p is served before one at q. */
  predicate Better(side: Side, p: Price, q: Price) {
    if side.Bid? then p > q else p < q
  }

  datatype Taker = Taker(id: OrderId, user: UserId, side: Side, price: Price)

  /** The taker's limit admits a trade at the resting price p. */
  predicate Acceptable(t: Taker, p: Price) {
    if t.side.Bid? then p <= t.price else p >= t.price
  }

  datatype Fill = Fill(rest: seq<Resting>, free: seq<nat>, left: Quantity, events: seq<EngineEvent>)

  function Prepend(events: seq<EngineEvent>, f: Fill): Fill {
    f.(events := events + f.events)
  }

  /** The simple matcher: walk down the opposite list from its head. */
  function Match(t: Taker, q: seq<Resting>, free: seq<nat>, quantity: Quantity): Fill
    decreases |q|
  {
    if quantity == 0 || q == [] || !Acceptable(t, q[0].order.price) then
      Fill(q, free, quantity, [])
    else
      var maker := q[0].order;
      if maker.user == t.user then
        Prepend([OrderCancelled(maker.id)], Match(t, q[1..], [q[0].slot] + free, quantity))
      else
        var traded := Min(quantity, maker.quantity);
        var trade := TradeExecuted(maker.id, t.id, maker.price, traded);
        if traded == maker.quantity then
          Prepend([trade], Match(t, q[1..], [q[0].slot] + free, quantity - traded))
        else
          Fill([q[0].(order := maker.(quantity := maker.quantity - traded))] + q[1..], free, 0, [trade])
  }

  /** Behind every order of the same or a better price. */
  function Insert(q: seq<Resting>, r: Resting): seq<Resting> {
    if q == [] || Better(r.order.side, r.order.price, q[0].order.price) then [r] + q
    else [q[0]] + Insert(q[1..], r)
  }

  /** The slot the next insertion takes: the last one vacated, or a new one. */
  function NextSlot(b: Book): nat {
    if b.free == [] then b.slots else b.free[0]
  }

  function Rest(b: Book, o: Order): Book {
    var slot := NextSlot(b);
    var b' := b.With(o.side, Insert(b.On(o.side), Resting(slot, o)));
    if b.free == [] then b'.(slots := b.slots + 1, index := b.index[o.id := slot])
    else b'.(free := b.free[1..], index := b.index[o.id := slot])
  }

  datatype Outcome = Outcome(book: Book, events: seq<EngineEvent>)

  /** The book right after the taker phase. */
  function Matched(b: Book, t: Taker, quantity: Quantity): Book {
    var f := Match(t, b.On(t.side.Opposite()), b.free, quantity);
    b.With(t.side.Opposite(), f.rest).(free := f.free)
  }

  function PlaceOrder(b: Book, t: Taker, quantity: Quantity): Outcome {
    var f := Match(t, b.On(t.side.Opposite()), b.free, quantity);
    var b1 := Matched(b, t, quantity);
    if f.left == 0 then Outcome(b1, f.events)
    else
      Outcome(Rest(b1, Order(t.id, t.user, t.price, f.left, t.side)),
              f.events + [OrderPlaced(t.id, t.user, t.price, f.left, t.side)])
  }

  function WithoutSlot(q: seq<Resting>, slot: nat): seq<Resting> {
    if q == [] then [] else (if q[0].slot == slot then [] else [q[0]]) + WithoutSlot(q[1..], slot)
  }

  lemma {:induction false} WithoutSlotAbsent(q: seq<Resting>, slot: nat)
    requires forall k :: 0 <= k < |q| ==> q[k].slot != slot
    ensures WithoutSlot(q, slot) == q
  {
    if q == [] {
    } else {
      WithoutSlotAbsent(q[1..], slot);
      assert q == [q[0]] + q[1..];
    }
  }

  predicate Holds(q: seq<Resting>, slot: nat, user: UserId) {
    exists i :: 0 <= i < |q| && q[i].slot == slot && q[i].order.user == user
  }

  /** The id's slot holds a resting order of this user. */
  predicate Cancels(b: Book, id: OrderId, user: UserId) {
    id in b.index && (Holds(b.bids, b.index[id], user) || Holds(b.asks, b.index[id], user))
  }

  function CancelOrder(b: Book, id: OrderId, user: UserId): Outcome {
    if Cancels(b, id, user) then
      var slot := b.index[id];
      Outcome(Book(WithoutSlot(b.bids, slot), WithoutSlot(b.asks, slot), [slot] + b.free, b.slots, b.index - {id}),
              [OrderCancelled(id)])
    else Outcome(b, [])
  }

  function Apply(b: Book, e: LogEntry): Outcome {
    match e
    case Place(id, user, side, price, quantity) => PlaceOrder(b, Taker(id, user, side, price), quantity)
    case Cancel(id, user) => CancelOrder(b, id, user)
  }

  /** The book after a whole history. */
  function Run(h: seq<LogEntry>): Book {
    if h == [] then EMPTY_BOOK else Apply(Run(h[..|h| - 1]), h[|h| - 1]).book
  }
}

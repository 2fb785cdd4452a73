/**
 The order book as the engine keeps it, edited in place, and its refinement of the
 simple price-time book: every operation gives the same lists, slots, index and events.
 */
module OrderBooks {
  import opened MarketTypes
  import opened Sequences
  import opened PriceTimeBook
  import opened Levels

  /** Everything the engine's book holds. */
  datatype Rep = Rep(
    store: seq<Entry>,
    free: seq<nat>,
    bids: Ladder,
    asks: Ladder,
    index: map<OrderId, nat>
  ) {
    function On(side: Side): Ladder {
      if side.Bid? then bids else asks
    }

    function With(side: Side, ladder: Ladder): Rep {
      if side.Bid? then this.(bids := ladder) else this.(asks := ladder)
    }
  }

  ghost predicate SlabOk(store: seq<Entry>, free: seq<nat>) {
    && Distinct(free)
    && forall i: nat :: i in free <==> i < |store| && store[i].Vacant?
  }

  /** Every occupied slot sits in the queue of its own side and price. */
  ghost predicate AllQueued(b: Rep) {
    forall i: nat :: Live(b.store, i) ==>
      Queued(b.On(b.store[i].order.side), b.store[i].order.price, i)
  }

  /** The part of the invariant that holds even inside the matching loops. */
  ghost predicate Sound(b: Rep) {
    && LadderOk(b.store, Bid, b.bids)
    && LadderOk(b.store, Ask, b.asks)
    && SlabOk(b.store, b.free)
    && AllQueued(b)
  }

  ghost predicate NoEmptyLevel(ladder: Ladder) {
    forall p :: p in ladder ==> ladder[p] != []
  }

  ghost predicate ValidRep(b: Rep) {
    Sound(b) && NoEmptyLevel(b.bids) && NoEmptyLevel(b.asks)
  }

  ghost function ListOn(b: Rep, side: Side): seq<Resting>
    requires LadderOk(b.store, side, b.On(side))
  {
    SlotsOk(b.store, side, b.On(side));
    Listed(b.store, Slots(side, b.On(side)))
  }

  ghost function ViewOf(b: Rep): Book
    requires Sound(b)
  {
    Book(ListOn(b, Bid), ListOn(b, Ask), b.free, |b.store|, b.index)
  }

  lemma {:induction false} ViewOn(b: Rep, side: Side)
    requires Sound(b)
    ensures ViewOf(b).On(side) == ListOn(b, side)
  {
    if side.Bid? { assert side == Bid; } else { assert side == Ask; }
  }

  // ---- one slot is vacated -----------------------------------------------------

  ghost function Release(b: Rep, i: nat): Rep
    requires Sound(b) && Live(b.store, i)
  {
    var o := b.store[i].order;
    assert Queued(b.On(o.side), o.price, i);
    b.With(o.side, RemoveFrom(b.On(o.side), o.price, i)).(store := b.store[i := Vacant], free := [i] + b.free)
  }

  lemma {:induction false} QueueAfterVacate(store: seq<Entry>, side: Side, p: Price, queue: seq<nat>, i: nat)
    requires QueueOk(store, side, p, queue)
    requires i < |store|
    ensures QueueOk(store[i := Vacant], side, p, Without(queue, i))
  {
    WithoutDistinct(queue, i);
    var queue' := Without(queue, i);
    forall k | 0 <= k < |queue'| ensures BelongsAt(store[i := Vacant], queue'[k], side, p) {
      WithoutMembers(queue, i, queue'[k]);
      assert queue'[k] in queue;
    }
  }

  lemma {:induction false} LadderAfterVacate(store: seq<Entry>, side: Side, ladder: Ladder, i: nat)
    requires LadderOk(store, side, ladder)
    requires Live(store, i)
    ensures var o := store[i].order;
            if o.side == side && o.price in ladder
            then LadderOk(store[i := Vacant], side, RemoveFrom(ladder, o.price, i))
            else LadderOk(store[i := Vacant], side, ladder)
  {
    var o := store[i].order;
    forall p | p in ladder
      ensures QueueOk(store[i := Vacant], side, p, Without(ladder[p], i))
      ensures o.side != side || o.price != p ==> Without(ladder[p], i) == ladder[p]
    {
      assert QueueOk(store, side, p, ladder[p]);
      QueueAfterVacate(store, side, p, ladder[p], i);
      if o.side != side || o.price != p {
        assert i !in ladder[p];
        WithoutAbsent(ladder[p], i);
      }
    }
  }

  lemma {:induction false} ReleaseSound(b: Rep, i: nat)
    requires Sound(b) && Live(b.store, i)
    ensures Sound(Release(b, i))
  {
    var b' := Release(b, i);
    var o := b.store[i].order;
    assert Queued(b.On(o.side), o.price, i);
    LadderAfterVacate(b.store, Bid, b.bids, i);
    LadderAfterVacate(b.store, Ask, b.asks, i);
    assert i !in b.free;
    forall j: nat | Live(b'.store, j)
      ensures Queued(b'.On(b'.store[j].order.side), b'.store[j].order.price, j)
    {
      assert Live(b.store, j) && j != i;
      WithoutMembers(b.On(o.side)[o.price], i, j);
    }
    forall j: nat ensures j in b'.free <==> j < |b'.store| && b'.store[j].Vacant? {
      assert j in b'.free <==> j == i || j in b.free;
    }
  }

  lemma {:induction false} NotOnOtherSide(b: Rep, i: nat, side: Side)
    requires Sound(b) && Live(b.store, i) && b.store[i].order.side != side
    ensures i !in Slots(side, b.On(side))
  {
    SlotsOk(b.store, side, b.On(side));
    var p := b.store[i].order.price;
    if p in b.On(side) {
      assert QueueOk(b.store, side, p, b.On(side)[p]);
    }
  }

  lemma {:induction false} ReleaseView(b: Rep, i: nat)
    requires Sound(b) && Live(b.store, i)
    ensures Sound(Release(b, i))
    ensures forall side: Side :: ListOn(Release(b, i), side)
              == (if side == b.store[i].order.side then WithoutSlot(ListOn(b, side), i) else ListOn(b, side))
  {
    ReleaseSound(b, i);
    var b' := Release(b, i);
    var o := b.store[i].order;
    forall side: Side
      ensures ListOn(b', side)
              == (if side == o.side then WithoutSlot(ListOn(b, side), i) else ListOn(b, side))
    {
      var slots := Slots(side, b.On(side));
      SlotsOk(b.store, side, b.On(side));
      if side == o.side {
        assert Queued(b.On(o.side), o.price, i);
        assert BelongsAt(b.store, i, side, o.price);
        SlotsAfterRemove(b.store, side, b.On(side), o.price, i);
        ListedWithout(b.store, slots, i);
        WithoutMembers(slots, i, i);
        ListedUntouched(b.store, Without(slots, i), i, Vacant);
      } else {
        NotOnOtherSide(b, i, side);
        ListedUntouched(b.store, slots, i, Vacant);
      }
    }
  }

  // ---- an emptied level is dropped ---------------------------------------------

  ghost function DropLevel(b: Rep, side: Side, p: Price): Rep {
    b.With(side, b.On(side) - {p})
  }

  lemma {:induction false} DropLevelView(b: Rep, side: Side, p: Price)
    requires Sound(b) && p in b.On(side) && b.On(side)[p] == []
    ensures Sound(DropLevel(b, side, p))
    ensures ViewOf(DropLevel(b, side, p)) == ViewOf(b)
  {
    hide QueueOk, SlabOk, Slots;
    SlotsAfterDrop(side, b.On(side), p);
    var b' := DropLevel(b, side, p);
    forall i: nat | Live(b'.store, i)
      ensures Queued(b'.On(b'.store[i].order.side), b'.store[i].order.price, i)
    {
      assert Live(b.store, i);
    }
  }

  // ---- the maker at the front of the best level --------------------------------

  lemma {:induction false} FrontIsHead(b: Rep, side: Side)
    requires Sound(b) && b.On(side) != map[]
    requires b.On(side)[Best(side, b.On(side).Keys)] != []
    ensures var best := Best(side, b.On(side).Keys);
            var i := b.On(side)[best][0];
            && Live(b.store, i) && BelongsAt(b.store, i, side, best)
            && ListOn(b, side) != []
            && ListOn(b, side)[0] == Resting(i, b.store[i].order)
            && ListOn(b, side)[1..] == WithoutSlot(ListOn(b, side), i)
            && Without(b.On(side)[best], i) == b.On(side)[best][1..]
  {
    var best := Best(side, b.On(side).Keys);
    var queue := b.On(side)[best];
    assert QueueOk(b.store, side, best, queue);
    assert BelongsAt(b.store, queue[0], side, best);
    HeadQueue(b.store, side, b.On(side));
    WithoutHead(queue);
    SlotsOk(b.store, side, b.On(side));
    var slots := Slots(side, b.On(side));
    assert slots[0] == queue[0];
    WithoutHead(slots);
    ListedWithout(b.store, slots, queue[0]);
    assert AllLive(b.store, slots[1..]);
    assert Listed(b.store, slots)[1..] == Listed(b.store, slots[1..]);
  }

  ghost function Reduce(b: Rep, i: nat, quantity: Quantity): Rep
    requires Live(b.store, i)
  {
    b.(store := b.store[i := Occupied(b.store[i].order.(quantity := quantity))])
  }

  lemma {:induction false} ReduceSound(b: Rep, i: nat, quantity: Quantity)
    requires Sound(b) && Live(b.store, i) && quantity > 0
    ensures Sound(Reduce(b, i, quantity))
  {
  }

  lemma {:induction false} ReduceFrontView(b: Rep, side: Side, quantity: Quantity)
    requires Sound(b) && b.On(side) != map[]
    requires b.On(side)[Best(side, b.On(side).Keys)] != []
    requires quantity > 0
    ensures var i := b.On(side)[Best(side, b.On(side).Keys)][0];
            && Live(b.store, i)
            && Sound(Reduce(b, i, quantity))
            && ListOn(b, side) != []
            && ListOn(Reduce(b, i, quantity), side.Opposite()) == ListOn(b, side.Opposite())
            && ListOn(Reduce(b, i, quantity), side)
               == [Resting(i, b.store[i].order.(quantity := quantity))] + ListOn(b, side)[1..]
  {
    FrontIsHead(b, side);
    var i := b.On(side)[Best(side, b.On(side).Keys)][0];
    ReduceSound(b, i, quantity);
    var e := Occupied(b.store[i].order.(quantity := quantity));
    NotOnOtherSide(b, i, side.Opposite());
    SlotsOk(b.store, side.Opposite(), b.On(side.Opposite()));
    ListedUntouched(b.store, Slots(side.Opposite(), b.On(side.Opposite())), i, e);
    SlotsOk(b.store, side, b.On(side));
    ListedHeadReplaced(b.store, Slots(side, b.On(side)), b.store[i].order.(quantity := quantity));
  }

  // ---- an order comes to rest --------------------------------------------------

  ghost function SlotFor(b: Rep): nat {
    if b.free == [] then |b.store| else b.free[0]
  }

  /** `Slab::insert`: reuse the slot vacated last, or grow. */
  ghost function Stored(b: Rep, o: Order): Rep
    requires SlabOk(b.store, b.free)
  {
    if b.free == [] then b.(store := b.store + [Occupied(o)])
    else
      assert b.free[0] in b.free;
      b.(store := b.store[b.free[0] := Occupied(o)], free := b.free[1..])
  }

  ghost function Enqueue(b: Rep, o: Order): Rep
    requires SlabOk(b.store, b.free)
  {
    var i := SlotFor(b);
    var b' := Stored(b, o);
    b'.With(o.side, AddTo(b'.On(o.side), o.price, i)).(index := b.index[o.id := i])
  }

  /** Storing an order leaves both lists as they were. */
  lemma {:induction false} StoredLists(b: Rep, o: Order, side: Side)
    requires Sound(b)
    ensures LadderOk(Stored(b, o).store, side, b.On(side))
    ensures AllLive(b.store, Slots(side, b.On(side)))
    ensures AllLive(Stored(b, o).store, Slots(side, b.On(side)))
    ensures Listed(Stored(b, o).store, Slots(side, b.On(side))) == ListOn(b, side)
    ensures SlotFor(b) !in Slots(side, b.On(side))
  {
    var slots := Slots(side, b.On(side));
    SlotsOk(b.store, side, b.On(side));
    if b.free == [] {
      ListedExtended(b.store, slots, Occupied(o));
    } else {
      assert b.free[0] in b.free;
      ListedUntouched(b.store, slots, b.free[0], Occupied(o));
    }
    var b' := Stored(b, o);
    forall p | p in b.On(side) ensures QueueOk(b'.store, side, p, b.On(side)[p]) {
      var queue := b.On(side)[p];
      assert QueueOk(b.store, side, p, queue);
      forall k | 0 <= k < |queue| ensures BelongsAt(b'.store, queue[k], side, p) {
        assert BelongsAt(b.store, queue[k], side, p);
        if b.free != [] { assert b.free[0] in b.free; }
      }
    }
  }

  /** What insertion changes, field by field. */
  lemma {:induction false} EnqueueFields(b: Rep, o: Order)
    requires SlabOk(b.store, b.free)
    ensures var i, b' := SlotFor(b), Enqueue(b, o);
            && b'.store == Stored(b, o).store && b'.free == Stored(b, o).free
            && b'.On(o.side) == AddTo(b.On(o.side), o.price, i)
            && b'.On(o.side.Opposite()) == b.On(o.side.Opposite())
            && !Live(b.store, i) && i < |b'.store| && b'.store[i] == Occupied(o)
            && |b.store| <= |b'.store|
            && (forall j: nat :: j < |b'.store| && j != i ==> j < |b.store| && b'.store[j] == b.store[j])
  {
    if b.free != [] { assert b.free[0] in b.free; }
  }

  lemma {:induction false} EnqueueQueue(store: seq<Entry>, side: Side, ladder: Ladder, p: Price, i: nat)
    requires LadderOk(store, side, ladder)
    requires BelongsAt(store, i, side, p)
    requires !Queued(ladder, p, i)
    ensures QueueOk(store, side, p, AddTo(ladder, p, i)[p])
  {
  }

  lemma {:induction false} EnqueueLadder(b: Rep, o: Order)
    requires Sound(b) && o.quantity > 0
    ensures LadderOk(Enqueue(b, o).store, o.side, Enqueue(b, o).On(o.side))
  {
    var i, b' := SlotFor(b), Enqueue(b, o);
    var ladder := b.On(o.side);
    StoredLists(b, o, o.side);
    EnqueueFields(b, o);
    assert !Queued(ladder, o.price, i);
    EnqueueQueue(b'.store, o.side, ladder, o.price, i);
    forall p | p in AddTo(ladder, o.price, i) ensures QueueOk(b'.store, o.side, p, AddTo(ladder, o.price, i)[p]) {
      if p != o.price {
        assert QueueOk(b'.store, o.side, p, ladder[p]);
      }
    }
  }

  lemma {:induction false} EnqueueSlab(b: Rep, o: Order)
    requires SlabOk(b.store, b.free)
    ensures SlabOk(Enqueue(b, o).store, Enqueue(b, o).free)
  {
    var b' := Enqueue(b, o);
    EnqueueFields(b, o);
    if b.free == [] {
      forall j: nat ensures j in b'.free <==> j < |b'.store| && b'.store[j].Vacant? {
        assert j !in b.free;
      }
    } else {
      assert b.free[0] in b.free;
      assert b.free == [b.free[0]] + b.free[1..];
      assert b.free[0] !in b.free[1..];
      forall j: nat ensures j in b'.free <==> j < |b'.store| && b'.store[j].Vacant? {
        assert j in b.free <==> j == b.free[0] || j in b.free[1..];
      }
    }
  }

  lemma {:induction false} EnqueueQueued(b: Rep, o: Order)
    requires SlabOk(b.store, b.free) && AllQueued(b)
    ensures AllQueued(Enqueue(b, o))
  {
    EnqueueFields(b, o);
    hide SlabOk, Stored, Enqueue, SlotFor;
    var b' := Enqueue(b, o);
    forall j: nat | Live(b'.store, j)
      ensures Queued(b'.On(b'.store[j].order.side), b'.store[j].order.price, j)
    {
      if j != SlotFor(b) {
        assert Live(b.store, j);
        assert Queued(b.On(b.store[j].order.side), b.store[j].order.price, j);
      }
    }
  }

  lemma {:induction false} EnqueueSound(b: Rep, o: Order)
    requires Sound(b) && o.quantity > 0
    ensures Sound(Enqueue(b, o))
  {
    StoredLists(b, o, o.side.Opposite());
    hide QueueOk, SlabOk, Stored, Slots, Enqueue, SlotFor;
    var b' := Enqueue(b, o);
    EnqueueFields(b, o);
    EnqueueLadder(b, o);
    EnqueueSlab(b, o);
    EnqueueQueued(b, o);
    hide LadderOk, AllQueued;
    assert LadderOk(b'.store, o.side.Opposite(), b'.On(o.side.Opposite()));
    assert LadderOk(b'.store, Bid, b'.On(Bid)) && LadderOk(b'.store, Ask, b'.On(Ask));
  }

  lemma {:induction false} EnqueueLists(b: Rep, o: Order)
    requires Sound(b) && o.quantity > 0
    ensures Sound(Enqueue(b, o))
    ensures ListOn(Enqueue(b, o), o.side.Opposite()) == ListOn(b, o.side.Opposite())
    ensures ListOn(Enqueue(b, o), o.side) == Insert(ListOn(b, o.side), Resting(SlotFor(b), o))
  {
    EnqueueSound(b, o);
    EnqueueFields(b, o);
    StoredLists(b, o, o.side);
    StoredLists(b, o, o.side.Opposite());
    SlotsAfterAdd(Stored(b, o).store, o.side, b.On(o.side), SlotFor(b));
  }

  lemma {:induction false} EnqueueScalars(b: Rep, o: Order, v: Book)
    requires SlabOk(b.store, b.free)
    requires v.free == b.free && v.slots == |b.store| && v.index == b.index
    ensures var b', v' := Enqueue(b, o), Rest(v, o);
            && v'.free == b'.free && v'.slots == |b'.store| && v'.index == b'.index
            && v'.On(o.side) == Insert(v.On(o.side), Resting(SlotFor(b), o))
            && v'.On(o.side.Opposite()) == v.On(o.side.Opposite())
  {
    if b.free != [] { assert b.free[0] in b.free; }
  }

  lemma {:induction false} SameBook(v: Book, w: Book, side: Side)
    requires v.On(side) == w.On(side) && v.On(side.Opposite()) == w.On(side.Opposite())
    requires v.free == w.free && v.slots == w.slots && v.index == w.index
    ensures v == w
  {
  }

  lemma {:induction false} EnqueueView(b: Rep, o: Order)
    requires Sound(b) && o.quantity > 0
    ensures Sound(Enqueue(b, o))
    ensures ViewOf(Enqueue(b, o)) == Rest(ViewOf(b), o)
  {
    EnqueueLists(b, o);
    EnqueueScalars(b, o, ViewOf(b));
    ViewOn(b, o.side);
    ViewOn(b, o.side.Opposite());
    ViewOn(Enqueue(b, o), o.side);
    ViewOn(Enqueue(b, o), o.side.Opposite());
    SameBook(ViewOf(Enqueue(b, o)), Rest(ViewOf(b), o), o.side);
  }

  // ---- the view determines the structures --------------------------------------

  ghost function SlotsAt(q: seq<Resting>, p: Price): seq<nat> {
    if q == [] then [] else (if q[0].order.price == p then [q[0].slot] else []) + SlotsAt(q[1..], p)
  }

  lemma {:induction false} SlotsAtConcat(a: seq<Resting>, b: seq<Resting>, p: Price)
    ensures SlotsAt(a + b, p) == SlotsAt(a, p) + SlotsAt(b, p)
  {
    if a == [] {
      assert a + b == b;
    } else {
      ConcatHead(a, b);
      SlotsAtConcat(a[1..], b, p);
      var first := if a[0].order.price == p then [a[0].slot] else [];
      Assoc(first, SlotsAt(a[1..], p), SlotsAt(b, p));
    }
  }

  lemma {:induction false} SlotsAtUniform(store: seq<Entry>, queue: seq<nat>, p: Price, q: Price)
    requires AllLive(store, queue)
    requires forall k :: 0 <= k < |queue| ==> store[queue[k]].order.price == p
    ensures SlotsAt(Listed(store, queue), q) == if p == q then queue else []
  {
    if queue == [] {
    } else {
      assert AllLive(store, queue[1..]) by {
        assert forall k :: 0 <= k < |queue[1..]| ==> queue[1..][k] == queue[k + 1];
      }
      assert Listed(store, queue)[1..] == Listed(store, queue[1..]);
      SlotsAtUniform(store, queue[1..], p, q);
    }
  }

  lemma {:induction false} LevelFromList(store: seq<Entry>, side: Side, ladder: Ladder, p: Price)
    requires LadderOk(store, side, ladder)
    ensures AllLive(store, Slots(side, ladder))
    ensures SlotsAt(Listed(store, Slots(side, ladder)), p) == if p in ladder then ladder[p] else []
    decreases |ladder|
  {
    SlotsOk(store, side, ladder);
    if ladder == map[] {
    } else {
      var best, tail := Best(side, ladder.Keys), Tail(side, ladder);
      HeadQueue(store, side, ladder);
      LevelFromList(store, side, tail, p);
      SlotsAtConcat(Listed(store, ladder[best]), Listed(store, Slots(side, tail)), p);
      assert QueueOk(store, side, best, ladder[best]);
      assert forall k :: 0 <= k < |ladder[best]| ==> BelongsAt(store, ladder[best][k], side, best);
      SlotsAtUniform(store, ladder[best], best, p);
    }
  }

  lemma {:induction false} SameLadder(b: Rep, c: Rep, side: Side)
    requires ValidRep(b) && ValidRep(c)
    requires ListOn(b, side) == ListOn(c, side)
    ensures b.On(side) == c.On(side)
  {
    forall p: Price ensures p in b.On(side) <==> p in c.On(side)
                    ensures p in b.On(side) ==> b.On(side)[p] == c.On(side)[p]
    {
      LevelFromList(b.store, side, b.On(side), p);
      LevelFromList(c.store, side, c.On(side), p);
    }
  }

  lemma {:induction false} ListedWhereLive(b: Rep, i: nat)
    requires Sound(b) && Live(b.store, i)
    ensures Resting(i, b.store[i].order) in ListOn(b, b.store[i].order.side)
  {
    var side := b.store[i].order.side;
    SlotsOk(b.store, side, b.On(side));
    var slots := Slots(side, b.On(side));
    assert i in slots;
    var k :| 0 <= k < |slots| && slots[k] == i;
    assert ListOn(b, side)[k] == Resting(i, b.store[i].order);
  }

  lemma {:induction false} LiveWhereListed(b: Rep, side: Side, r: Resting)
    requires Sound(b) && r in ListOn(b, side)
    ensures Live(b.store, r.slot) && b.store[r.slot].order == r.order
    ensures r.order.side == side && r.order.quantity > 0
  {
    SlotsOk(b.store, side, b.On(side));
    var slots := Slots(side, b.On(side));
    var k :| 0 <= k < |slots| && ListOn(b, side)[k] == r;
    assert slots[k] in slots;
    var p := r.order.price;
    assert Queued(b.On(side), p, slots[k]);
    assert QueueOk(b.store, side, p, b.On(side)[p]);
    var j :| 0 <= j < |b.On(side)[p]| && b.On(side)[p][j] == slots[k];
    assert BelongsAt(b.store, b.On(side)[p][j], side, p);
  }

  lemma {:induction false} SameEntry(b: Rep, c: Rep, i: nat)
    requires Sound(b) && Sound(c) && i < |b.store| == |c.store|
    requires b.free == c.free
    requires ListOn(b, Bid) == ListOn(c, Bid) && ListOn(b, Ask) == ListOn(c, Ask)
    ensures b.store[i] == c.store[i]
  {
    hide LadderOk, AllQueued, ListOn;
    if Live(b.store, i) {
      assert b.store[i].order.side == Bid || b.store[i].order.side == Ask;
      ListedWhereLive(b, i);
      LiveWhereListed(c, b.store[i].order.side, Resting(i, b.store[i].order));
    } else {
      assert i in b.free;
    }
  }

  /** Two valid books with the same view are the same book, slot for slot. */
  lemma {:induction false} ViewDeterminesRep(b: Rep, c: Rep)
    requires ValidRep(b) && ValidRep(c)
    requires ViewOf(b) == ViewOf(c)
    ensures b == c
  {
    SameLadder(b, c, Bid);
    SameLadder(b, c, Ask);
    assert |b.store| == |c.store|;
    forall i: nat | i < |b.store| ensures b.store[i] == c.store[i] {
      SameEntry(b, c, i);
    }
  }
}

/**
 The engine's own structures, as values: a slab of entries and, per side, a map from
 price to a queue of slab slots.  Walking the map from its best price gives the list
 of resting orders; the lemmas say how an edit of the map edits that list.
 */
module Levels {
  import opened MarketTypes
  import opened Sequences
  import opened PriceTimeBook

  datatype Entry = Vacant | Occupied(order: Order)

  type Ladder = map<Price, seq<nat>>

  // ---- best price --------------------------------------------------------------

  ghost predicate IsBest(side: Side, keys: set<Price>, p: Price) {
    p in keys && forall q :: q in keys ==> !Better(side, q, p)
  }

  lemma {:induction false} BestExists(side: Side, keys: set<Price>) returns (best: Price)
    requires keys != {}
    ensures IsBest(side, keys, best)
    decreases |keys|
  {
    var x :| x in keys;
    var others := keys - {x};
    best := x;
    if others == {} {
    } else {
      var p := BestExists(side, others);
      if Better(side, p, x) {
        best := p;
      }
    }
    forall q | q in keys ensures !Better(side, q, best) {
      assert q == x || q in others;
    }
  }

  /** First key of the asks, last key of the bids. */
  function Best(side: Side, keys: set<Price>): (p: Price)
    requires keys != {}
    ensures p in keys && forall q :: q in keys ==> !Better(side, q, p)
  {
    assert exists p :: IsBest(side, keys, p) by { var p := BestExists(side, keys); }
    var p :| p in keys && forall q :: q in keys ==> !Better(side, q, p);
    p
  }

  lemma {:induction false} BestIs(side: Side, keys: set<Price>, p: Price)
    requires p in keys && forall q :: q in keys ==> !Better(side, q, p)
    ensures Best(side, keys) == p
  {
  }

  function Tail(side: Side, ladder: Ladder): (l: Ladder)
    requires ladder != map[]
    ensures |l| < |ladder|
    ensures l.Keys == ladder.Keys - {Best(side, ladder.Keys)}
  {
    var l := ladder - {Best(side, ladder.Keys)};
    assert l.Keys == ladder.Keys - {Best(side, ladder.Keys)};
    l
  }

  /** All queued slots, best price first. */
  function Slots(side: Side, ladder: Ladder): seq<nat>
    decreases |ladder|
  {
    if ladder == map[] then []
    else ladder[Best(side, ladder.Keys)] + Slots(side, Tail(side, ladder))
  }

  // ---- what a ladder may hold --------------------------------------------------

  predicate Live(store: seq<Entry>, i: nat) {
    i < |store| && store[i].Occupied?
  }

  predicate AllLive(store: seq<Entry>, slots: seq<nat>) {
    forall k :: 0 <= k < |slots| ==> Live(store, slots[k])
  }

  /** Slot i holds an order that belongs at this side and price. */
  predicate BelongsAt(store: seq<Entry>, i: nat, side: Side, p: Price) {
    && Live(store, i)
    && store[i].order.side == side
    && store[i].order.price == p
    && store[i].order.quantity > 0
  }

  predicate QueueOk(store: seq<Entry>, side: Side, p: Price, queue: seq<nat>) {
    && Distinct(queue)
    && forall k :: 0 <= k < |queue| ==> BelongsAt(store, queue[k], side, p)
  }

  predicate LadderOk(store: seq<Entry>, side: Side, ladder: Ladder) {
    forall p :: p in ladder ==> QueueOk(store, side, p, ladder[p])
  }

  predicate Queued(ladder: Ladder, p: Price, i: nat) {
    p in ladder && i in ladder[p]
  }

  /** The slots of one level: live, distinct, all at its price, and in no other level. */
  lemma {:induction false} HeadLevel(store: seq<Entry>, side: Side, ladder: Ladder, p: Price)
    requires LadderOk(store, side, ladder) && p in ladder
    ensures AllLive(store, ladder[p]) && Distinct(ladder[p])
    ensures forall i: nat :: i in ladder[p] ==> Live(store, i) && store[i].order.price == p
  {
  }

  lemma {:induction false} JoinSlots(store: seq<Entry>, ladder: Ladder, tail: Ladder, p: Price, a: seq<nat>, b: seq<nat>)
    requires p in ladder && tail == ladder - {p} && a == ladder[p]
    requires AllLive(store, a) && AllLive(store, b) && Distinct(a) && Distinct(b)
    requires forall i: nat :: i in a ==> Live(store, i) && store[i].order.price == p
    requires forall i: nat :: i in b <==> Live(store, i) && Queued(tail, store[i].order.price, i)
    ensures AllLive(store, a + b) && Distinct(a + b)
    ensures forall i: nat :: i in a + b <==> Live(store, i) && Queued(ladder, store[i].order.price, i)
  {
  }

  lemma {:induction false} SlotsOk(store: seq<Entry>, side: Side, ladder: Ladder)
    requires LadderOk(store, side, ladder)
    ensures AllLive(store, Slots(side, ladder))
    ensures Distinct(Slots(side, ladder))
    ensures forall i: nat :: i in Slots(side, ladder) <==>
              Live(store, i) && Queued(ladder, store[i].order.price, i)
    decreases |ladder|
  {
    hide QueueOk;
    if ladder == map[] {
    } else {
      var p, tail := Best(side, ladder.Keys), Tail(side, ladder);
      SlotsOk(store, side, tail);
      HeadLevel(store, side, ladder, p);
      JoinSlots(store, ladder, tail, p, ladder[p], Slots(side, tail));
    }
  }

  // ---- the list a ladder stands for --------------------------------------------

  function Listed(store: seq<Entry>, slots: seq<nat>): (q: seq<Resting>)
    requires AllLive(store, slots)
    ensures |q| == |slots|
    ensures forall k :: 0 <= k < |q| ==> q[k] == Resting(slots[k], store[slots[k]].order)
  {
    seq(|slots|, k requires 0 <= k < |slots| => Resting(slots[k], store[slots[k]].order))
  }

  lemma {:induction false} ListedConcat(store: seq<Entry>, a: seq<nat>, b: seq<nat>)
    requires AllLive(store, a) && AllLive(store, b)
    ensures AllLive(store, a + b)
    ensures Listed(store, a + b) == Listed(store, a) + Listed(store, b)
  {
  }

  lemma {:induction false} ListedUntouched(store: seq<Entry>, slots: seq<nat>, i: nat, e: Entry)
    requires AllLive(store, slots)
    requires i < |store| && i !in slots
    ensures AllLive(store[i := e], slots)
    ensures Listed(store[i := e], slots) == Listed(store, slots)
  {
  }

  lemma {:induction false} ListedHeadReplaced(store: seq<Entry>, slots: seq<nat>, o: Order)
    requires slots != [] && Distinct(slots) && AllLive(store, slots)
    ensures AllLive(store[slots[0] := Occupied(o)], slots)
    ensures Listed(store[slots[0] := Occupied(o)], slots) == [Resting(slots[0], o)] + Listed(store, slots)[1..]
  {
  }

  lemma {:induction false} ListedExtended(store: seq<Entry>, slots: seq<nat>, e: Entry)
    requires AllLive(store, slots)
    ensures AllLive(store + [e], slots)
    ensures Listed(store + [e], slots) == Listed(store, slots)
  {
    assert forall k :: 0 <= k < |slots| ==> Live(store, slots[k]);
  }

  lemma {:induction false} ListedWithout(store: seq<Entry>, slots: seq<nat>, i: nat)
    requires AllLive(store, slots)
    ensures AllLive(store, Without(slots, i))
    ensures Listed(store, Without(slots, i)) == WithoutSlot(Listed(store, slots), i)
  {
    if slots == [] {
    } else {
      var rest := slots[1..];
      assert AllLive(store, rest) by { assert forall k :: 0 <= k < |rest| ==> rest[k] == slots[k + 1]; }
      ListedWithout(store, rest, i);
      assert Listed(store, slots)[1..] == Listed(store, rest);
      if slots[0] != i {
        assert Live(store, slots[0]);
        assert AllLive(store, [slots[0]]);
        ListedConcat(store, [slots[0]], Without(rest, i));
        assert Listed(store, [slots[0]]) == [Listed(store, slots)[0]];
      }
    }
  }

  // ---- edits of a ladder -------------------------------------------------------

  function RemoveFrom(ladder: Ladder, p: Price, i: nat): Ladder
    requires p in ladder
  {
    ladder[p := Without(ladder[p], i)]
  }

  /** A slot is queued only at its own price. */
  lemma {:induction false} NotQueuedElsewhere(store: seq<Entry>, side: Side, ladder: Ladder, p: Price, q: Price, i: nat)
    requires LadderOk(store, side, ladder) && BelongsAt(store, i, side, p)
    requires q in ladder && q != p
    ensures i !in ladder[q]
  {
    assert QueueOk(store, side, q, ladder[q]);
  }

  lemma {:induction false} SlotsByHead(side: Side, ladder: Ladder, best: Price, tail: Ladder)
    requires IsBest(side, ladder.Keys, best)
    requires tail == ladder - {best}
    ensures Slots(side, ladder) == ladder[best] + Slots(side, tail)
  {
    BestIs(side, ladder.Keys, best);
  }

  lemma {:induction false} RemovedFromHead(store: seq<Entry>, side: Side, ladder: Ladder, i: nat)
    requires LadderOk(store, side, ladder) && ladder != map[]
    requires BelongsAt(store, i, side, Best(side, ladder.Keys))
    ensures Without(Slots(side, Tail(side, ladder)), i) == Slots(side, Tail(side, ladder))
  {
    SlotsOk(store, side, Tail(side, ladder));
    WithoutAbsent(Slots(side, Tail(side, ladder)), i);
  }

  lemma {:induction false} RemoveBySplit(side: Side, ladder: Ladder, p: Price, i: nat)
    requires p in ladder
    ensures var best, tail := Best(side, ladder.Keys), Tail(side, ladder);
            Slots(side, RemoveFrom(ladder, p, i)) ==
            if best == p then Without(ladder[best], i) + Slots(side, tail)
            else ladder[best] + Slots(side, RemoveFrom(tail, p, i))
  {
    hide Slots, Without;
    var best, tail := Best(side, ladder.Keys), Tail(side, ladder);
    var ladder' := RemoveFrom(ladder, p, i);
    assert ladder'.Keys == ladder.Keys;
    if best == p {
      assert ladder' - {best} == tail;
      SlotsByHead(side, ladder', best, tail);
    } else {
      assert ladder' - {best} == RemoveFrom(tail, p, i);
      SlotsByHead(side, ladder', best, RemoveFrom(tail, p, i));
    }
  }

  lemma {:induction false} SlotsAfterRemove(store: seq<Entry>, side: Side, ladder: Ladder, p: Price, i: nat)
    requires LadderOk(store, side, ladder)
    requires p in ladder && BelongsAt(store, i, side, p)
    ensures Slots(side, RemoveFrom(ladder, p, i)) == Without(Slots(side, ladder), i)
    decreases |ladder|
  {
    hide QueueOk, BelongsAt, Without, Slots, RemoveFrom;
    var best := Best(side, ladder.Keys);
    var tail := Tail(side, ladder);
    WithoutConcat(ladder[best], Slots(side, tail), i);
    SlotsByHead(side, ladder, best, tail);
    RemoveBySplit(side, ladder, p, i);
    if best == p {
      RemovedFromHead(store, side, ladder, i);
    } else {
      SlotsAfterRemove(store, side, tail, p, i);
      NotQueuedElsewhere(store, side, ladder, p, best, i);
      WithoutAbsent(ladder[best], i);
    }
  }

  lemma {:induction false} SlotsAfterDrop(side: Side, ladder: Ladder, p: Price)
    requires p in ladder && ladder[p] == []
    ensures Slots(side, ladder - {p}) == Slots(side, ladder)
    decreases |ladder|
  {
    var best := Best(side, ladder.Keys);
    var tail := Tail(side, ladder);
    if best == p {
      assert ladder - {p} == tail;
    } else {
      var dropped := ladder - {p};
      assert dropped.Keys == ladder.Keys - {p};
      assert best in dropped;
      BestIs(side, dropped.Keys, best);
      assert Tail(side, dropped) == tail - {p};
      SlotsAfterDrop(side, tail, p);
    }
  }

  /** `entry(price).or_insert_with(VecDeque::new)` followed by `push_back`. */
  function AddTo(ladder: Ladder, p: Price, i: nat): Ladder {
    ladder[p := (if p in ladder then ladder[p] else []) + [i]]
  }

  lemma {:induction false} InsertSkips(a: seq<Resting>, b: seq<Resting>, r: Resting)
    requires forall k :: 0 <= k < |a| ==> !Better(r.order.side, r.order.price, a[k].order.price)
    ensures Insert(a + b, r) == a + Insert(b, r)
  {
    if a == [] {
      assert a + b == b;
    } else {
      ConcatHead(a, b);
      InsertSkips(a[1..], b, r);
      Assoc([a[0]], a[1..], Insert(b, r));
    }
  }

  /** The new order has the best price of all: it heads the list. */
  lemma {:induction false} AddInFront(store: seq<Entry>, side: Side, ladder: Ladder, i: nat)
    requires LadderOk(store, side, ladder)
    requires Live(store, i) && store[i].order.side == side
    requires forall q :: q in ladder ==> Better(side, store[i].order.price, q)
    ensures Slots(side, AddTo(ladder, store[i].order.price, i)) == [i] + Slots(side, ladder)
  {
    hide QueueOk;
    var p := store[i].order.price;
    var ladder' := AddTo(ladder, p, i);
    assert p !in ladder;
    assert ladder'.Keys == ladder.Keys + {p};
    assert ladder' - {p} == ladder;
    assert ladder'[p] == [i];
    SlotsByHead(side, ladder', p, ladder);
  }

  /** An order better than every price of the ladder is inserted at the front. */
  lemma {:induction false} NotBetterThanHead(store: seq<Entry>, side: Side, ladder: Ladder, r: Resting)
    requires LadderOk(store, side, ladder)
    requires AllLive(store, Slots(side, ladder))
    requires r.order.side == side
    requires forall q :: q in ladder ==> Better(side, r.order.price, q)
    ensures Insert(Listed(store, Slots(side, ladder)), r) == [r] + Listed(store, Slots(side, ladder))
  {
    SlotsOk(store, side, ladder);
    var s := Slots(side, ladder);
    if s != [] {
      assert s[0] in s;
      assert Queued(ladder, store[s[0]].order.price, s[0]);
    }
  }

  lemma {:induction false} AddToHead(side: Side, ladder: Ladder, i: nat)
    requires ladder != map[]
    ensures var best := Best(side, ladder.Keys);
            Slots(side, AddTo(ladder, best, i)) == ladder[best] + ([i] + Slots(side, Tail(side, ladder)))
  {
    var best, tail := Best(side, ladder.Keys), Tail(side, ladder);
    var ladder' := AddTo(ladder, best, i);
    assert ladder'.Keys == ladder.Keys;
    assert ladder' - {best} == tail;
    SlotsByHead(side, ladder', best, tail);
    assert ladder[best] + [i] + Slots(side, tail) == ladder[best] + ([i] + Slots(side, tail));
  }

  /** The list starts with the best level's orders. */
  lemma {:induction false} HeadQueue(store: seq<Entry>, side: Side, ladder: Ladder)
    requires LadderOk(store, side, ladder)
    requires ladder != map[]
    ensures AllLive(store, Slots(side, ladder))
    ensures AllLive(store, ladder[Best(side, ladder.Keys)])
    ensures AllLive(store, Slots(side, Tail(side, ladder)))
    ensures Listed(store, Slots(side, ladder))
            == Listed(store, ladder[Best(side, ladder.Keys)]) + Listed(store, Slots(side, Tail(side, ladder)))
  {
    var best := Best(side, ladder.Keys);
    SlotsOk(store, side, ladder);
    SlotsOk(store, side, Tail(side, ladder));
    var a := ladder[best];
    assert QueueOk(store, side, best, a);
    assert forall k :: 0 <= k < |a| ==> BelongsAt(store, a[k], side, best);
    ListedConcat(store, a, Slots(side, Tail(side, ladder)));
  }

  lemma {:induction false} UniformPrice(store: seq<Entry>, side: Side, ladder: Ladder, p: Price)
    requires LadderOk(store, side, ladder) && p in ladder
    ensures AllLive(store, ladder[p])
    ensures forall k :: 0 <= k < |ladder[p]| ==> Listed(store, ladder[p])[k].order.price == p
  {
  }

  lemma {:induction false} ListedCons(store: seq<Entry>, i: nat, slots: seq<nat>)
    requires Live(store, i) && AllLive(store, slots)
    ensures AllLive(store, [i] + slots)
    ensures Listed(store, [i] + slots) == [Resting(i, store[i].order)] + Listed(store, slots)
  {
  }

  /** The new order joins the best level: it goes right behind it. */
  lemma {:induction false} AddAtHead(store: seq<Entry>, side: Side, ladder: Ladder, i: nat)
    requires LadderOk(store, side, ladder) && ladder != map[]
    requires Live(store, i) && store[i].order.side == side && store[i].order.price == Best(side, ladder.Keys)
    ensures AllLive(store, Slots(side, ladder)) && AllLive(store, Slots(side, AddTo(ladder, store[i].order.price, i)))
    ensures Listed(store, Slots(side, AddTo(ladder, store[i].order.price, i)))
            == Insert(Listed(store, Slots(side, ladder)), Resting(i, store[i].order))
  {
    hide QueueOk, Insert, AddTo, Slots;
    var r := Resting(i, store[i].order);
    var best, tail := Best(side, ladder.Keys), Tail(side, ladder);
    var a, b := ladder[best], Slots(side, tail);
    HeadQueue(store, side, ladder);
    UniformPrice(store, side, ladder, best);
    InsertSkips(Listed(store, a), Listed(store, b), r);
    NotBetterThanHead(store, side, tail, r);
    AddToHead(side, ladder, i);
    ListedCons(store, i, b);
    ListedConcat(store, a, [i] + b);
  }

  lemma {:induction false} AddBehindHead(side: Side, ladder: Ladder, p: Price, i: nat)
    requires ladder != map[]
    requires Better(side, Best(side, ladder.Keys), p)
    ensures var best := Best(side, ladder.Keys);
            Slots(side, AddTo(ladder, p, i)) == ladder[best] + Slots(side, AddTo(Tail(side, ladder), p, i))
  {
    var best, tail := Best(side, ladder.Keys), Tail(side, ladder);
    var ladder' := AddTo(ladder, p, i);
    assert ladder'.Keys == ladder.Keys + {p};
    assert ladder' - {best} == AddTo(tail, p, i);
    SlotsByHead(side, ladder', best, AddTo(tail, p, i));
  }

  /** The new order's price is worse than the best: the best level stays in front. */
  lemma {:induction false} AddPastHead(store: seq<Entry>, side: Side, ladder: Ladder, i: nat)
    requires LadderOk(store, side, ladder) && ladder != map[]
    requires Live(store, i) && store[i].order.side == side
    requires Better(side, Best(side, ladder.Keys), store[i].order.price)
    requires var tail := Tail(side, ladder);
             var p := store[i].order.price;
             && AllLive(store, Slots(side, tail)) && AllLive(store, Slots(side, AddTo(tail, p, i)))
             && Listed(store, Slots(side, AddTo(tail, p, i)))
                == Insert(Listed(store, Slots(side, tail)), Resting(i, store[i].order))
    ensures AllLive(store, Slots(side, ladder)) && AllLive(store, Slots(side, AddTo(ladder, store[i].order.price, i)))
    ensures Listed(store, Slots(side, AddTo(ladder, store[i].order.price, i)))
            == Insert(Listed(store, Slots(side, ladder)), Resting(i, store[i].order))
  {
    hide QueueOk, Insert, AddTo, Slots;
    var p, r := store[i].order.price, Resting(i, store[i].order);
    var best, tail := Best(side, ladder.Keys), Tail(side, ladder);
    HeadQueue(store, side, ladder);
    UniformPrice(store, side, ladder, best);
    InsertSkips(Listed(store, ladder[best]), Listed(store, Slots(side, tail)), r);
    AddBehindHead(side, ladder, p, i);
    ListedConcat(store, ladder[best], Slots(side, AddTo(tail, p, i)));
  }

  lemma {:induction false} SlotsAfterAdd(store: seq<Entry>, side: Side, ladder: Ladder, i: nat)
    requires LadderOk(store, side, ladder)
    requires Live(store, i) && store[i].order.side == side
    requires AllLive(store, Slots(side, ladder))
    ensures var p := store[i].order.price;
            && AllLive(store, Slots(side, AddTo(ladder, p, i)))
            && Listed(store, Slots(side, AddTo(ladder, p, i)))
               == Insert(Listed(store, Slots(side, ladder)), Resting(i, store[i].order))
    decreases |ladder|
  {
    hide QueueOk, Insert, AddTo, Slots;
    var p := store[i].order.price;
    if ladder == map[] || Better(side, p, Best(side, ladder.Keys)) {
      AddInFront(store, side, ladder, i);
      ListedCons(store, i, Slots(side, ladder));
      NotBetterThanHead(store, side, ladder, Resting(i, store[i].order));
    } else if p == Best(side, ladder.Keys) {
      AddAtHead(store, side, ladder, i);
    } else {
      HeadQueue(store, side, ladder);
      SlotsAfterAdd(store, side, Tail(side, ladder), i);
      AddPastHead(store, side, ladder, i);
    }
  }
}

/** What holds of the book after every history of places and cancels. */
module Histories {
  import opened Bytes
  import opened MarketTypes
  import opened PriceTimeBook
  import opened Matching

  // ---- thinning: orders leave or shrink, nobody overtakes ----------------------

  ghost predicate Shrunk(r': Resting, r: Resting) {
    && r' == Resting(r.slot, r.order.(quantity := r'.order.quantity))
    && 0 < r'.order.quantity <= r.order.quantity
  }

  ghost predicate ThinnedAt(q': seq<Resting>, q: seq<Resting>, at: seq<nat>) {
    && |at| == |q'|
    && (forall a :: 0 <= a < |at| ==> at[a] < |q|)
    && (forall a, b :: 0 <= a < b < |at| ==> at[a] < at[b])
    && (forall a :: 0 <= a < |at| ==> Shrunk(q'[a], q[at[a]]))
  }

  ghost predicate Thinned(q': seq<Resting>, q: seq<Resting>) {
    exists at :: ThinnedAt(q', q, at)
  }

  lemma {:induction false} ThinnedRefl(q: seq<Resting>)
    requires Positive(q)
    ensures Thinned(q, q)
  {
    assert ThinnedAt(q, q, seq(|q|, i => i));
  }

  lemma {:induction false} ThinnedTail(q': seq<Resting>, q: seq<Resting>)
    requires q != [] && Thinned(q', q[1..])
    ensures Thinned(q', q)
  {
    var at :| ThinnedAt(q', q[1..], at);
    assert ThinnedAt(q', q, seq(|at|, i requires 0 <= i < |at| => at[i] + 1));
  }

  lemma {:induction false} ThinnedCons(r: Resting, q': seq<Resting>, q: seq<Resting>)
    requires q != [] && Thinned(q', q[1..]) && Shrunk(r, q[0])
    ensures Thinned([r] + q', q)
  {
    var at :| ThinnedAt(q', q[1..], at);
    var at' := [0] + seq(|at|, i requires 0 <= i < |at| => at[i] + 1);
    var whole := [r] + q';
    forall a | 0 <= a < |at'| ensures at'[a] < |q| && Shrunk(whole[a], q[at'[a]]) {
      if a > 0 {
        assert at'[a] == at[a - 1] + 1;
        assert Shrunk(q'[a - 1], q[1..][at[a - 1]]);
      }
    }
    assert ThinnedAt(whole, q, at');
  }

  lemma {:induction false} PositiveTail(q: seq<Resting>)
    requires q != [] && Positive(q)
    ensures q[0].order.quantity > 0 && Positive(q[1..])
  {
  }

  lemma {:induction false} MatchThins(t: Taker, q: seq<Resting>, free: seq<nat>, quantity: Quantity)
    requires Positive(q)
    ensures Thinned(Match(t, q, free, quantity).rest, q)
    decreases |q|
  {
    hide Thinned, Positive, Acceptable;
    if quantity == 0 || q == [] || !Acceptable(t, q[0].order.price) {
      ThinnedRefl(q);
    } else {
      PositiveTail(q);
      var m := q[0].order;
      if m.user == t.user {
        MatchThins(t, q[1..], [q[0].slot] + free, quantity);
        ThinnedTail(Match(t, q[1..], [q[0].slot] + free, quantity).rest, q);
      } else if m.quantity <= quantity {
        MatchThins(t, q[1..], [q[0].slot] + free, quantity - m.quantity);
        ThinnedTail(Match(t, q[1..], [q[0].slot] + free, quantity - m.quantity).rest, q);
      } else {
        ThinnedRefl(q[1..]);
        ThinnedCons(Resting(q[0].slot, m.(quantity := m.quantity - quantity)), q[1..], q);
      }
    }
  }

  lemma {:induction false} WithoutThins(q: seq<Resting>, slot: nat)
    requires Positive(q)
    ensures Thinned(WithoutSlot(q, slot), q)
  {
    hide Thinned, Positive;
    if q == [] {
      ThinnedRefl(q);
    } else {
      PositiveTail(q);
      WithoutThins(q[1..], slot);
      var rest := WithoutSlot(q[1..], slot);
      if q[0].slot == slot {
        ThinnedTail(rest, q);
        assert WithoutSlot(q, slot) == rest;
      } else {
        ThinnedCons(q[0], rest, q);
      }
    }
  }

  /** What thinning passes on, element by element. */
  lemma {:induction false} ThinnedMember(q': seq<Resting>, q: seq<Resting>, r': Resting)
    returns (r: Resting)
    requires Thinned(q', q) && r' in q'
    ensures r in q && Shrunk(r', r)
  {
    var at :| ThinnedAt(q', q, at);
    var a :| 0 <= a < |q'| && q'[a] == r';
    r := q[at[a]];
  }

  // ---- insertion ---------------------------------------------------------------

  /** Insert splits the list where the price gets worse. */
  lemma {:induction false} InsertPosition(q: seq<Resting>, r: Resting) returns (k: nat)
    ensures k <= |q| && Insert(q, r) == q[..k] + [r] + q[k..]
    ensures forall i :: 0 <= i < k ==> !Better(r.order.side, r.order.price, q[i].order.price)
    ensures k < |q| ==> Better(r.order.side, r.order.price, q[k].order.price)
  {
    if q == [] || Better(r.order.side, r.order.price, q[0].order.price) {
      k := 0;
      assert q[..0] == [] && q[0..] == q;
    } else {
      var j := InsertPosition(q[1..], r);
      k := j + 1;
      assert q[..k] == [q[0]] + q[1..][..j];
      assert q[k..] == q[1..][j..];
    }
  }

  lemma {:induction false} InsertSorted(q: seq<Resting>, r: Resting)
    requires Sorted(r.order.side, q) && Positive(q) && r.order.quantity > 0
    ensures Sorted(r.order.side, Insert(q, r)) && Positive(Insert(q, r))
  {
    var k := InsertPosition(q, r);
    var q' := q[..k] + [r] + q[k..];
    assert forall i :: k <= i < |q| ==> Better(r.order.side, r.order.price, q[i].order.price);
    forall i, j | 0 <= i < j < |q'| ensures !Better(r.order.side, q'[j].order.price, q'[i].order.price) {
    }
  }

  lemma {:induction false} InsertMembers(q: seq<Resting>, r: Resting, x: Resting)
    ensures x in Insert(q, r) <==> x == r || x in q
  {
    var k := InsertPosition(q, r);
    assert q == q[..k] + q[k..];
  }

  // ---- slots: every slot is used exactly once ----------------------------------

  /** How many orders of q sit in slot s. */
  function Uses(q: seq<Resting>, s: nat): nat {
    if q == [] then 0 else (if q[0].slot == s then 1 else 0) + Uses(q[1..], s)
  }

  function Count(xs: seq<nat>, s: nat): nat {
    if xs == [] then 0 else (if xs[0] == s then 1 else 0) + Count(xs[1..], s)
  }

  function Claims(b: Book, s: nat): nat {
    Uses(b.bids, s) + Uses(b.asks, s) + Count(b.free, s)
  }

  /** Slots 0 .. slots - 1 are each either held by one resting order or free, once. */
  ghost predicate Slotted(b: Book) {
    forall s: nat :: Claims(b, s) == if s < b.slots then 1 else 0
  }

  lemma {:induction false} InsertUses(q: seq<Resting>, r: Resting, s: nat)
    ensures Uses(Insert(q, r), s) == Uses(q, s) + if r.slot == s then 1 else 0
  {
    if q == [] || Better(r.order.side, r.order.price, q[0].order.price) {
      assert ([r] + q)[1..] == q;
    } else {
      InsertUses(q[1..], r, s);
      assert ([q[0]] + Insert(q[1..], r))[1..] == Insert(q[1..], r);
    }
  }

  lemma {:induction false} CountCons(x: nat, xs: seq<nat>, s: nat)
    ensures Count([x] + xs, s) == Count(xs, s) + if x == s then 1 else 0
  {
    assert ([x] + xs)[1..] == xs;
  }

  lemma {:induction false} MatchUses(t: Taker, q: seq<Resting>, free: seq<nat>, quantity: Quantity, s: nat)
    ensures var f := Match(t, q, free, quantity);
            Uses(f.rest, s) + Count(f.free, s) == Uses(q, s) + Count(free, s)
    decreases |q|
  {
    if quantity == 0 || q == [] || !Acceptable(t, q[0].order.price) {
    } else {
      var m := q[0].order;
      CountCons(q[0].slot, free, s);
      if m.user == t.user {
        MatchUses(t, q[1..], [q[0].slot] + free, quantity, s);
      } else if m.quantity <= quantity {
        MatchUses(t, q[1..], [q[0].slot] + free, quantity - m.quantity, s);
      } else {
        var r := Resting(q[0].slot, m.(quantity := m.quantity - quantity));
        assert ([r] + q[1..])[1..] == q[1..];
      }
    }
  }

  lemma {:induction false} WithoutUses(q: seq<Resting>, slot: nat, s: nat)
    ensures Uses(WithoutSlot(q, slot), s) == if s == slot then 0 else Uses(q, s)
  {
    if q == [] {
    } else {
      WithoutUses(q[1..], slot, s);
      var rest := WithoutSlot(q[1..], slot);
      if q[0].slot == slot {
        assert WithoutSlot(q, slot) == rest;
      } else {
        assert ([q[0]] + rest)[1..] == rest;
      }
    }
  }

  lemma {:induction false} UsesMember(q: seq<Resting>, i: nat)
    requires i < |q|
    ensures Uses(q, q[i].slot) > 0
  {
    if i == 0 {
    } else {
      UsesMember(q[1..], i - 1);
    }
  }

  lemma {:induction false} UsesTwice(q: seq<Resting>, i: nat, j: nat)
    requires i < j < |q| && q[i].slot == q[j].slot
    ensures Uses(q, q[i].slot) > 1
  {
    if i > 0 {
      UsesTwice(q[1..], i - 1, j - 1);
    } else {
      UsesMember(q[1..], j - 1);
    }
  }

  // ---- the invariant -----------------------------------------------------------

  ghost predicate SideOk(side: Side, q: seq<Resting>) {
    && Sorted(side, q) && Positive(q)
    && forall i :: 0 <= i < |q| ==> q[i].order.side == side
  }

  /** Every resting bid is strictly below every resting ask. */
  ghost predicate Uncrossed(b: Book) {
    forall i, j :: 0 <= i < |b.bids| && 0 <= j < |b.asks| ==> b.bids[i].order.price < b.asks[j].order.price
  }

  ghost predicate Inv(b: Book) {
    SideOk(Bid, b.bids) && SideOk(Ask, b.asks) && Uncrossed(b) && Slotted(b)
  }

  lemma {:induction false} ThinnedSide(side: Side, q': seq<Resting>, q: seq<Resting>)
    requires Thinned(q', q) && SideOk(side, q)
    ensures SideOk(side, q')
  {
  }

  lemma {:induction false} ThinnedUncrossed(b': Book, b: Book)
    requires Thinned(b'.bids, b.bids) && Thinned(b'.asks, b.asks) && Uncrossed(b)
    ensures Uncrossed(b')
  {
  }

  lemma {:induction false} MatchedThins(b: Book, t: Taker, quantity: Quantity)
    requires Positive(b.bids) && Positive(b.asks)
    ensures var m := Matched(b, t, quantity);
            && Thinned(m.bids, b.bids) && Thinned(m.asks, b.asks)
            && m.index == b.index && m.slots == b.slots
            && (forall s: nat :: Claims(m, s) == Claims(b, s))
  {
    hide Thinned, Match, Uses, Count;
    var opp := t.side.Opposite();
    MatchThins(t, b.On(opp), b.free, quantity);
    forall s: nat ensures Claims(Matched(b, t, quantity), s) == Claims(b, s) {
      MatchUses(t, b.On(opp), b.free, quantity, s);
    }
    ThinnedRefl(b.On(t.side));
  }

  lemma {:induction false} MatchedInv(b: Book, t: Taker, quantity: Quantity)
    requires Inv(b)
    ensures Inv(Matched(b, t, quantity))
  {
    hide Thinned, Sorted, Claims;
    MatchedThins(b, t, quantity);
    var m := Matched(b, t, quantity);
    ThinnedSide(Bid, m.bids, b.bids);
    ThinnedSide(Ask, m.asks, b.asks);
    ThinnedUncrossed(m, b);
  }

  /** A taker with quantity left over has met every acceptable order. */
  lemma {:induction false} MatchExhausts(t: Taker, q: seq<Resting>, free: seq<nat>, quantity: Quantity)
    requires Sorted(t.side.Opposite(), q)
    requires Match(t, q, free, quantity).left > 0
    ensures forall i :: 0 <= i < |Match(t, q, free, quantity).rest| ==>
              !Acceptable(t, Match(t, q, free, quantity).rest[i].order.price)
    decreases |q|
  {
    if q == [] {
    } else {
      if Acceptable(t, q[0].order.price) {
        var m := q[0].order;
        MatchExhausts(t, q[1..], [q[0].slot] + free, if m.user == t.user then quantity else quantity - Min(quantity, m.quantity));
      } else {
        forall i | 0 <= i < |q| ensures !Acceptable(t, q[i].order.price) {
          assert i == 0 || !Better(t.side.Opposite(), q[i].order.price, q[0].order.price);
        }
      }
    }
  }

  lemma {:induction false} NextSlotFresh(b: Book)
    requires Slotted(b)
    ensures Uses(b.bids, NextSlot(b)) == 0 && Uses(b.asks, NextSlot(b)) == 0
    ensures b.free != [] ==> b.free[0] < b.slots
  {
    assert Claims(b, NextSlot(b)) <= 1;
    assert b.free == [] ==> Claims(b, b.slots) == 0;
  }

  lemma {:induction false} RestSlotted(b: Book, o: Order)
    requires Slotted(b)
    ensures Slotted(Rest(b, o))
  {
    var b' := Rest(b, o);
    var n := NextSlot(b);
    NextSlotFresh(b);
    forall s: nat ensures Claims(b', s) == if s < b'.slots then 1 else 0 {
      InsertUses(b.On(o.side), Resting(n, o), s);
      assert Claims(b, s) == if s < b.slots then 1 else 0;
      if b.free != [] {
        CountCons(n, b.free[1..], s);
        assert b.free == [n] + b.free[1..];
      }
    }
  }

  lemma {:induction false} RestSides(b: Book, o: Order)
    requires SideOk(Bid, b.bids) && SideOk(Ask, b.asks) && o.quantity > 0
    ensures SideOk(Bid, Rest(b, o).bids) && SideOk(Ask, Rest(b, o).asks)
  {
    var r := Resting(NextSlot(b), o);
    InsertSorted(b.On(o.side), r);
    forall x | x in Insert(b.On(o.side), r) ensures x.order.side == o.side {
      InsertMembers(b.On(o.side), r, x);
    }
  }

  lemma {:induction false} RestUncrossed(b: Book, o: Order)
    requires Uncrossed(b)
    requires forall i :: 0 <= i < |b.On(o.side.Opposite())| ==>
               Better(o.side, b.On(o.side.Opposite())[i].order.price, o.price)
    ensures Uncrossed(Rest(b, o))
  {
    var r := Resting(NextSlot(b), o);
    forall x | x in Insert(b.On(o.side), r) ensures x == r || x in b.On(o.side) {
      InsertMembers(b.On(o.side), r, x);
    }
    var b' := Rest(b, o);
    forall i, j | 0 <= i < |b'.bids| && 0 <= j < |b'.asks|
      ensures b'.bids[i].order.price < b'.asks[j].order.price
    {
      if o.side.Bid? {
        assert b'.bids == Insert(b.On(o.side), r) && b'.asks == b.On(o.side.Opposite());
        assert b'.bids[i] in b'.bids;
      } else {
        assert b'.asks == Insert(b.On(o.side), r) && b'.bids == b.On(o.side.Opposite());
        assert b'.asks[j] in b'.asks;
      }
    }
  }

  lemma {:induction false} PlaceInv(b: Book, t: Taker, quantity: Quantity)
    requires Inv(b)
    ensures Inv(PlaceOrder(b, t, quantity).book)
  {
    MatchedInv(b, t, quantity);
    var opp := t.side.Opposite();
    var f := Match(t, b.On(opp), b.free, quantity);
    if f.left > 0 {
      var m := Matched(b, t, quantity);
      var o := Order(t.id, t.user, t.price, f.left, t.side);
      MatchExhausts(t, b.On(opp), b.free, quantity);
      assert m.On(opp) == f.rest;
      RestSlotted(m, o);
      RestSides(m, o);
      RestUncrossed(m, o);
    }
  }

  lemma {:induction false} CancelSlotted(b: Book, id: OrderId, user: UserId)
    requires Slotted(b) && Cancels(b, id, user)
    ensures Slotted(CancelOrder(b, id, user).book)
    ensures b.index[id] < b.slots
  {
    var n := b.index[id];
    var b' := CancelOrder(b, id, user).book;
    if Holds(b.bids, n, user) {
      var i :| 0 <= i < |b.bids| && b.bids[i].slot == n && b.bids[i].order.user == user;
      UsesMember(b.bids, i);
    } else {
      var i :| 0 <= i < |b.asks| && b.asks[i].slot == n && b.asks[i].order.user == user;
      UsesMember(b.asks, i);
    }
    assert Claims(b, n) == if n < b.slots then 1 else 0;
    forall s: nat ensures Claims(b', s) == if s < b'.slots then 1 else 0 {
      WithoutUses(b.bids, n, s);
      WithoutUses(b.asks, n, s);
      CountCons(n, b.free, s);
      assert Claims(b, s) == if s < b.slots then 1 else 0;
    }
  }

  lemma {:induction false} CancelInv(b: Book, id: OrderId, user: UserId)
    requires Inv(b)
    ensures Inv(CancelOrder(b, id, user).book)
  {
    if Cancels(b, id, user) {
      var s := b.index[id];
      CancelSlotted(b, id, user);
      WithoutThins(b.bids, s);
      WithoutThins(b.asks, s);
      ThinnedSide(Bid, WithoutSlot(b.bids, s), b.bids);
      ThinnedSide(Ask, WithoutSlot(b.asks, s), b.asks);
      ThinnedUncrossed(CancelOrder(b, id, user).book, b);
    }
  }

  lemma {:induction false} ApplyInv(b: Book, e: LogEntry)
    requires Inv(b)
    ensures Inv(Apply(b, e).book)
  {
    match e
    case Place(id, user, side, price, quantity) => PlaceInv(b, Taker(id, user, side, price), quantity);
    case Cancel(id, user) => CancelInv(b, id, user);
  }

  /** Never crossed, always sorted, every slot accounted for: after any history. */
  lemma {:induction false} RunInv(h: seq<LogEntry>)
    ensures Inv(Run(h))
  {
    if h == [] {
    } else {
      RunInv(h[..|h| - 1]);
      ApplyInv(Run(h[..|h| - 1]), h[|h| - 1]);
    }
  }
}

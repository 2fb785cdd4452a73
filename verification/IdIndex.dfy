/** When the id index can be trusted, and exactly what a cancel does in any case. */
module IdIndex {
  import opened Bytes
  import opened MarketTypes
  import opened PriceTimeBook
  import opened Histories
  import opened Arrivals

  ghost predicate Rests(b: Book, r: Resting) {
    r in b.bids || r in b.asks
  }

  /** Every resting order's id leads to its own slot. */
  ghost predicate IndexExact(b: Book) {
    forall r :: Rests(b, r) ==> r.order.id in b.index && b.index[r.order.id] == r.slot
  }

  /** The placed order comes to rest beside another resting order with its id. */
  ghost predicate Shadows(b: Book, e: LogEntry) {
    && e.Place? && LeftOver(b, e) > 0
    && exists r :: Rests(AfterMatching(b, e), r) && r.order.id == e.orderId
  }

  lemma {:induction false} NotFree(b: Book, r: Resting)
    requires Slotted(b) && Rests(b, r)
    ensures r.slot != NextSlot(b)
  {
    NextSlotFresh(b);
    if r in b.bids {
      var i :| 0 <= i < |b.bids| && b.bids[i] == r;
      UsesMember(b.bids, i);
    } else {
      var i :| 0 <= i < |b.asks| && b.asks[i] == r;
      UsesMember(b.asks, i);
    }
  }

  lemma {:induction false} MatchedIndexExact(b: Book, e: LogEntry)
    requires Inv(b) && IndexExact(b) && e.Place?
    ensures IndexExact(AfterMatching(b, e))
  {
    var m := AfterMatching(b, e);
    MatchedThins(b, Taker(e.orderId, e.userId, e.side, e.price), e.quantity);
    forall r | Rests(m, r) ensures r.order.id in m.index && m.index[r.order.id] == r.slot {
      if r in m.bids {
        var x := ThinnedMember(m.bids, b.bids, r);
        assert Rests(b, x);
      } else {
        var x := ThinnedMember(m.asks, b.asks, r);
        assert Rests(b, x);
      }
    }
  }

  lemma {:induction false} RestMembers(m: Book, o: Order, r: Resting)
    ensures Rests(Rest(m, o), r) <==> r == Resting(NextSlot(m), o) || Rests(m, r)
  {
    InsertMembers(m.On(o.side), Resting(NextSlot(m), o), r);
  }

  lemma {:induction false} RestIndexExact(m: Book, o: Order)
    requires Slotted(m) && IndexExact(m)
    ensures IndexExact(Rest(m, o)) <==> !exists r :: Rests(m, r) && r.order.id == o.id
  {
    hide Insert;
    var b' := Rest(m, o);
    assert b'.index == m.index[o.id := NextSlot(m)];
    forall r ensures Rests(b', r) <==> r == Resting(NextSlot(m), o) || Rests(m, r) {
      RestMembers(m, o, r);
    }
    forall r | Rests(m, r) ensures r.slot != NextSlot(m) {
      NotFree(m, r);
    }
    if r :| Rests(m, r) && r.order.id == o.id {
      assert Rests(b', r) && b'.index[r.order.id] != r.slot;
    }
  }

  lemma {:induction false} WithoutSlotMember(q: seq<Resting>, slot: nat, r: Resting)
    ensures r in WithoutSlot(q, slot) <==> r in q && r.slot != slot
  {
    if q == [] {
    } else {
      WithoutSlotMember(q[1..], slot, r);
      assert q == [q[0]] + q[1..];
    }
  }

  lemma {:induction false} CancelIndexExact(b: Book, id: OrderId, user: UserId)
    requires Inv(b) && IndexExact(b)
    ensures IndexExact(CancelOrder(b, id, user).book)
  {
    if Cancels(b, id, user) {
      var slot := b.index[id];
      var b' := CancelOrder(b, id, user).book;
      forall r | Rests(b', r) ensures r.order.id in b'.index && b'.index[r.order.id] == r.slot {
        WithoutSlotMember(b.bids, slot, r);
        WithoutSlotMember(b.asks, slot, r);
        assert Rests(b, r);
      }
    }
  }

  /** One step keeps the index exact if and only if it shadows nobody. */
  lemma {:induction false} StepIndexExact(b: Book, e: LogEntry)
    requires Inv(b) && IndexExact(b)
    ensures IndexExact(Apply(b, e).book) <==> !Shadows(b, e)
  {
    if e.Place? {
      MatchedIndexExact(b, e);
      MatchedInv(b, Taker(e.orderId, e.userId, e.side, e.price), e.quantity);
      if LeftOver(b, e) > 0 {
        RestIndexExact(AfterMatching(b, e), Order(e.orderId, e.userId, e.price, LeftOver(b, e), e.side));
      }
    } else {
      CancelIndexExact(b, e.orderId, e.userId);
    }
  }

  ghost predicate AlwaysExact(h: seq<LogEntry>) {
    forall k :: 0 <= k <= |h| ==> IndexExact(Run(h[..k]))
  }

  ghost predicate NeverShadows(h: seq<LogEntry>) {
    forall k :: 0 <= k < |h| ==> !Shadows(Run(h[..k]), h[k])
  }

  lemma {:induction false} LastStep(h: seq<LogEntry>)
    requires h != []
    ensures var g := h[..|h| - 1];
            && (AlwaysExact(h) <==> AlwaysExact(g) && IndexExact(Run(h)))
            && (NeverShadows(h) <==> NeverShadows(g) && !Shadows(Run(g), h[|h| - 1]))
  {
    hide IndexExact, Shadows, Run;
    var n := |h| - 1;
    var g := h[..n];
    assert h[..|h|] == h;
    assert forall k :: 0 <= k <= n ==> g[..k] == h[..k];
    assert forall k :: 0 <= k < n ==> g[k] == h[k];
    if AlwaysExact(g) && IndexExact(Run(h)) {
      forall k | 0 <= k <= |h| ensures IndexExact(Run(h[..k])) {
        if k <= n { assert g[..k] == h[..k]; }
      }
    }
    if NeverShadows(g) && !Shadows(Run(g), h[n]) {
      forall k | 0 <= k < |h| ensures !Shadows(Run(h[..k]), h[k]) {
        if k < n { assert g[..k] == h[..k]; }
      }
    }
    if AlwaysExact(h) {
      forall k | 0 <= k <= n ensures IndexExact(Run(g[..k])) {
        assert g[..k] == h[..k];
      }
    }
    if NeverShadows(h) {
      forall k | 0 <= k < n ensures !Shadows(Run(g[..k]), g[k]) {
        assert g[..k] == h[..k];
      }
    }
  }

  /** Throughout a history: the index is exact at every point iff no placement shadows a resting order. */
  lemma {:induction false} IndexExactIff(h: seq<LogEntry>)
    ensures AlwaysExact(h) <==> NeverShadows(h)
  {
    if h == [] {
      assert forall k :: 0 <= k <= |h| ==> h[..k] == [];
    } else {
      var g := h[..|h| - 1];
      IndexExactIff(g);
      LastStep(h);
      RunInv(g);
      if IndexExact(Run(g)) {
        StepIndexExact(Run(g), h[|h| - 1]);
      }
      assert g[..|g|] == g;
    }
  }

  /** Ids that are not resting when they are placed never shadow. */
  lemma {:induction false} FreshIdsIndexExact(h: seq<LogEntry>)
    requires forall k, r :: 0 <= k < |h| && h[k].Place? && Rests(Run(h[..k]), r) ==> r.order.id != h[k].orderId
    ensures AlwaysExact(h)
  {
    forall k | 0 <= k < |h| ensures !Shadows(Run(h[..k]), h[k]) {
      var b, e := Run(h[..k]), h[k];
      RunInv(h[..k]);
      if e.Place? {
        var m := AfterMatching(b, e);
        MatchedThins(b, Taker(e.orderId, e.userId, e.side, e.price), e.quantity);
        forall r | Rests(m, r) ensures r.order.id != e.orderId {
          if r in m.bids {
            var x := ThinnedMember(m.bids, b.bids, r);
            assert Rests(b, x);
          } else {
            var x := ThinnedMember(m.asks, b.asks, r);
            assert Rests(b, x);
          }
        }
      }
    }
    IndexExactIff(h);
  }

  // ---- what a cancel removes ---------------------------------------------------

  /** q without position i. */
  function Dropped(q: seq<Resting>, i: nat): seq<Resting>
    requires i < |q|
  {
    q[..i] + q[i + 1..]
  }

  /** b' is b without the order at position i of this side, which belongs to the user. */
  ghost predicate RemovesOwned(b: Book, b': Book, side: Side, i: nat, user: UserId) {
    && i < |b.On(side)| && b.On(side)[i].order.user == user
    && b'.On(side) == Dropped(b.On(side), i)
    && b'.On(side.Opposite()) == b.On(side.Opposite())
  }

  lemma {:induction false} NobodyUses(q: seq<Resting>, slot: nat)
    requires Uses(q, slot) == 0
    ensures WithoutSlot(q, slot) == q
  {
    forall k | 0 <= k < |q| ensures q[k].slot != slot {
      UsesMember(q, k);
    }
    WithoutSlotAbsent(q, slot);
  }

  lemma {:induction false} WithoutSlotAt(q: seq<Resting>, i: nat)
    requires i < |q|
    requires Uses(q, q[i].slot) == 1
    ensures WithoutSlot(q, q[i].slot) == Dropped(q, i)
  {
    var s := q[i].slot;
    if i == 0 {
      NobodyUses(q[1..], s);
      assert Dropped(q, 0) == q[1..];
    } else {
      if q[0].slot == s {
        UsesTwice(q, 0, i);
        assert false;
      }
      WithoutSlotAt(q[1..], i - 1);
      assert Dropped(q, i) == [q[0]] + Dropped(q[1..], i - 1);
    }
  }

  lemma {:induction false} CancelsByHolder(b: Book, id: OrderId, user: UserId)
    ensures Cancels(b, id, user) <==>
              id in b.index && exists r :: Rests(b, r) && r.slot == b.index[id] && r.order.user == user
  {
    if Cancels(b, id, user) {
      var side := if Holds(b.bids, b.index[id], user) then Bid else Ask;
      var i :| 0 <= i < |b.On(side)| && b.On(side)[i].slot == b.index[id] && b.On(side)[i].order.user == user;
      assert Rests(b, b.On(side)[i]);
    }
  }

  /** Where the order in the requested slot sits: its side and position. */
  lemma {:induction false} CancelTarget(b: Book, id: OrderId, user: UserId) returns (side: Side, i: nat)
    requires Inv(b) && Cancels(b, id, user)
    ensures i < |b.On(side)|
    ensures b.On(side)[i].slot == b.index[id] && b.On(side)[i].order.user == user
    ensures Uses(b.On(side), b.index[id]) == 1 && Uses(b.On(side.Opposite()), b.index[id]) == 0
  {
    var s := b.index[id];
    side := if Holds(b.bids, s, user) then Bid else Ask;
    i :| 0 <= i < |b.On(side)| && b.On(side)[i].slot == s && b.On(side)[i].order.user == user;
    UsesMember(b.On(side), i);
    assert Claims(b, s) <= 1;
  }

  /**
   Whatever the index says, a cancel takes at most one order off the book, one that the
   requester owns, and leaves the others in order; it does nothing exactly when the id's
   slot is unknown, empty or someone else's, and so nothing when repeated.
   */
  lemma {:induction false} CancelEffect(h: seq<LogEntry>, id: OrderId, user: UserId)
    ensures var b := Run(h);
            var o := CancelOrder(b, id, user);
            && (!Cancels(b, id, user) <==> o.events == [])
            && (!Cancels(b, id, user) ==> o.book == b)
            && (Cancels(b, id, user) ==>
                  && o.events == [OrderCancelled(id)]
                  && CancelOrder(o.book, id, user) == Outcome(o.book, [])
                  && exists side: Side, i: nat :: RemovesOwned(b, o.book, side, i, user))
  {
    var b := Run(h);
    RunInv(h);
    if Cancels(b, id, user) {
      var side, i := CancelTarget(b, id, user);
      WithoutSlotAt(b.On(side), i);
      NobodyUses(b.On(side.Opposite()), b.index[id]);
      assert RemovesOwned(b, CancelOrder(b, id, user).book, side, i, user);
    }
  }

  /** While the index is exact, an owner's cancel of a resting id removes exactly that order. */
  lemma {:induction false} CancelOwnResting(h: seq<LogEntry>, side: Side, i: nat)
    requires IndexExact(Run(h)) && i < |Run(h).On(side)|
    ensures var b := Run(h);
            var r := b.On(side)[i];
            var o := CancelOrder(b, r.order.id, r.order.user);
            && o.book.On(side) == Dropped(b.On(side), i)
            && o.book.On(side.Opposite()) == b.On(side.Opposite())
            && o.events == [OrderCancelled(r.order.id)]
  {
    var b := Run(h);
    RunInv(h);
    var r := b.On(side)[i];
    assert r in b.On(side) && Rests(b, r);
    assert Holds(b.On(side), r.slot, r.order.user);
    var side', i' := CancelTarget(b, r.order.id, r.order.user);
    UsesMember(b.On(side), i);
    assert side' == side;
    if i != i' {
      UsesTwice(b.On(side), if i < i' then i else i', if i < i' then i' else i);
      assert false;
    }
    WithoutSlotAt(b.On(side), i);
    NobodyUses(b.On(side.Opposite()), r.slot);
  }

  // ---- the index by history ----------------------------------------------------

  /** The slot that placement k of the history came to rest in. */
  function SlotTaken(h: seq<LogEntry>, k: nat): nat
    requires k < |h| && h[k].Place?
  {
    NextSlot(AfterMatching(Run(h[..k]), h[k]))
  }

  /** The last placement of this id that came to rest, unless a cancel through the id has succeeded since. */
  function LastRested(h: seq<LogEntry>, id: OrderId): Option<nat> {
    if h == [] then None
    else
      var n := |h| - 1;
      var b, e := Run(h[..n]), h[n];
      if e.orderId != id then LastRested(h[..n], id)
      else if e.Place? then if LeftOver(b, e) > 0 then Some(n) else LastRested(h[..n], id)
      else if Apply(b, e).events != [] then None else LastRested(h[..n], id)
  }

  /** The id is indexed at the slot placement k of it came to rest in, which other orders may have taken since. */
  ghost predicate PointsAt(h: seq<LogEntry>, id: OrderId, k: nat) {
    && k < |h| && h[k].Place? && h[k].orderId == id && LeftOver(Run(h[..k]), h[k]) > 0
    && id in Run(h).index && Run(h).index[id] == SlotTaken(h, k)
    && SlotTaken(h, k) in Arrived(h) && k <= Arrived(h)[SlotTaken(h, k)] < |h|
  }

  lemma {:induction false} ApplyIndex(b: Book, e: LogEntry)
    ensures var index := Apply(b, e).book.index;
            if e.Place? then
              index == if LeftOver(b, e) > 0 then b.index[e.orderId := NextSlot(AfterMatching(b, e))] else b.index
            else
              index == if Apply(b, e).events != [] then b.index - {e.orderId} else b.index
  {
  }

  lemma {:induction false} StillPointsAt(h: seq<LogEntry>, id: OrderId, k: nat)
    requires h != [] && PointsAt(h[..|h| - 1], id, k)
    requires id in Run(h).index && Run(h).index[id] == Run(h[..|h| - 1]).index[id]
    ensures PointsAt(h, id, k)
  {
    hide Run, LeftOver, AfterMatching, NextSlot;
    assert h[..|h| - 1][..k] == h[..k];
  }

  lemma {:induction false} IndexByHistory(h: seq<LogEntry>, id: OrderId)
    ensures id in Run(h).index <==> LastRested(h, id).Some?
    ensures LastRested(h, id).Some? ==> PointsAt(h, id, LastRested(h, id).value)
  {
    if h == [] {
    } else {
      var n := |h| - 1;
      var b, e := Run(h[..n]), h[n];
      IndexByHistory(h[..n], id);
      ApplyIndex(b, e);
      hide Apply, LeftOver, AfterMatching, NextSlot;
      if LastRested(h, id) == Some(n) {
        assert PointsAt(h, id, n);
      } else if LastRested(h, id).Some? {
        StillPointsAt(h, id, LastRested(h, id).value);
      }
    }
  }

  lemma {:induction false} SlotHolder(h: seq<LogEntry>, slot: nat, r: Resting)
    requires Rests(Run(h), r) && r.slot == slot
    ensures Genuine(h, Arrived(h), r)
  {
    AlwaysPriceTimeSorted(h);
  }

  /**
   A cancel by what happened before it.  It looks at the slot where the last placement
   of the id came to rest.  It succeeds exactly when the order that arrived there last
   still rests and is the requester's; that is another order than the one meant exactly
   when the slot has been taken again since.
   */
  lemma {:induction false} CancelByHistory(h: seq<LogEntry>, id: OrderId, user: UserId)
    ensures var b, last := Run(h), LastRested(h, id);
            && (last.None? ==> !Cancels(b, id, user))
            && (last.Some? ==>
                  && PointsAt(h, id, last.value)
                  && var slot := SlotTaken(h, last.value);
                  && var arrival := Arrived(h)[slot];
                  && (Cancels(b, id, user) <==> h[arrival].userId == user && exists r :: Rests(b, r) && r.slot == slot)
                  && (forall r :: Rests(b, r) && r.slot == slot ==> Genuine(h, Arrived(h), r))
                  && (Cancels(b, id, user) && !(exists r :: Rests(b, r) && r.order.id == id) ==> arrival > last.value))
  {
    IndexByHistory(h, id);
    var b, last := Run(h), LastRested(h, id);
    hide Run, Arrived, LastRested;
    if last.Some? {
      var slot := SlotTaken(h, last.value);
      forall r | Rests(b, r) && r.slot == slot ensures Genuine(h, Arrived(h), r) {
        SlotHolder(h, slot, r);
      }
      CancelsByHolder(b, id, user);
    }
  }

  lemma {:induction false} ThreeSteps(e1: LogEntry, e2: LogEntry, e3: LogEntry)
    ensures Run([e1, e2, e3]) == Apply(Apply(Apply(EMPTY_BOOK, e1).book, e2).book, e3).book
  {
    hide Apply;
    assert [e1][..0] == [] && [e1, e2][..1] == [e1] && [e1, e2, e3][..2] == [e1, e2];
    assert Run([e1]) == Apply(Run([]), e1).book;
    assert Run([e1, e2]) == Apply(Run([e1]), e2).book;
  }

  /**
   A stale id: order 1 is filled, its slot is reused by order 3 of the same user, and
   cancelling 1 removes order 3.
   */
  lemma {:induction false} StaleIdCancelsAnother()
    ensures var h := [Place(1, 7, Ask, 100, 10), Place(2, 8, Bid, 100, 10), Place(3, 7, Ask, 200, 5)];
            && Run(h).asks == [Resting(0, Order(3, 7, 200, 5, Ask))] && Run(h).bids == []
            && CancelOrder(Run(h), 1, 7).book.asks == []
            && CancelOrder(Run(h), 1, 7).events == [OrderCancelled(1)]
  {
    var e1, e2, e3 := Place(1, 7, Ask, 100, 10), Place(2, 8, Bid, 100, 10), Place(3, 7, Ask, 200, 5);
    var b1 := Book([], [Resting(0, Order(1, 7, 100, 10, Ask))], [], 1, map[1 := 0]);
    var b2 := Book([], [], [0], 1, map[1 := 0]);
    var b3 := Book([], [Resting(0, Order(3, 7, 200, 5, Ask))], [], 1, map[1 := 0, 3 := 0]);
    assert Apply(EMPTY_BOOK, e1).book == b1;
    assert Apply(b1, e2).book == b2 by {
      assert Match(Taker(2, 8, Bid, 100), b1.asks[1..], [0], 0) == Fill([], [0], 0, []);
    }
    assert Apply(b2, e3).book == b3;
    assert CancelOrder(b3, 1, 7) == Outcome(Book([], [], [0], 1, map[3 := 0]), [OrderCancelled(1)]) by {
      assert b3.asks[0].slot == 0 && Holds(b3.asks, 0, 7);
      assert WithoutSlot(b3.asks, 0) == [];
      assert b3.index - {1} == map[3 := 0];
    }
    ThreeSteps(e1, e2, e3);
  }
}

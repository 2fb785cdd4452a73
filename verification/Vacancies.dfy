/** Which slot a resting order gets, by history: the one vacated last, or a new one. */
module Vacancies {
  import opened MarketTypes
  import opened Sequences
  import opened PriceTimeBook
  import opened Histories
  import opened Arrivals

  // ---- departures --------------------------------------------------------------

  /** Slots of q that nobody in q' uses, the last in the queue first. */
  function Gone(q: seq<Resting>, q': seq<Resting>): seq<nat> {
    if q == [] then [] else Gone(q[1..], q') + (if Uses(q', q[0].slot) == 0 then [q[0].slot] else [])
  }

  /** Slots vacated by one operation: served or cancelled orders leave in queue order. */
  function GoneBy(b: Book, e: LogEntry): seq<nat> {
    match e
    case Place(_, _, side, _, _) => Gone(b.On(side.Opposite()), AfterMatching(b, e).On(side.Opposite()))
    case Cancel(id, user) => Gone(b.bids, Apply(b, e).book.bids) + Gone(b.asks, Apply(b, e).book.asks)
  }

  /** All slots ever vacated in a history, the latest first. */
  function Departures(h: seq<LogEntry>): seq<nat> {
    if h == [] then []
    else
      var n := |h| - 1;
      GoneBy(Run(h[..n]), h[n]) + Departures(h[..n])
  }

  predicate Vacant(b: Book, s: nat) {
    Uses(b.bids, s) == 0 && Uses(b.asks, s) == 0
  }

  // ---- the free stack is the vacant slots, latest departure first ----------------

  /** Position of the first occurrence. */
  function First(xs: seq<nat>, x: nat): nat
    requires x in xs
  {
    if xs[0] == x then 0 else 1 + First(xs[1..], x)
  }

  ghost predicate ByDeparture(free: seq<nat>, gone: seq<nat>) {
    && (forall i :: 0 <= i < |free| ==> free[i] in gone)
    && (forall i, j :: 0 <= i < j < |free| ==> First(gone, free[i]) < First(gone, free[j]))
  }

  lemma {:induction false} FirstInFront(a: seq<nat>, b: seq<nat>, k: nat)
    requires k < |a| && Distinct(a)
    ensures First(a + b, a[k]) == k
  {
    if k == 0 {
    } else {
      assert (a + b)[1..] == a[1..] + b;
      assert a[0] != a[k];
      FirstInFront(a[1..], b, k - 1);
    }
  }

  lemma {:induction false} FirstBehind(a: seq<nat>, b: seq<nat>, x: nat)
    requires x in b && x !in a
    ensures x in a + b && First(a + b, x) == |a| + First(b, x)
  {
    if a == [] {
      assert a + b == b;
    } else {
      assert (a + b)[1..] == a[1..] + b;
      FirstBehind(a[1..], b, x);
    }
  }

  /** What just left goes on top, in the order of leaving. */
  lemma {:induction false} MoreDepartures(now: seq<nat>, free: seq<nat>, gone: seq<nat>)
    requires ByDeparture(free, gone) && Distinct(now)
    requires forall i :: 0 <= i < |free| ==> free[i] !in now
    ensures ByDeparture(now + free, now + gone)
  {
    hide First, Distinct;
    var free', gone' := now + free, now + gone;
    forall i | 0 <= i < |free'|
      ensures free'[i] in gone'
      ensures First(gone', free'[i]) == if i < |now| then i else |now| + First(gone, free[i - |now|])
    {
      if i < |now| {
        FirstInFront(now, gone, i);
      } else {
        FirstBehind(now, gone, free[i - |now|]);
      }
    }
  }

  // ---- one operation -----------------------------------------------------------

  lemma {:induction false} RestUses(t: Taker, q: seq<Resting>, free: seq<nat>, quantity: Quantity, s: nat)
    ensures Uses(Match(t, q, free, quantity).rest, s) <= Uses(q, s)
    decreases |q|
  {
    if quantity == 0 || q == [] || !Acceptable(t, q[0].order.price) {
    } else {
      var m := q[0].order;
      if m.user == t.user {
        RestUses(t, q[1..], [q[0].slot] + free, quantity, s);
      } else if m.quantity <= quantity {
        RestUses(t, q[1..], [q[0].slot] + free, quantity - m.quantity, s);
      } else {
        var r := Resting(q[0].slot, m.(quantity := m.quantity - quantity));
        assert ([r] + q[1..])[1..] == q[1..];
      }
    }
  }

  lemma {:induction false} NobodyGone(q: seq<Resting>, q': seq<Resting>)
    requires forall i :: 0 <= i < |q| ==> Uses(q', q[i].slot) > 0
    ensures Gone(q, q') == []
  {
    if q == [] {
    } else {
      NobodyGone(q[1..], q');
    }
  }

  ghost predicate OneEach(q: seq<Resting>) {
    forall s: nat :: Uses(q, s) <= 1
  }

  lemma {:induction false} OneEachTail(q: seq<Resting>)
    requires q != [] && OneEach(q)
    ensures OneEach(q[1..]) && Uses(q[1..], q[0].slot) == 0
  {
    forall s: nat ensures Uses(q[1..], s) <= 1 {
      assert Uses(q, s) <= 1;
    }
    assert Uses(q, q[0].slot) <= 1;
  }

  lemma {:induction false} StillThere(q: seq<Resting>, q': seq<Resting>)
    requires forall s: nat :: Uses(q, s) == Uses(q', s)
    ensures Gone(q, q') == []
  {
    forall i | 0 <= i < |q| ensures Uses(q', q[i].slot) > 0 {
      UsesMember(q, i);
    }
    NobodyGone(q, q');
  }

  /** The matcher pushes the slots it vacates as their orders leave. */
  lemma {:induction false} MatchDepartures(t: Taker, q: seq<Resting>, free: seq<nat>, quantity: Quantity)
    requires OneEach(q)
    ensures var f := Match(t, q, free, quantity);
            f.free == Gone(q, f.rest) + free
    decreases |q|
  {
    var f := Match(t, q, free, quantity);
    if quantity == 0 || q == [] || !Acceptable(t, q[0].order.price) {
      StillThere(q, f.rest);
    } else {
      var m, s := q[0].order, q[0].slot;
      OneEachTail(q);
      if m.user != t.user && quantity < m.quantity {
        var r := Resting(s, m.(quantity := m.quantity - quantity));
        assert ([r] + q[1..])[1..] == q[1..];
        StillThere(q, f.rest);
      } else {
        var left := if m.user == t.user then quantity else quantity - m.quantity;
        MatchDepartures(t, q[1..], [s] + free, left);
        RestUses(t, q[1..], [s] + free, left, s);
        Assoc(Gone(q[1..], f.rest), [s], free);
      }
    }
  }

  lemma {:induction false} GoneMembers(q: seq<Resting>, q': seq<Resting>, s: nat)
    ensures s in Gone(q, q') <==> Uses(q, s) > 0 && Uses(q', s) == 0
  {
    if q == [] {
    } else {
      GoneMembers(q[1..], q', s);
    }
  }

  lemma {:induction false} Appended(xs: seq<nat>, x: nat)
    requires Distinct(xs)
    ensures x !in xs ==> Distinct(xs + [x])
    ensures xs + [] == xs
  {
  }

  lemma {:induction false} GoneDistinct(q: seq<Resting>, q': seq<Resting>)
    requires OneEach(q)
    ensures Distinct(Gone(q, q'))
  {
    if q == [] {
    } else {
      OneEachTail(q);
      GoneDistinct(q[1..], q');
      GoneMembers(q[1..], q', q[0].slot);
      Appended(Gone(q[1..], q'), q[0].slot);
    }
  }

  /** In a book every slot is used at most once, and not while it is free. */
  lemma {:induction false} SlottedSide(b: Book, side: Side, s: nat)
    requires Slotted(b)
    ensures Uses(b.On(side), s) + Uses(b.On(side.Opposite()), s) + Count(b.free, s) <= 1
    ensures s >= b.slots ==> Uses(b.On(side), s) == 0
  {
    assert Claims(b, s) <= 1;
  }

  lemma {:induction false} CountMember(xs: seq<nat>, x: nat)
    ensures Count(xs, x) > 0 <==> x in xs
  {
    if xs == [] {
    } else {
      CountMember(xs[1..], x);
      assert xs == [xs[0]] + xs[1..];
    }
  }

  lemma {:induction false} PlaceDepartures(b: Book, e: LogEntry)
    requires Slotted(b) && e.Place?
    ensures AfterMatching(b, e).free == GoneBy(b, e) + b.free && Distinct(GoneBy(b, e))
    ensures forall s :: s in GoneBy(b, e) ==> s < b.slots && s !in b.free
  {
    var t := Taker(e.orderId, e.userId, e.side, e.price);
    var opp := e.side.Opposite();
    var q := b.On(opp);
    forall s: nat ensures Uses(q, s) <= 1 && (Uses(q, s) > 0 ==> s < b.slots && s !in b.free) {
      SlottedSide(b, opp, s);
      CountMember(b.free, s);
    }
    hide Slotted, Match, Gone, Uses;
    MatchDepartures(t, q, b.free, e.quantity);
    GoneDistinct(q, AfterMatching(b, e).On(opp));
    forall s | s in GoneBy(b, e) ensures s < b.slots && s !in b.free {
      GoneMembers(q, AfterMatching(b, e).On(opp), s);
    }
  }

  lemma {:induction false} OnlyGone(q: seq<Resting>, q': seq<Resting>, slot: nat)
    requires Uses(q, slot) <= 1 && Uses(q', slot) == 0
    requires forall i :: 0 <= i < |q| && q[i].slot != slot ==> Uses(q', q[i].slot) > 0
    ensures Gone(q, q') == if Uses(q, slot) == 1 then [slot] else []
  {
    if q == [] {
    } else {
      OnlyGone(q[1..], q', slot);
    }
  }

  lemma {:induction false} GoneWithout(q: seq<Resting>, slot: nat)
    requires Uses(q, slot) <= 1
    ensures Gone(q, WithoutSlot(q, slot)) == if Uses(q, slot) == 1 then [slot] else []
  {
    forall s: nat ensures Uses(WithoutSlot(q, slot), s) == if s == slot then 0 else Uses(q, s) {
      WithoutUses(q, slot, s);
    }
    forall i | 0 <= i < |q| && q[i].slot != slot ensures Uses(WithoutSlot(q, slot), q[i].slot) > 0 {
      UsesMember(q, i);
    }
    OnlyGone(q, WithoutSlot(q, slot), slot);
  }

  lemma {:induction false} HeldIsUsed(b: Book, id: OrderId, user: UserId)
    requires Cancels(b, id, user)
    ensures Uses(b.bids, b.index[id]) + Uses(b.asks, b.index[id]) > 0
  {
    var s := b.index[id];
    var q := if Holds(b.bids, s, user) then b.bids else b.asks;
    var i :| 0 <= i < |q| && q[i].slot == s && q[i].order.user == user;
    UsesMember(q, i);
  }

  lemma {:induction false} CancelDepartures(b: Book, e: LogEntry)
    requires Slotted(b) && e.Cancel?
    ensures Apply(b, e).book.free == GoneBy(b, e) + b.free && Distinct(GoneBy(b, e))
    ensures forall s :: s in GoneBy(b, e) ==> s < b.slots && s !in b.free
  {
    hide Gone, Uses, Count;
    if Cancels(b, e.orderId, e.userId) {
      var slot := b.index[e.orderId];
      HeldIsUsed(b, e.orderId, e.userId);
      SlottedSide(b, Bid, slot);
      SlottedSide(b, Ask, slot);
      CountMember(b.free, slot);
      GoneWithout(b.bids, slot);
      GoneWithout(b.asks, slot);
      assert GoneBy(b, e) == [slot];
    } else {
      StillThere(b.bids, b.bids);
      StillThere(b.asks, b.asks);
      assert [] + b.free == b.free;
    }
  }

  // ---- every history -----------------------------------------------------------

  ghost predicate FreeOk(b: Book, gone: seq<nat>) {
    ByDeparture(b.free, gone) && forall s :: s in gone ==> s < b.slots
  }

  lemma {:induction false} FreeGrows(b: Book, b': Book, now: seq<nat>, gone: seq<nat>)
    requires FreeOk(b, gone) && b'.slots == b.slots && b'.free == now + b.free && Distinct(now)
    requires forall s :: s in now ==> s < b.slots && s !in b.free
    ensures FreeOk(b', now + gone)
  {
    MoreDepartures(now, b.free, gone);
  }

  lemma {:induction false} FreeTaken(m: Book, o: Order, gone: seq<nat>)
    requires FreeOk(m, gone)
    ensures FreeOk(Rest(m, o), gone)
  {
    hide First, Insert;
  }

  lemma {:induction false} FreeAfterMatching(b: Book, e: LogEntry, gone: seq<nat>)
    requires Slotted(b) && FreeOk(b, gone) && e.Place?
    ensures FreeOk(AfterMatching(b, e), GoneBy(b, e) + gone)
  {
    hide Slotted, FreeOk, GoneBy, Match;
    PlaceDepartures(b, e);
    FreeGrows(b, AfterMatching(b, e), GoneBy(b, e), gone);
  }

  lemma {:induction false} DeparturesSnoc(h: seq<LogEntry>)
    requires h != []
    ensures Departures(h) == GoneBy(Run(h[..|h| - 1]), h[|h| - 1]) + Departures(h[..|h| - 1])
  {
  }

  lemma {:induction false} FreeRun(h: seq<LogEntry>)
    ensures FreeOk(Run(h), Departures(h))
  {
    if h == [] {
    } else {
      var n := |h| - 1;
      var b, e := Run(h[..n]), h[n];
      FreeRun(h[..n]);
      RunInv(h[..n]);
      hide FreeOk, GoneBy, Slotted, SideOk, Uncrossed, Match, Rest, Departures;
      assert Departures(h) == GoneBy(b, e) + Departures(h[..n]) by { DeparturesSnoc(h); }
      if e.Place? {
        FreeAfterMatching(b, e, Departures(h[..n]));
        if LeftOver(b, e) > 0 {
          var o := Order(e.orderId, e.userId, e.price, LeftOver(b, e), e.side);
          FreeTaken(AfterMatching(b, e), o, Departures(h));
        }
      } else {
        CancelDepartures(b, e);
        FreeGrows(b, Apply(b, e).book, GoneBy(b, e), Departures(h[..n]));
      }
    }
  }

  /** The newcomer's slot: of those vacant, the one vacated last; if none is, the smallest never used. */
  ghost predicate TakesLatest(m: Book, gone: seq<nat>, s: nat) {
    && Vacant(m, s)
    && if exists x :: x in gone && Vacant(m, x) then
         s in gone && forall x :: x in gone && Vacant(m, x) ==> First(gone, s) <= First(gone, x)
       else
         s !in gone && forall x: nat :: x < s ==> !Vacant(m, x)
  }

  lemma {:induction false} NextIsLatest(m: Book, gone: seq<nat>)
    requires Slotted(m) && FreeOk(m, gone)
    ensures TakesLatest(m, gone, NextSlot(m))
  {
    NextSlotFresh(m);
    forall x: nat ensures x in m.free <==> x < m.slots && Vacant(m, x) {
      assert Claims(m, x) == if x < m.slots then 1 else 0;
      CountMember(m.free, x);
    }
    hide Slotted, First, Uses, Count;
    if m.free != [] {
      assert m.free[0] in m.free;
      forall x | x in gone && Vacant(m, x) ensures First(gone, m.free[0]) <= First(gone, x) {
        assert x in m.free;
      }
    }
  }

  /**
   After any history, an order that comes to rest gets the slot vacated last among those
   vacant once its matching is over, or, if all slots used so far are taken, the next new one.
   */
  lemma {:induction false} RestsInLatestVacancy(h: seq<LogEntry>) returns (r: Resting)
    requires h != [] && h[|h| - 1].Place? && LeftOver(Run(h[..|h| - 1]), h[|h| - 1]) > 0
    ensures var b, e := Run(h[..|h| - 1]), h[|h| - 1];
            && r in Run(h).On(e.side)
            && r.order == Order(e.orderId, e.userId, e.price, LeftOver(b, e), e.side)
            && TakesLatest(AfterMatching(b, e), Departures(h), r.slot)
  {
    var n := |h| - 1;
    var b, e := Run(h[..n]), h[n];
    RunInv(h[..n]);
    FreeRun(h[..n]);
    DeparturesSnoc(h);
    hide FreeOk, GoneBy, Departures, Slotted, SideOk, Uncrossed, Match, TakesLatest;
    var t := Taker(e.orderId, e.userId, e.side, e.price);
    var m, o := AfterMatching(b, e), Order(e.orderId, e.userId, e.price, LeftOver(b, e), e.side);
    MatchedInv(b, t, e.quantity);
    FreeAfterMatching(b, e, Departures(h[..n]));
    NextIsLatest(m, Departures(h));
    r := Resting(NextSlot(m), o);
    InsertMembers(m.On(e.side), r, r);
  }
}

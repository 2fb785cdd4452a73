/** The depth snapshot: aggregated levels, best first. */
module Depth {
  import opened Bytes
  import opened MarketTypes
  import opened PriceTimeBook
  import opened Levels
  import opened OrderBooks

  /** Sum of a queue's quantities in u64 arithmetic, an unknown slot counting as 0. */
  function LevelQuantity(store: seq<Entry>, queue: seq<nat>): Quantity {
    if queue == [] then 0
    else
      var n := |queue| - 1;
      var last := if queue[n] < |store| && store[queue[n]].Occupied? then store[queue[n]].order.quantity else 0;
      (LevelQuantity(store, queue[..n]) + last) % U64_LIMIT
  }

  function DepthOn(side: Side, store: seq<Entry>, ladder: Ladder, limit: nat): seq<OrderLevel>
    decreases limit
  {
    if limit == 0 || ladder == map[] then []
    else
      var best := Best(side, ladder.Keys);
      [OrderLevel(best, LevelQuantity(store, ladder[best]))] + DepthOn(side, store, Tail(side, ladder), limit - 1)
  }

  // ---- what the snapshot says about the list of resting orders ------------------

  /** Total resting quantity at a price. */
  function TotalAt(q: seq<Resting>, p: Price): nat {
    if q == [] then 0
    else TotalAt(q[..|q| - 1], p) + (if q[|q| - 1].order.price == p then q[|q| - 1].order.quantity else 0)
  }

  lemma {:induction false} TotalAtConcat(a: seq<Resting>, b: seq<Resting>, p: Price)
    ensures TotalAt(a + b, p) == TotalAt(a, p) + TotalAt(b, p)
  {
    if b == [] {
      assert a + b == a;
    } else {
      assert (a + b)[..|a + b| - 1] == a + b[..|b| - 1];
      TotalAtConcat(a, b[..|b| - 1], p);
    }
  }

  lemma {:induction false} TotalAtAbsent(q: seq<Resting>, p: Price)
    requires forall i :: 0 <= i < |q| ==> q[i].order.price != p
    ensures TotalAt(q, p) == 0
  {
    if q == [] {
    } else {
      TotalAtAbsent(q[..|q| - 1], p);
    }
  }

  lemma {:induction false} TotalAtPresent(q: seq<Resting>, p: Price) returns (k: nat)
    requires TotalAt(q, p) > 0
    ensures k < |q| && q[k].order.price == p
  {
    k := |q| - 1;
    if q[k].order.price == p {
    } else {
      k := TotalAtPresent(q[..k], p);
    }
  }

  lemma {:induction false} WrappedSum(total: nat, last: nat)
    ensures (total % U64_LIMIT + last) % U64_LIMIT == (total + last) % U64_LIMIT
  {
  }

  lemma {:induction false} LevelQuantityIsTotal(store: seq<Entry>, side: Side, p: Price, queue: seq<nat>)
    requires QueueOk(store, side, p, queue)
    ensures AllLive(store, queue)
    ensures LevelQuantity(store, queue) == TotalAt(Listed(store, queue), p) % U64_LIMIT
    ensures queue != [] ==> TotalAt(Listed(store, queue), p) > 0
  {
    assert AllLive(store, queue) by {
      assert forall k :: 0 <= k < |queue| ==> BelongsAt(store, queue[k], side, p);
    }
    if queue == [] {
    } else {
      var n := |queue| - 1;
      assert BelongsAt(store, queue[n], side, p);
      LevelQuantityIsTotal(store, side, p, queue[..n]);
      assert Listed(store, queue)[..n] == Listed(store, queue[..n]);
      WrappedSum(TotalAt(Listed(store, queue[..n]), p), store[queue[n]].order.quantity);
    }
  }

  ghost predicate InDepth(d: seq<OrderLevel>, p: Price) {
    exists i :: 0 <= i < |d| && d[i].price == p
  }

  /** All `limit` places are taken by better prices. */
  ghost predicate Beyond(side: Side, p: Price, limit: nat, d: seq<OrderLevel>) {
    |d| == limit && forall i :: 0 <= i < |d| ==> Better(side, d[i].price, p)
  }

  /** The first `limit` price levels of the list, each with its exact total modulo 2^64. */
  ghost predicate Summarises(side: Side, q: seq<Resting>, limit: nat, d: seq<OrderLevel>) {
    && |d| <= limit
    && (forall i, j :: 0 <= i < j < |d| ==> Better(side, d[i].price, d[j].price))
    && (forall i :: 0 <= i < |d| ==> TotalAt(q, d[i].price) > 0 && d[i].quantity == TotalAt(q, d[i].price) % U64_LIMIT)
    && (forall k :: 0 <= k < |q| ==> InDepth(d, q[k].order.price) || Beyond(side, q[k].order.price, limit, d))
  }

  /** Orders of the best level have its price, all others a worse one. */
  lemma {:induction false} TailPrices(store: seq<Entry>, side: Side, ladder: Ladder)
    requires LadderOk(store, side, ladder) && ladder != map[]
    ensures var best, tail := Best(side, ladder.Keys), Tail(side, ladder);
            && AllLive(store, ladder[best]) && AllLive(store, Slots(side, tail))
            && (forall k :: 0 <= k < |ladder[best]| ==> Listed(store, ladder[best])[k].order.price == best)
            && (forall k :: 0 <= k < |Slots(side, tail)| ==>
                  Better(side, best, Listed(store, Slots(side, tail))[k].order.price))
  {
    hide QueueOk, Slots;
    var best, tail := Best(side, ladder.Keys), Tail(side, ladder);
    UniformPrice(store, side, ladder, best);
    SlotsOk(store, side, tail);
    var s := Slots(side, tail);
    forall k | 0 <= k < |s| ensures Better(side, best, store[s[k]].order.price) {
      assert s[k] in s;
      assert Queued(tail, store[s[k]].order.price, s[k]);
    }
  }

  /** Putting the best level in front of a summary of the rest. */
  lemma {:induction false} SummarisesCons(side: Side, a: seq<Resting>, b: seq<Resting>, level: OrderLevel, limit: nat, d: seq<OrderLevel>)
    requires limit > 0 && Summarises(side, b, limit - 1, d)
    requires a != [] && forall k :: 0 <= k < |a| ==> a[k].order.price == level.price
    requires forall k :: 0 <= k < |b| ==> Better(side, level.price, b[k].order.price)
    requires TotalAt(a, level.price) > 0 && level.quantity == TotalAt(a, level.price) % U64_LIMIT
    ensures Summarises(side, a + b, limit, [level] + d)
  {
    var d' := [level] + d;
    TotalAtConcat(a, b, level.price);
    TotalAtAbsent(b, level.price);
    forall i | 0 <= i < |d|
      ensures Better(side, level.price, d[i].price)
      ensures TotalAt(a + b, d[i].price) == TotalAt(b, d[i].price)
    {
      var k := TotalAtPresent(b, d[i].price);
      TotalAtConcat(a, b, d[i].price);
      TotalAtAbsent(a, d[i].price);
    }
    forall k | 0 <= k < |a + b|
      ensures InDepth(d', (a + b)[k].order.price) || Beyond(side, (a + b)[k].order.price, limit, d')
    {
      if k < |a| {
        assert d'[0].price == (a + b)[k].order.price;
      } else {
        var p := b[k - |a|].order.price;
        if InDepth(d, p) {
          var i :| 0 <= i < |d| && d[i].price == p;
          assert d'[i + 1].price == p;
        }
      }
    }
    forall i | 0 <= i < |d'|
      ensures TotalAt(a + b, d'[i].price) > 0 && d'[i].quantity == TotalAt(a + b, d'[i].price) % U64_LIMIT
    {
      assert i > 0 ==> d'[i] == d[i - 1];
    }
  }

  lemma {:induction false} EmptySummary(side: Side, q: seq<Resting>, limit: nat)
    requires q == [] || limit == 0
    ensures Summarises(side, q, limit, [])
  {
  }

  lemma {:induction false} HeadOrEmpty(store: seq<Entry>, side: Side, ladder: Ladder)
    requires LadderOk(store, side, ladder)
    ensures AllLive(store, Slots(side, ladder))
    ensures ladder == map[] ==> Slots(side, ladder) == []
  {
    SlotsOk(store, side, ladder);
  }

  lemma {:induction false} DepthSummarises(store: seq<Entry>, side: Side, ladder: Ladder, limit: nat)
    requires LadderOk(store, side, ladder) && NoEmptyLevel(ladder)
    ensures AllLive(store, Slots(side, ladder))
    ensures Summarises(side, Listed(store, Slots(side, ladder)), limit, DepthOn(side, store, ladder, limit))
    decreases limit
  {
    hide QueueOk, Summarises, TotalAt, AllLive, Live, LevelQuantity, Slots;
    HeadOrEmpty(store, side, ladder);
    if ladder == map[] || limit == 0 {
      EmptySummary(side, Listed(store, Slots(side, ladder)), limit);
    } else {
      var best, tail := Best(side, ladder.Keys), Tail(side, ladder);
      HeadQueue(store, side, ladder);
      DepthSummarises(store, side, tail, limit - 1);
      LevelQuantityIsTotal(store, side, best, ladder[best]);
      TailPrices(store, side, ladder);
      SummarisesCons(side, Listed(store, ladder[best]), Listed(store, Slots(side, tail)),
                     OrderLevel(best, LevelQuantity(store, ladder[best])), limit,
                     DepthOn(side, store, tail, limit - 1));
    }
  }

  /** In every valid book the snapshot of a side is its best levels; a level is exact iff its total fits. */
  lemma {:induction false} DepthAgrees(b: Rep, side: Side, limit: nat)
    requires ValidRep(b)
    ensures var d := DepthOn(side, b.store, b.On(side), limit);
            && Summarises(side, ListOn(b, side), limit, d)
            && forall i :: 0 <= i < |d| ==>
                 (d[i].quantity == TotalAt(ListOn(b, side), d[i].price)
                  <==> TotalAt(ListOn(b, side), d[i].price) < U64_LIMIT)
  {
    hide QueueOk, SlabOk, AllQueued, DepthOn, Slots, TotalAt, Listed, InDepth, Beyond;
    assert NoEmptyLevel(b.On(side));
    DepthSummarises(b.store, side, b.On(side), limit);
  }
}

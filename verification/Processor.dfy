/** The market processor: recovery, write-ahead logging, command execution and auctions. */
module Processor {
  import opened Bytes
  import opened MarketTypes
  import PTB = PriceTimeBook
  import opened OrderBooks
  import opened MatchingEngine
  import opened Wal
  import opened Auctions
  import opened Depth
  import L = Levels

  datatype BundleRequest = BundleRequest(user: UserId, id: OrderId, side: Side, price: Price, quantity: Quantity)

  datatype Command =
    | SubmitBid(solver: string, intent: string, amount: u64)
    | PlaceOrder(request: BundleRequest)
    | ExecuteBundle(requests: seq<BundleRequest>)
    | CancelOrder(user: UserId, id: OrderId)
    | GetDepth(limit: nat)

  datatype Reply = NoReply | Events(events: seq<EngineEvent>) | DepthLevels(asks: seq<OrderLevel>, bids: seq<OrderLevel>)

  function Placement(r: BundleRequest): LogEntry {
    Place(r.id, r.user, r.side, r.price, r.quantity)
  }

  function Placements(rs: seq<BundleRequest>): (es: seq<LogEntry>)
    ensures |es| == |rs|
  {
    seq(|rs|, i requires 0 <= i < |rs| => Placement(rs[i]))
  }

  /** What a command puts in the log. */
  function EntriesOf(cmd: Command): seq<LogEntry> {
    match cmd
    case PlaceOrder(r) => [Placement(r)]
    case ExecuteBundle(rs) => Placements(rs)
    case CancelOrder(user, id) => [Cancel(id, user)]
    case _ => []
  }

  function After(b: PTB.Book, es: seq<LogEntry>): PTB.Book {
    if es == [] then b else PTB.Apply(After(b, es[..|es| - 1]), es[|es| - 1]).book
  }

  /** Events of a run of operations, in order. */
  function EventsOf(b: PTB.Book, es: seq<LogEntry>): seq<EngineEvent> {
    if es == [] then []
    else EventsOf(b, es[..|es| - 1]) + PTB.Apply(After(b, es[..|es| - 1]), es[|es| - 1]).events
  }

  lemma {:induction false} RunAfter(h: seq<LogEntry>, es: seq<LogEntry>)
    ensures PTB.Run(h + es) == After(PTB.Run(h), es)
  {
    hide PTB.Apply;
    if es == [] {
      assert h + es == h;
    } else {
      RunAfter(h, es[..|es| - 1]);
      assert (h + es)[..|h + es| - 1] == h + es[..|es| - 1];
    }
  }

  lemma {:induction false} RunSnoc(h: seq<LogEntry>, e: LogEntry)
    ensures PTB.Run(h + [e]) == PTB.Apply(PTB.Run(h), e).book
  {
    assert (h + [e])[..|h|] == h;
  }

  lemma {:induction false} Single(b: PTB.Book, e: LogEntry)
    ensures After(b, [e]) == PTB.Apply(b, e).book
    ensures EventsOf(b, [e]) == PTB.Apply(b, e).events
  {
    assert [e][..0] == [];
  }

  /** No resting order of the other side is within the request's limit. */
  ghost predicate Unmet(b: PTB.Book, r: BundleRequest) {
    && (r.side.Bid? ==> forall i :: 0 <= i < |b.asks| ==> b.asks[i].order.price > r.price)
    && (r.side.Ask? ==> forall i :: 0 <= i < |b.bids| ==> b.bids[i].order.price < r.price)
  }

  lemma {:induction false} PlacementReply(b: PTB.Book, r: BundleRequest)
    ensures var events := PTB.Apply(b, Place(r.id, r.user, r.side, r.price, r.quantity)).events;
            && (r.quantity > 0 && Unmet(b, r) ==> events == [OrderPlaced(r.id, r.user, r.price, r.quantity, r.side)])
            && forall e :: e in events && e.TradeExecuted? ==>
                 e.taker == r.id && if r.side.Bid? then e.price <= r.price else e.price >= r.price
  {
    var t := PTB.Taker(r.id, r.user, r.side, r.price);
    hide PTB.Match;
    M.TradesWithinLimit(t, b.On(r.side.Opposite()), b.free, r.quantity);
    if r.quantity > 0 && Unmet(b, r) {
      M.UnmetOrderRests(b, t, r.quantity);
    }
  }

  /** Something is cancelled, and reported, exactly when the id's slot holds an order of this user. */
  lemma {:induction false} CancelReply(b: PTB.Book, id: OrderId, user: UserId)
    ensures var events := PTB.Apply(b, Cancel(id, user)).events;
            events == if PTB.Cancels(b, id, user) then [OrderCancelled(id)] else []
  {
  }

  method ApplyEntry(book: OrderBook, e: LogEntry) returns (events: seq<EngineEvent>)
    requires book.Valid()
    modifies book
    ensures book.Valid()
    ensures PTB.Outcome(book.View(), events) == PTB.Apply(old(book.View()), e)
  {
    match e {
      case Place(id, user, side, price, quantity) =>
        events := book.PlaceLimitOrder(id, user, side, price, quantity);
      case Cancel(id, user) =>
        events := book.CancelOrder(id, user);
    }
  }

  method Replay(entries: seq<LogEntry>) returns (book: OrderBook)
    ensures fresh(book) && book.Valid() && book.View() == PTB.Run(entries)
  {
    hide ValidRep, ViewOf, PTB.Apply;
    book := new OrderBook();
    for i := 0 to |entries|
      invariant fresh(book) && book.Valid() && book.View() == PTB.Run(entries[..i])
    {
      var events := ApplyEntry(book, entries[i]);
      assert entries[..i + 1] == entries[..i] + [entries[i]];
      RunSnoc(entries[..i], entries[i]);
    }
    assert entries[..|entries|] == entries;
  }

  // ---- announcements -----------------------------------------------------------

  /** The announcements of one intent, in order. */
  function ResolutionsOf(events: seq<EngineEvent>, intent: string): seq<EngineEvent> {
    if events == [] then []
    else
      ResolutionsOf(events[..|events| - 1], intent)
      + (if events[|events| - 1].IntentResolved? && events[|events| - 1].intent == intent
         then [events[|events| - 1]] else [])
  }

  datatype Finished = Finished(intent: string, auction: Auction)

  ghost predicate ListsOnce(done: seq<Finished>, a: Open, keys: set<string>) {
    && (forall i, j :: 0 <= i < j < |done| ==> done[i].intent != done[j].intent)
    && (forall i :: 0 <= i < |done| ==> done[i].intent in keys && done[i].intent in a && done[i].auction == a[done[i].intent])
    && (forall k :: k in keys ==> exists i :: 0 <= i < |done| && done[i].intent == k)
  }

  lemma {:induction false} OneMore(done: seq<Finished>, a: Open, keys: set<string>, k: string)
    requires ListsOnce(done, a, keys) && k in a && k !in keys
    ensures ListsOnce(done + [Finished(k, a[k])], a, keys + {k})
  {
    var done' := done + [Finished(k, a[k])];
    forall x | x in keys + {k} ensures exists i :: 0 <= i < |done'| && done'[i].intent == x {
      if x == k {
        assert done'[|done|].intent == k;
      } else {
        var i :| 0 <= i < |done| && done[i].intent == x;
        assert done'[i].intent == x;
      }
    }
  }

  function Announcements(done: seq<Finished>): seq<EngineEvent> {
    if done == [] then []
    else Announcements(done[..|done| - 1]) + Resolution(done[|done| - 1].intent, done[|done| - 1].auction)
  }

  lemma {:induction false} ResolutionsConcat(a: seq<EngineEvent>, b: seq<EngineEvent>, intent: string)
    ensures ResolutionsOf(a + b, intent) == ResolutionsOf(a, intent) + ResolutionsOf(b, intent)
  {
    if b == [] {
      assert a + b == a;
    } else {
      assert (a + b)[..|a + b| - 1] == a + b[..|b| - 1];
      ResolutionsConcat(a, b[..|b| - 1], intent);
    }
  }

  lemma {:induction false} ResolutionIsFor(f: Finished, intent: string)
    ensures ResolutionsOf(Resolution(f.intent, f.auction), intent)
            == if f.intent == intent then Resolution(f.intent, f.auction) else []
  {
  }

  lemma {:induction false} AnnouncementsNone(done: seq<Finished>, intent: string)
    requires forall i :: 0 <= i < |done| ==> done[i].intent != intent
    ensures ResolutionsOf(Announcements(done), intent) == []
  {
    if done == [] {
    } else {
      var n := |done| - 1;
      AnnouncementsNone(done[..n], intent);
      ResolutionIsFor(done[n], intent);
      ResolutionsConcat(Announcements(done[..n]), Resolution(done[n].intent, done[n].auction), intent);
    }
  }

  /** Each finished auction is announced once, whatever order they were listed in. */
  lemma {:induction false} AnnouncementsOnce(done: seq<Finished>, k: nat)
    requires forall i, j :: 0 <= i < j < |done| ==> done[i].intent != done[j].intent
    requires k < |done|
    ensures ResolutionsOf(Announcements(done), done[k].intent) == Resolution(done[k].intent, done[k].auction)
  {
    hide Resolution, ResolutionsOf;
    var n := |done| - 1;
    var intent := done[k].intent;
    ResolutionIsFor(done[n], intent);
    ResolutionsConcat(Announcements(done[..n]), Resolution(done[n].intent, done[n].auction), intent);
    if k == n {
      AnnouncementsNone(done[..n], intent);
    } else {
      assert done[n].intent != intent;
      AnnouncementsOnce(done[..n], k);
    }
  }

  lemma {:induction false} TickAnnounces(done: seq<Finished>, a: Open, i: Input, keys: set<string>, intent: string)
    requires i.Tick? && keys == set k | k in a && Due(a, i.now, k)
    requires ListsOnce(done, a, keys)
    ensures ResolutionsOf(Announcements(done), intent) == Announced(a, i, intent)
  {
    if Due(a, i.now, intent) {
      assert intent in keys;
      var k :| 0 <= k < |done| && done[k].intent == intent;
      AnnouncementsOnce(done, k);
    } else {
      AnnouncementsNone(done, intent);
    }
  }

  lemma {:induction false} Beginning(c: Codec)
    ensures Keeps(c, [], []) && Stream(c, [], []) == [] && Active([]) == map[]
    ensures forall intent :: ResolutionsOf([], intent) == Emitted([], intent)
  {
  }

  // ---- the processor -----------------------------------------------------------

  class MarketProcessor {
    const codec: Codec
    const book: OrderBook
    const wal: WalHandler
    var auctions: Open
    var outbound: seq<EngineEvent>

    // What has happened so far: the file found at start, the entries recovered from it,
    // the entries logged since and how many bytes of each, and the auction inputs since.
    ghost var origin: seq<byte>
    ghost var recovered: seq<LogEntry>
    ghost var logged: seq<LogEntry>
    ghost var kept: seq<nat>
    ghost var trace: seq<Input>

    ghost predicate Valid()
      reads this, book, wal
    {
      && SelfDelimiting(codec)
      && book.Valid()
      && book.View() == PTB.Run(recovered + logged)
      && wal.Valid() && Keeps(codec, logged, kept)
      && wal.file + wal.buffer == origin + Stream(codec, logged, kept)
      && origin <= wal.file
      && auctions == Active(trace)
      && forall intent :: ResolutionsOf(outbound, intent) == Emitted(trace, intent)
    }

    /**
     Recovery: replay every entry the log file still yields.  A file that cannot be
     opened for reading yields none, but new entries still go behind what it holds.
     */
    constructor (c: Codec, existing: seq<byte>, readable: bool)
      requires SelfDelimiting(c)
      ensures Valid() && fresh(book) && fresh(wal)
      ensures codec == c && logged == [] && trace == []
      ensures origin == existing && recovered == if readable then DecodeAll(c, existing) else []
      ensures wal.file == origin && wal.buffer == []
    {
      hide SelfDelimiting, ValidRep, ViewOf, PTB.Run, PTB.Apply, DecodeAll, EncodeAll, Stream, ResolutionsOf, Emitted, Active;
      var entries := WalHandler.ReadAll(c, if readable then Some(existing) else None);
      var b := Replay(entries);
      codec, book := c, b;
      wal := new WalHandler(existing);
      auctions, outbound := map[], [];
      origin, recovered := existing, entries;
      logged, kept, trace := [], [], [];
      new;
      Beginning(c);
      assert entries + [] == entries;
      assert origin + [] == origin;
    }

    /** Write ahead, then execute; a failed write is reported and execution goes on. */
    method Execute(e: LogEntry) returns (events: seq<EngineEvent>)
      requires Valid()
      modifies this`logged, this`kept, book, wal
      ensures Valid()
      ensures logged == old(logged) + [e] && old(kept) <= kept
      ensures |old(wal.buffer)| + |codec.encode(e)| + 8 <= 8192 ==>
                kept == old(kept) + [|codec.encode(e)|]
      ensures PTB.Outcome(book.View(), events) == PTB.Apply(old(book.View()), e)
      ensures old(wal.file) <= wal.file
    {
      hide SelfDelimiting, ValidRep, ViewOf, PTB.Run, PTB.Apply, DecodeAll, EncodeAll, Stream, ResolutionsOf, Emitted, Active;
      var ok, k := wal.WriteEntry(codec, e);
      events := ApplyEntry(book, e);
      logged, kept := logged + [e], kept + [k];
      StreamSnoc(codec, old(logged), old(kept), e, k);
      RunSnoc(recovered + old(logged), e);
      assert recovered + logged == recovered + old(logged) + [e];
    }

    /** Orders of a bundle are logged and executed one by one. */
    method Bundle(rs: seq<BundleRequest>) returns (reply: Reply)
      requires Valid()
      modifies this`logged, this`kept, book, wal
      ensures Valid()
      ensures logged == old(logged) + Placements(rs) && old(kept) <= kept
      ensures |logged| == |old(logged)| + |rs|
      ensures forall i :: 0 <= i < |rs| ==>
                logged[|old(logged)| + i] == Place(rs[i].id, rs[i].user, rs[i].side, rs[i].price, rs[i].quantity)
      ensures reply == Events(EventsOf(old(book.View()), Placements(rs)))
    {
      hide SelfDelimiting, ValidRep, ViewOf, PTB.Run, PTB.Apply, DecodeAll, EncodeAll, Stream, ResolutionsOf, Emitted, Active;
      var bundleEvents := [];
      ghost var b := book.View();
      ghost var es := Placements(rs);
      for i := 0 to |rs|
        invariant Valid()
        invariant logged == old(logged) + es[..i] && old(kept) <= kept
        invariant book.View() == After(b, es[..i])
        invariant bundleEvents == EventsOf(b, es[..i])
      {
        var events := Execute(Placement(rs[i]));
        bundleEvents := bundleEvents + events;
        assert es[..i + 1][..i] == es[..i] && es[..i + 1][i] == es[i];
        assert es[..i + 1] == es[..i] + [es[i]];
      }
      assert es[..|rs|] == es;
      reply := Events(bundleEvents);
    }

    method HandleCommand(cmd: Command, now: nat) returns (reply: Reply)
      requires Valid()
      modifies this, book, wal
      ensures Valid()
      ensures origin == old(origin) && recovered == old(recovered) && outbound == old(outbound)
      ensures logged == old(logged) + EntriesOf(cmd) && old(kept) <= kept
      ensures match cmd
              case PlaceOrder(r) => logged == old(logged) + [Place(r.id, r.user, r.side, r.price, r.quantity)]
              case ExecuteBundle(rs) =>
                && |logged| == |old(logged)| + |rs|
                && forall i :: 0 <= i < |rs| ==>
                     logged[|old(logged)| + i] == Place(rs[i].id, rs[i].user, rs[i].side, rs[i].price, rs[i].quantity)
              case CancelOrder(user, id) => logged == old(logged) + [Cancel(id, user)]
              case _ => logged == old(logged)
      ensures trace == old(trace) + (if cmd.SubmitBid? then [Input.Bid(now, cmd.solver, cmd.intent, cmd.amount)] else [])
      ensures cmd.PlaceOrder? || cmd.ExecuteBundle? || cmd.CancelOrder? ==>
                reply == Events(EventsOf(old(book.View()), EntriesOf(cmd)))
      ensures cmd.PlaceOrder? && cmd.request.quantity > 0 && Unmet(old(book.View()), cmd.request) ==>
                var r := cmd.request;
                reply == Events([OrderPlaced(r.id, r.user, r.price, r.quantity, r.side)])
      ensures cmd.PlaceOrder? ==>
                forall e :: e in reply.events && e.TradeExecuted? ==>
                  && e.taker == cmd.request.id
                  && if cmd.request.side.Bid? then e.price <= cmd.request.price else e.price >= cmd.request.price
      ensures cmd.CancelOrder? ==>
                reply == Events(if PTB.Cancels(old(book.View()), cmd.id, cmd.user) then [OrderCancelled(cmd.id)] else [])
      ensures cmd.GetDepth? ==>
                && reply.DepthLevels?
                && Summarises(Side.Ask, book.View().asks, cmd.limit, reply.asks)
                && Summarises(Side.Bid, book.View().bids, cmd.limit, reply.bids)
      ensures cmd.SubmitBid? ==> reply == NoReply
    {
      hide SelfDelimiting, ValidRep, ViewOf, PTB.Run, PTB.Apply, DecodeAll, EncodeAll, Stream, ResolutionsOf, Emitted, Active;
      match cmd {
        case SubmitBid(solver, intent, amount) =>
          if intent in auctions {
            auctions := auctions[intent := auctions[intent].(bids := auctions[intent].bids[amount := solver])];
          } else {
            auctions := auctions[intent := Auction(map[amount := solver], now + AUCTION_MS)];
          }
          ghost var i := Input.Bid(now, solver, intent, amount);
          trace := trace + [i];
          forall other ensures ResolutionsOf(outbound, other) == Emitted(trace, other) {
            Grows(old(trace), i, other);
          }
          assert Active(trace) == Step(Active(old(trace)), i) by { Grows(old(trace), i, intent); }
          assert logged == old(logged) + [];
          reply := NoReply;
        case PlaceOrder(r) =>
          var events := Execute(Placement(r));
          Single(old(book.View()), Placement(r));
          PlacementReply(old(book.View()), r);
          reply := Events(events);
        case ExecuteBundle(rs) =>
          reply := Bundle(rs);
        case CancelOrder(user, id) =>
          var events := Execute(Cancel(id, user));
          Single(old(book.View()), Cancel(id, user));
          CancelReply(old(book.View()), id, user);
          reply := Events(events);
        case GetDepth(limit) =>
          var asks, bids := book.GetDepth(limit);
          assert logged == old(logged) + [];
          reply := DepthLevels(asks, bids);
      }
    }

    /** `retain`: visit the auctions in any order, taking out those that are due. */
    method TakeDue(now: nat) returns (completed: seq<Finished>, ghost due: set<string>)
      modifies this`auctions
      ensures auctions == Remaining(old(auctions), now)
      ensures due == set k | k in old(auctions) && Due(old(auctions), now, k)
      ensures ListsOnce(completed, old(auctions), due)
    {
      var a := auctions;
      var visit := a.Keys;
      completed, due := [], {};
      while visit != {}
        invariant visit <= a.Keys
        invariant due == set k | k in a.Keys - visit && Due(a, now, k)
        invariant ListsOnce(completed, a, due)
        invariant auctions == a - due
        decreases visit
      {
        var k :| k in visit;
        visit := visit - {k};
        if now >= a[k].endTime {
          OneMore(completed, a, due, k);
          completed := completed + [Finished(k, a[k])];
          auctions := auctions - {k};
          due := due + {k};
        }
      }
    }

    method Announce(completed: seq<Finished>)
      modifies this`outbound
      ensures outbound == old(outbound) + Announcements(completed)
    {
      for i := 0 to |completed|
        invariant outbound == old(outbound) + Announcements(completed[..i])
      {
        assert completed[..i + 1][..i] == completed[..i];
        if completed[i].auction.bids != map[] {
          var amount := L.Best(Side.Bid, completed[i].auction.bids.Keys);
          outbound := outbound + [IntentResolved(completed[i].intent, completed[i].auction.bids[amount], amount)];
        }
      }
      assert completed[..|completed|] == completed;
    }

    /** A tick: take the auctions that are due out of the map, then announce them. */
    method ResolveAuctions(now: nat)
      requires Valid()
      modifies this
      ensures Valid()
      ensures trace == old(trace) + [Tick(now)]
      ensures origin == old(origin) && recovered == old(recovered) && logged == old(logged) && kept == old(kept)
      ensures old(outbound) <= outbound
    {
      hide SelfDelimiting, ValidRep, ViewOf, PTB.Run, PTB.Apply, DecodeAll, EncodeAll, Stream, ResolutionsOf, Emitted, Active;
      ghost var a := auctions;
      ghost var t := Tick(now);
      var completed, due := TakeDue(now);
      Announce(completed);
      trace := trace + [t];
      forall intent ensures ResolutionsOf(outbound, intent) == Emitted(trace, intent) {
        Grows(old(trace), t, intent);
        TickAnnounces(completed, a, t, due, intent);
        ResolutionsConcat(old(outbound), Announcements(completed), intent);
      }
      Grows(old(trace), t, "");
    }
  }
}

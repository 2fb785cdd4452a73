/**
 What a finished run leaves behind beyond the settled hashes: the confirmed batches
 themselves and the highest view, and when these do not depend on delivery order.
 */
module Outcomes {
  import opened Bytes
  import opened ConsensusTypes
  import opened Certificates
  import opened NodeSteps
  import opened Safety
  import opened Confirmations
  import opened Delivery

  // ---- nothing out of thin air -------------------------------------------------

  /** A delivered certificate that passes the check has this view. */
  ghost predicate Certifies(env: Env, delivered: set<Message>, v: u64) {
    exists c :: CertificateMsg(c) in delivered && Accepted(env, c) && c.view == v
  }

  /** Remembered messages and accepted views come from deliveries. */
  ghost predicate Delivered(env: Env, w: World) {
    && (forall m :: m in w.node.cache ==> m in w.seen.delivered)
    && (forall v :: v in w.seen.accepted ==> Certifies(env, w.seen.delivered, v))
  }

  lemma {:induction false} DeliveredAfter(env: Env, w: World, l: Label)
    requires Safe(env, w) && Delivered(env, w) && Enabled(env, w, l)
    ensures Delivered(env, Take(env, w, l))
  {
    hide AllHashesOk, PendingOk, ConfirmedOk, Verified, VerifyBatch, Quorum, VotesFor, VotersOf, Form, LastConfirmed;
    var w' := Take(env, w, l);
    TakeGrows(env, w, l);
    if l.Step? {
      assert TaskOk(env, w, w.threads[l.i].task);
    }
    forall v | v in w'.seen.accepted ensures Certifies(env, w'.seen.delivered, v) {
      if v in w.seen.accepted {
        var c :| CertificateMsg(c) in w.seen.delivered && Accepted(env, c) && c.view == v;
        assert CertificateMsg(c) in w'.seen.delivered;
      } else {
        assert CertificateMsg(w.threads[l.i].task.certificate) in w'.seen.delivered;
      }
    }
  }

  lemma {:induction false} DeliveredRun(env: Env, run: seq<Label>)
    requires Legal(env, run)
    ensures Delivered(env, After(env, run))
  {
    if run == [] {
    } else {
      hide Safe, Delivered;
      SafeRun(env, run[..|run| - 1]);
      DeliveredRun(env, run[..|run| - 1]);
      DeliveredAfter(env, After(env, run[..|run| - 1]), run[|run| - 1]);
    }
  }

  // ---- the confirmed batches ---------------------------------------------------

  function BatchSet(cs: seq<Confirmation>): set<Batch> {
    set k | 0 <= k < |cs| :: cs[k].batch
  }

  ghost function ConfirmedBatches(o: Observed): set<Batch> {
    BatchSet(o.confirmations)
  }

  /** A hash stands for one batch: no two delivered or made here share it. */
  ghost predicate Unambiguous(env: Env, o: Observed) {
    forall b, c :: Sourced(env, o, b) && Sourced(env, o, c) && env.digest(b.header) == env.digest(c.header) ==> b == c
  }

  /** At any point of any run a confirmed batch was delivered or made here, and its hash is processed. */
  lemma {:induction false} ConfirmedIsSourced(env: Env, run: seq<Label>, b: Batch)
    requires Legal(env, run) && b in ConfirmedBatches(After(env, run).seen)
    ensures Sourced(env, After(env, run).seen, b) && env.digest(b.header) in After(env, run).node.processed
  {
    hide AllHashesOk, AllTasksOk, PendingOk, Sourced, SoundVotes;
    SafeRun(env, run);
    var w := After(env, run);
    var k :| 0 <= k < |w.seen.confirmations| && w.seen.confirmations[k].batch == b;
    assert Quorate(env, w.seen, w.seen.confirmations[k]);
  }

  /** If hashes are unambiguous, the confirmed batches are exactly the known ones with a processed hash. */
  lemma {:induction false} ConfirmedBatchesExactly(env: Env, run: seq<Label>, b: Batch)
    requires Legal(env, run) && Unambiguous(env, After(env, run).seen)
    ensures var w := After(env, run);
            b in ConfirmedBatches(w.seen) <==> Sourced(env, w.seen, b) && env.digest(b.header) in w.node.processed
  {
    hide AllHashesOk, AllTasksOk, PendingOk, Sourced, SoundVotes;
    SafeRun(env, run);
    var w := After(env, run);
    var cs := w.seen.confirmations;
    if b in ConfirmedBatches(w.seen) {
      ConfirmedIsSourced(env, run, b);
    }
    if Sourced(env, w.seen, b) && env.digest(b.header) in w.node.processed {
      var k :| 0 <= k < |cs| && cs[k].hash == env.digest(b.header);
      assert Quorate(env, w.seen, cs[k]);
      assert cs[k].batch == b;
    }
  }

  lemma {:induction false} DistinctBatches(cs: seq<Confirmation>)
    requires forall j, k :: 0 <= j < k < |cs| ==> cs[j].batch != cs[k].batch
    ensures |BatchSet(cs)| == |cs|
  {
    if cs == [] {
    } else {
      var n := |cs| - 1;
      DistinctBatches(cs[..n]);
      assert BatchSet(cs) == BatchSet(cs[..n]) + {cs[n].batch};
      assert cs[n].batch !in BatchSet(cs[..n]);
    }
  }

  /** Each confirmation brings a batch of its own. */
  lemma {:induction false} OneBatchEach(env: Env, run: seq<Label>)
    requires Legal(env, run)
    ensures |ConfirmedBatches(After(env, run).seen)| == |After(env, run).seen.confirmations|
  {
    hide AllHashesOk, AllTasksOk, PendingOk, SoundVotes, Sourced, Quorum;
    SafeRun(env, run);
    var cs := After(env, run).seen.confirmations;
    forall j, k | 0 <= j < k < |cs| ensures cs[j].batch != cs[k].batch {
      assert Quorate(env, After(env, run).seen, cs[j]) && Quorate(env, After(env, run).seen, cs[k]);
    }
    DistinctBatches(cs);
  }

  /** Up to 256 confirmations, the node retains all of their batches. */
  lemma {:induction false} AllRetained(env: Env, run: seq<Label>, b: Batch)
    requires Legal(env, run) && |After(env, run).seen.confirmations| <= MAX_CONFIRMED_BATCHES
    ensures b in After(env, run).node.confirmed <==> b in ConfirmedBatches(After(env, run).seen)
  {
    hide Legal, After;
    SlidingWindow(env, run);
    var w := After(env, run);
    var cs := w.seen.confirmations;
    assert w.node.confirmed == Batches(cs);
    if b in ConfirmedBatches(w.seen) {
      var k :| 0 <= k < |cs| && cs[k].batch == b;
      assert Batches(cs)[k] == b;
    }
  }

  // ---- the highest view --------------------------------------------------------

  /** v is the largest of 0, the rounds of these batches and the views of valid delivered certificates. */
  ghost predicate LargestView(env: Env, batches: set<Batch>, delivered: set<Message>, v: u64) {
    && (v == 0 || (exists b :: b in batches && b.round == v) || Certifies(env, delivered, v))
    && (forall b :: b in batches ==> b.round <= v)
    && (forall u: u64 :: Certifies(env, delivered, u) ==> u <= v)
  }

  lemma {:induction false} ViewIsSeen(env: Env, w: World)
    requires HighestOk(w) && Delivered(env, w)
    ensures var v := w.node.highest.view;
            || v == 0 || (exists b :: b in ConfirmedBatches(w.seen) && b.round == v)
            || Certifies(env, w.seen.delivered, v)
  {
    hide Certifies;
    var v, cs := w.node.highest.view, w.seen.confirmations;
    if v != 0 && v !in w.seen.accepted {
      var k :| 0 <= k < |cs| && cs[k].batch.round == v;
      assert cs[k].batch in ConfirmedBatches(w.seen);
    }
  }

  /** When all tasks are done, the highest view takes account of every delivered certificate. */
  lemma {:induction false} QuiescentView(env: Env, run: seq<Label>)
    requires Legal(env, run) && Quiescent(After(env, run))
    ensures var w := After(env, run);
            LargestView(env, ConfirmedBatches(w.seen), w.seen.delivered, w.node.highest.view)
  {
    hide Safe, Quiescent, Accepted, InHand, AbortsOk, WithoutMe, OwnTasks, SomeHandling, SomeWaiting;
    LiveRun(env, run);
    DeliveredRun(env, run);
    HighestView(env, run);
    var w := After(env, run);
    forall u: u64 | Certifies(env, w.seen.delivered, u) ensures u <= w.node.highest.view {
      var c :| CertificateMsg(c) in w.seen.delivered && Accepted(env, c) && c.view == u;
      NothingInFlight(env, w, CertificateMsg(c), c.hash);
      assert Served(env, w, CertificateMsg(c));
    }
    forall b | b in ConfirmedBatches(w.seen) ensures b.round <= w.node.highest.view {
      var k :| 0 <= k < |w.seen.confirmations| && w.seen.confirmations[k].batch == b;
    }
    ViewIsSeen(env, w);
  }

  // ---- independence of delivery order ------------------------------------------

  /**
   Two finished runs with the same messages and own batches, and with the same batches
   unendorsed and stalled, confirm the same batches, equally many, and reach the same
   highest view, if hashes are unambiguous.  Up to 256 they retain the same ones too.
   */
  lemma {:induction false} OutcomeOrderIndependence(env: Env, run: seq<Label>, other: seq<Label>)
    requires Legal(env, run) && Legal(env, other)
    requires Quiescent(After(env, run)) && Quiescent(After(env, other))
    requires After(env, run).seen.delivered == After(env, other).seen.delivered
    requires After(env, run).seen.made == After(env, other).seen.made
    requires After(env, run).seen.unendorsed == After(env, other).seen.unendorsed
    requires After(env, run).seen.stalled == After(env, other).seen.stalled
    requires Unambiguous(env, After(env, run).seen)
    ensures var w, v := After(env, run), After(env, other);
            && ConfirmedBatches(w.seen) == ConfirmedBatches(v.seen)
            && |w.seen.confirmations| == |v.seen.confirmations|
            && w.node.highest.view == v.node.highest.view
            && (|w.seen.confirmations| <= MAX_CONFIRMED_BATCHES ==>
                  forall b :: b in w.node.confirmed <==> b in v.node.confirmed)
  {
    hide Legal, Quiescent, ConfirmedBatches, Certifies;
    var w, v := After(env, run), After(env, other);
    DeliveryOrderIndependence(env, run, other);
    forall b ensures Sourced(env, w.seen, b) <==> Sourced(env, v.seen, b) {
    }
    forall b ensures b in ConfirmedBatches(w.seen) <==> b in ConfirmedBatches(v.seen) {
      ConfirmedBatchesExactly(env, run, b);
      ConfirmedBatchesExactly(env, other, b);
    }
    OneBatchEach(env, run);
    OneBatchEach(env, other);
    QuiescentView(env, run);
    QuiescentView(env, other);
    if |w.seen.confirmations| <= MAX_CONFIRMED_BATCHES {
      forall b ensures b in w.node.confirmed <==> b in v.node.confirmed {
        AllRetained(env, run, b);
        AllRetained(env, other, b);
      }
    }
  }
}

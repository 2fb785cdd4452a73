/** What every run says about confirmed batches, the retained window and the highest view. */
module Confirmations {
  import opened Bytes
  import opened ConsensusTypes
  import opened Certificates
  import opened NodeSteps
  import opened Safety

  // ---- quorum safety -----------------------------------------------------------

  /** Listed with both keys, and signature and VRF proof are good under them. */
  ghost predicate Proved(env: Env, header: Header) {
    && header.authority in env.book
    && env.book[header.authority].publicKey.Some? && |env.book[header.authority].publicKey.value| == 1312
    && env.book[header.authority].vrfKey.Some?
    && env.proves(env.book[header.authority].publicKey.value, env.book[header.authority].vrfKey.value, header)
  }

  /**
   In every run each confirmed batch had recorded votes of more than two thirds of the
   address book, from pairwise distinct addresses, each verified on delivery or cast by
   this node for the batch's own round; the batch itself was made here, or delivered
   with a header proved under its authority's listed keys; and no hash is confirmed twice.
   */
  lemma {:induction false} QuorumSafety(env: Env, run: seq<Label>)
    requires Legal(env, run)
    ensures var cs := After(env, run).seen.confirmations;
            var delivered := After(env, run).seen.delivered;
            && (forall k :: 0 <= k < |cs| ==>
                  && 3 * |cs[k].votes| > 2 * |env.book|
                  && DistinctVoters(cs[k].votes)
                  && env.digest(cs[k].batch.header) == cs[k].hash
                  && (cs[k].batch in After(env, run).seen.made
                      || (ProposalMsg(cs[k].batch) in delivered && Proved(env, cs[k].batch.header))))
            && (forall k, i :: 0 <= k < |cs| && 0 <= i < |cs[k].votes| ==>
                  var v := cs[k].votes[i];
                  && v.hash == cs[k].hash
                  && (v.voter == env.me ==> v == OwnVote(env, cs[k].batch.round, cs[k].hash))
                  && (v.voter != env.me ==> Verified(env, v) && VoteMsg(v) in delivered))
            && (forall j, k :: 0 <= j < k < |cs| ==> cs[j].hash != cs[k].hash)
  {
    SafeRun(env, run);
    hide AllHashesOk, AllTasksOk, PendingOk;
    var w := After(env, run);
    var cs := w.seen.confirmations;
    forall k, i | 0 <= k < |cs| && 0 <= i < |cs[k].votes|
      ensures var v := cs[k].votes[i];
              && v.hash == cs[k].hash
              && (v.voter == env.me ==> v == OwnVote(env, cs[k].batch.round, cs[k].hash))
              && (v.voter != env.me ==> Verified(env, v) && VoteMsg(v) in w.seen.delivered)
    {
      assert Quorate(env, w.seen, cs[k]);
      assert Sound(env, w.seen, cs[k].hash, cs[k].votes[i]);
    }
    forall k | 0 <= k < |cs|
      ensures Quorate(env, w.seen, cs[k]) && 3 * |cs[k].votes| > 2 * |env.book|
      ensures VerifyBatch(env, cs[k].batch.header) ==> Proved(env, cs[k].batch.header)
    {
      QuorumIsTwoThirds(env, |cs[k].votes|);
      VerifyBatchMeans(env, cs[k].batch.header);
    }
  }

  /** The certificate broadcast for a confirmation. */
  function CertificateOf(c: Confirmation): Certificate {
    Form(c.hash, c.batch.round, c.votes)
  }

  /** With the node's own key listed, every vote of a confirmation verifies. */
  lemma {:induction false} ConfirmedVotesVerify(env: Env, o: Observed, c: Confirmation)
    requires SignsAsListed(env) && Quorate(env, o, c)
    ensures forall i :: 0 <= i < |c.votes| ==> Verified(env, c.votes[i]) && c.votes[i].hash == c.hash
  {
    forall i | 0 <= i < |c.votes| ensures Verified(env, c.votes[i]) && c.votes[i].hash == c.hash {
      assert Sound(env, o, c.hash, c.votes[i]);
    }
  }

  /**
   Whether peers with the same address book accept a certificate this node broadcasts:
   always exactly when a quorum of its signatures verifies under the batch's round.  If
   the node's key is listed and signatures bind, that can be read off the recorded round
   ids: exactly when a quorum of voters named the batch's own round.
   */
  lemma {:induction false} BroadcastAccepted(env: Env, run: seq<Label>, k: nat)
    requires Legal(env, run) && k < |After(env, run).seen.confirmations|
    ensures var c := After(env, run).seen.confirmations[k];
            && (Accepted(env, CertificateOf(c)) <==>
                  3 * |GoodVotes(env, c.hash, c.batch.round, c.votes)| > 2 * |env.book|)
            && (SignsAsListed(env) && BindingSignatures(env) ==>
                  (Accepted(env, CertificateOf(c)) <==> 3 * |RoundVoters(c.batch.round, c.votes)| > 2 * |env.book|))
            && (SignsAsListed(env) && (forall i :: 0 <= i < |c.votes| ==> c.votes[i].round == c.batch.round) ==>
                  Accepted(env, CertificateOf(c)))
  {
    SafeRun(env, run);
    hide AllHashesOk, AllTasksOk, PendingOk, Verified, VerifyVote, SignsAsListed, BindingSignatures;
    var w := After(env, run);
    var c := w.seen.confirmations[k];
    assert Quorate(env, w.seen, c);
    FormedAccepted(env, c.hash, c.batch.round, c.votes);
    if SignsAsListed(env) {
      ConfirmedVotesVerify(env, w.seen, c);
      if BindingSignatures(env) {
        GoodByRound(env, c.hash, c.batch.round, c.votes);
      }
      if forall i :: 0 <= i < |c.votes| ==> c.votes[i].round == c.batch.round {
        ProducerVerifierAgree(env, c.hash, c.batch.round, c.votes);
      }
    }
  }

  // ---- the retained window -----------------------------------------------------

  function Batches(cs: seq<Confirmation>): (bs: seq<Batch>)
    ensures |bs| == |cs|
    ensures forall i :: 0 <= i < |cs| ==> bs[i] == cs[i].batch
  {
    seq(|cs|, i requires 0 <= i < |cs| => cs[i].batch)
  }

  /** How many batches are retained after k confirmations, the last a of them without their prune. */
  function Retained(k: nat, a: nat): int {
    Min(256, k - a) + a
  }

  ghost predicate Window(bs: seq<Batch>, retained: seq<Batch>, unpruned: nat) {
    && unpruned <= |bs|
    && |retained| == Retained(|bs|, unpruned)
    && retained == bs[|bs| - |retained|..]
  }

  ghost predicate WindowOk(w: World) {
    Window(Batches(w.seen.confirmations), w.node.confirmed, w.seen.unpruned)
  }

  lemma {:induction false} WindowGrows(bs: seq<Batch>, retained: seq<Batch>, unpruned: nat, b: Batch)
    requires Window(bs, retained, unpruned)
    ensures Window(bs + [b], retained + [b], unpruned + 1)
  {
    assert (bs + [b])[|bs| - |retained|..] == retained + [b];
  }

  lemma {:induction false} WindowPruned(bs: seq<Batch>, retained: seq<Batch>, unpruned: nat)
    requires Window(bs, retained, unpruned)
    ensures Window(bs, LastConfirmed(retained), 0)
  {
  }

  lemma {:induction false} BatchesSnoc(cs: seq<Confirmation>, c: Confirmation)
    ensures Batches(cs + [c]) == Batches(cs) + [c.batch]
  {
  }

  lemma {:induction false} ConfirmFields(n: Node, h: Hash)
    requires h in n.pending
    ensures Confirm(n, h).confirmed == n.confirmed + [n.pending[h]]
    ensures PruneStale(Confirm(n, h)).confirmed == LastConfirmed(n.confirmed + [n.pending[h]])
  {
  }

  lemma {:induction false} WindowConfirm(w: World, w': World, h: Hash, pruned: bool)
    requires WindowOk(w) && h in w.node.pending
    requires w'.seen.confirmations == w.seen.confirmations + [Confirmed(w.node, h)]
    requires w'.seen.unpruned == if pruned then 0 else w.seen.unpruned + 1
    requires w'.node.confirmed == if pruned then PruneStale(Confirm(w.node, h)).confirmed else Confirm(w.node, h).confirmed
    ensures WindowOk(w')
  {
    var bs, b := Batches(w.seen.confirmations), w.node.pending[h];
    BatchesSnoc(w.seen.confirmations, Confirmed(w.node, h));
    ConfirmFields(w.node, h);
    hide Window, VotesFor, Form, Batches, LastConfirmed, Confirm;
    WindowGrows(bs, w.node.confirmed, w.seen.unpruned, b);
    WindowPruned(bs + [b], w.node.confirmed + [b], w.seen.unpruned + 1);
  }

  lemma {:induction false} WindowKept(w: World, w': World)
    requires WindowOk(w) && w'.node.confirmed == w.node.confirmed
    requires w'.seen.confirmations == w.seen.confirmations && w'.seen.unpruned == w.seen.unpruned
    ensures WindowOk(w')
  {
  }

  lemma {:induction false} WindowAfter(env: Env, w: World, l: Label)
    requires WindowOk(w) && Enabled(env, w, l)
    ensures WindowOk(Take(env, w, l))
  {
    hide WindowOk, Quorum, VotesFor, Accepted, Verified, VerifyBatch, PruneStale, Confirm;
    var w' := Take(env, w, l);
    if l.AbortSend? {
      ConfirmFields(w.node, w.threads[l.i].task.hash);
      WindowConfirm(w, w', w.threads[l.i].task.hash, false);
    } else if l.Step? && w.threads[l.i].task.Counting? && Ready(env, w.node, w.threads[l.i].task.hash) {
      WindowConfirm(w, w', w.threads[l.i].task.hash, true);
    } else {
      WindowKept(w, w');
    }
  }

  /**
   The retained list is a suffix of the confirmations in order.  It is exactly the last
   min(256, k) of them unless a proposer task was aborted while broadcasting its
   certificate, which skips that confirmation's prune, and more than 256 exist.
   */
  lemma {:induction false} SlidingWindow(env: Env, run: seq<Label>)
    requires Legal(env, run)
    ensures WindowOk(After(env, run))
    ensures var w := After(env, run);
            var k := |w.seen.confirmations|;
            (|w.node.confirmed| == Min(256, k) <==> w.seen.unpruned == 0 || k <= 256)
  {
    if run == [] {
    } else {
      SlidingWindow(env, run[..|run| - 1]);
      WindowAfter(env, After(env, run[..|run| - 1]), run[|run| - 1]);
    }
  }

  /** Retained batch i is that of its own confirmation, counted from the end, and its hash is processed. */
  ghost predicate Backed(env: Env, n: Node, o: Observed, i: nat) {
    var k := |o.confirmations| - |n.confirmed| + i;
    && i < |n.confirmed| && 0 <= k < |o.confirmations|
    && var c := o.confirmations[k];
    && n.confirmed[i] == c.batch && Quorate(env, o, c)
    && env.digest(c.batch.header) == c.hash && c.hash in n.processed
  }

  /** Every retained batch is backed by its confirmation. */
  lemma {:induction false} RetainedProcessed(env: Env, run: seq<Label>, i: nat)
    requires Legal(env, run) && i < |After(env, run).node.confirmed|
    ensures Backed(env, After(env, run).node, After(env, run).seen, i)
  {
    SafeRun(env, run);
    SlidingWindow(env, run);
    hide AllHashesOk, AllTasksOk, PendingOk;
    var w := After(env, run);
    var cs := w.seen.confirmations;
    var k := |cs| - |w.node.confirmed| + i;
    assert w.node.confirmed[i] == Batches(cs)[k];
    assert Quorate(env, w.seen, cs[k]);
  }

  lemma {:induction false} RetainedDistinct(env: Env, run: seq<Label>, j: nat, i: nat)
    requires Legal(env, run) && j < i < |After(env, run).node.confirmed|
    ensures var n := After(env, run).node;
            env.digest(n.confirmed[j].header) != env.digest(n.confirmed[i].header)
  {
    SafeRun(env, run);
    RetainedProcessed(env, run, j);
    RetainedProcessed(env, run, i);
    hide AllHashesOk, AllTasksOk, PendingOk, Quorate;
  }

  // ---- the highest view --------------------------------------------------------

  ghost predicate ViewSeen(w: World, v: u64) {
    || v == 0
    || (exists k :: 0 <= k < |w.seen.confirmations| && w.seen.confirmations[k].batch.round == v)
    || v in w.seen.accepted
  }

  /** The highest certificate's view is the maximum of 0, confirmed rounds and accepted views. */
  ghost predicate HighestOk(w: World) {
    && ViewSeen(w, w.node.highest.view)
    && (forall k :: 0 <= k < |w.seen.confirmations| ==> w.seen.confirmations[k].batch.round <= w.node.highest.view)
    && (forall v :: v in w.seen.accepted ==> v <= w.node.highest.view)
  }

  lemma {:induction false} ViewKept(w: World, w': World, v: u64)
    requires ViewSeen(w, v)
    requires w.seen.confirmations <= w'.seen.confirmations && w.seen.accepted <= w'.seen.accepted
    ensures ViewSeen(w', v)
  {
  }

  lemma {:induction false} HighestConfirm(w: World, w': World, h: Hash)
    requires HighestOk(w) && h in w.node.pending
    requires w'.seen.confirmations == w.seen.confirmations + [Confirmed(w.node, h)]
    requires w'.seen.accepted == w.seen.accepted
    requires w'.node.highest == Confirm(w.node, h).highest
    ensures HighestOk(w')
  {
    ViewKept(w, w', w.node.highest.view);
    assert w'.seen.confirmations[|w.seen.confirmations|].batch == w.node.pending[h];
  }

  lemma {:induction false} HighestAccept(w: World, w': World, c: Certificate)
    requires HighestOk(w)
    requires w'.seen.confirmations == w.seen.confirmations
    requires w'.seen.accepted == w.seen.accepted + [c.view]
    requires w'.node.highest == if c.view > w.node.highest.view then c else w.node.highest
    ensures HighestOk(w')
  {
    ViewKept(w, w', w.node.highest.view);
  }

  lemma {:induction false} HighestKept(w: World, w': World)
    requires HighestOk(w) && w'.node.highest == w.node.highest
    requires w'.seen.confirmations == w.seen.confirmations && w'.seen.accepted == w.seen.accepted
    ensures HighestOk(w')
  {
    ViewKept(w, w', w.node.highest.view);
  }

  lemma {:induction false} HighestAfter(env: Env, w: World, l: Label)
    requires HighestOk(w) && Enabled(env, w, l)
    ensures HighestOk(Take(env, w, l))
    ensures Take(env, w, l).node.highest.view >= w.node.highest.view
  {
    hide HighestOk, Quorum, VotesFor, Accepted, Verified, VerifyBatch;
    var w' := Take(env, w, l);
    if l.AbortSend? {
      HighestConfirm(w, w', w.threads[l.i].task.hash);
    } else if l.Step? && w.threads[l.i].task.Counting? && Ready(env, w.node, w.threads[l.i].task.hash) {
      HighestConfirm(w, w', w.threads[l.i].task.hash);
    } else if l.Step? && w.threads[l.i].task.Certified? && Accepted(env, w.threads[l.i].task.certificate) {
      HighestAccept(w, w', w.threads[l.i].task.certificate);
    } else {
      HighestKept(w, w');
    }
  }

  lemma {:induction false} HighestView(env: Env, run: seq<Label>)
    requires Legal(env, run)
    ensures HighestOk(After(env, run))
  {
    if run == [] {
    } else {
      HighestView(env, run[..|run| - 1]);
      HighestAfter(env, After(env, run[..|run| - 1]), run[|run| - 1]);
    }
  }
}

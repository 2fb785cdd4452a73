/**
 Particular runs: a handler run by itself is one, and some show where a promise stops:
 an aborted proposer, an overfull window, a certificate peers reject, two batches with
 one hash.
 */
module WitnessRuns {
  import opened Bytes
  import opened ConsensusTypes
  import opened Certificates
  import opened NodeSteps
  import opened Safety
  import opened Confirmations
  import opened Delivery
  import opened Outcomes
  import opened Pacemaker

  lemma {:induction false} AfterSnoc(env: Env, run: seq<Label>, l: Label)
    requires Legal(env, run) && Enabled(env, After(env, run), l)
    ensures Legal(env, run + [l])
    ensures After(env, run + [l]) == Take(env, After(env, run), l)
  {
    assert (run + [l])[..|run|] == run;
  }

  lemma {:induction false} NextDescends(env: Env, n: Node, t: Task)
    requires !t.Finished?
    ensures Rank(Next(env, n, t).task) < Rank(t)
  {
    hide Verified, VerifyBatch, Ready, Accepted;
  }

  /** No abort has left a mark on what was observed. */
  ghost predicate NoAborts(o: Observed) {
    o.unendorsed == {} && o.stalled == {} && o.unpruned == 0
  }

  /** From any point of any run, a task can run alone to its end, leaving the others where they are. */
  lemma {:induction false} AloneIsARun(env: Env, run: seq<Label>, i: nat) returns (run': seq<Label>)
    requires Legal(env, run) && i < |After(env, run).threads|
    ensures Legal(env, run') && run <= run'
    ensures var w, w' := After(env, run), After(env, run');
            && w'.node == Alone(env, w.node, w.threads[i].task)
            && w'.threads == w.threads[i := w.threads[i].(task := Finished)]
            && w'.seen.delivered == w.seen.delivered && w'.seen.made == w.seen.made
            && (NoAborts(w.seen) ==> NoAborts(w'.seen))
    decreases Rank(After(env, run).threads[i].task)
  {
    var w := After(env, run);
    var t := w.threads[i].task;
    AloneStep(env, w.node, t);
    if t.Finished? {
      run' := run;
      assert w.threads == w.threads[i := w.threads[i].(task := Finished)];
    } else {
      NextDescends(env, w.node, t);
      AfterSnoc(env, run, Step(i));
      hide Next, Alone, Legal, After;
      run' := AloneIsARun(env, run + [Step(i)], i);
    }
  }

  /** A message handled on arrival, with nobody in between: the handler's effect is the effect of a legal run. */
  lemma {:induction false} HandledOnArrival(env: Env, run: seq<Label>, m: Message) returns (run': seq<Label>)
    requires Legal(env, run) && Enabled(env, After(env, run), Deliver(m))
    ensures Legal(env, run') && run <= run'
    ensures var w, w' := After(env, run), After(env, run');
            && w'.node == Alone(env, w.node, Arrived(m))
            && w'.seen.delivered == w.seen.delivered + {m} && w'.seen.made == w.seen.made
            && (Quiescent(w) ==> Quiescent(w')) && (NoAborts(w.seen) ==> NoAborts(w'.seen))
  {
    AfterSnoc(env, run, Deliver(m));
    hide Alone, Legal, After;
    run' := AloneIsARun(env, run + [Deliver(m)], |After(env, run).threads|);
  }

  /** The proposer flow's effect on a state, run by itself. */
  function ProposerFlow(env: Env, n: Node, b: Batch): Node {
    var h := env.digest(b.header);
    Alone(env, n.(pending := n.pending[h := b]), Endorsing(h, b.round))
  }

  /** The proposer flow run with nobody in between is a legal run too. */
  lemma {:induction false} ProposedOnItsOwn(env: Env, run: seq<Label>, b: Batch) returns (run': seq<Label>)
    requires Legal(env, run) && Enabled(env, After(env, run), Propose(b))
    ensures Legal(env, run') && run <= run'
    ensures var w, w' := After(env, run), After(env, run');
            && w'.node == ProposerFlow(env, w.node, b)
            && w'.seen.delivered == w.seen.delivered && w'.seen.made == w.seen.made + {b}
            && (Quiescent(w) ==> Quiescent(w')) && (NoAborts(w.seen) ==> NoAborts(w'.seen))
  {
    AfterSnoc(env, run, Propose(b));
    hide Alone, Legal, After;
    run' := AloneIsARun(env, run + [Propose(b)], |After(env, run).threads|);
  }

  // ---- others vote first ---------------------------------------------------------

  /** Valid votes for h of distinct others. */
  ghost predicate Ballot(env: Env, h: Hash, vs: seq<Vote>) {
    && DistinctVoters(vs)
    && forall i :: 0 <= i < |vs| ==> Verified(env, vs[i]) && vs[i].hash == h && vs[i].voter != env.me
  }

  function VoteMessages(vs: seq<Vote>): set<Message> {
    set i | 0 <= i < |vs| :: VoteMsg(vs[i])
  }

  /** These votes have been delivered and handled, and nothing else has happened. */
  ghost predicate Collected(w: World, h: Hash, vs: seq<Vote>) {
    && Quiescent(w) && NoAborts(w.seen)
    && w.seen.delivered == VoteMessages(vs) && w.seen.made == {}
    && w.node.pending == map[] && w.node.processed == {} && w.node.confirmed == []
    && VotesFor(w.node, h) == vs && w.node.votes.Keys <= {h}
  }

  /** A vote for a batch not known yet is recorded, and that is all. */
  lemma {:induction false} VoteAlone(env: Env, n: Node, v: Vote)
    requires VoteMsg(v) !in n.cache && v.hash !in n.processed && v.hash !in n.pending
    requires Verified(env, v) && v.voter !in VotersOf(VotesFor(n, v.hash))
    ensures Alone(env, n, Arrived(VoteMsg(v))) == Push(Remember(n, VoteMsg(v)), v)
  {
    hide Alone, Verified, VotersOf, Quorum, Confirm, PruneStale;
    var n' := Remember(n, VoteMsg(v));
    ArrivesAlone(env, n, VoteMsg(v));
    AloneStep(env, n', Received(v));
    AloneStep(env, n', Recording(v));
    CountsAlone(env, Push(n', v), v.hash);
  }

  lemma {:induction false} NotYetDelivered(env: Env, h: Hash, vs: seq<Vote>)
    requires vs != [] && Ballot(env, h, vs)
    ensures var n := |vs| - 1;
            && Ballot(env, h, vs[..n])
            && VoteMsg(vs[n]) !in VoteMessages(vs[..n]) && vs[n].voter !in VotersOf(vs[..n])
            && VoteMessages(vs) == VoteMessages(vs[..n]) + {VoteMsg(vs[n])}
  {
    hide Verified;
  }

  lemma {:induction false} CollectVotes(env: Env, h: Hash, vs: seq<Vote>) returns (run: seq<Label>)
    requires Ballot(env, h, vs)
    ensures Legal(env, run) && Collected(After(env, run), h, vs)
  {
    if vs == [] {
      run := [];
    } else {
      hide Legal, After, Quiescent, NoAborts, Verified, Alone;
      var n := |vs| - 1;
      var before := CollectVotes(env, h, vs[..n]);
      var w, v := After(env, before), vs[n];
      DeliveredRun(env, before);
      NotYetDelivered(env, h, vs);
      run := HandledOnArrival(env, before, VoteMsg(v));
      VoteAlone(env, w.node, v);
      assert vs[..n] + [v] == vs;
    }
  }

  // ---- then this node proposes ---------------------------------------------------

  /** Nothing is known of the batch yet, and with one vote more it has a quorum. */
  ghost predicate OneShort(env: Env, w: World, b: Batch) {
    var h := env.digest(b.header);
    && |VotesFor(w.node, h)| + 1 >= Quorum(env)
    && !Made(env, w.seen.made, h) && !Offered(env, w.seen.delivered, h)
    && h !in w.node.processed && w.node.votes.Keys <= {h}
  }

  lemma {:induction false} EndorseAlone(env: Env, w: World, w1: World, b: Batch)
    requires OneShort(env, w, b) && w1 == Take(env, w, Propose(b))
    ensures var w2, h := Take(env, w1, Step(|w.threads|)), env.digest(b.header);
            && w2.node == w.node.(pending := w.node.pending[h := b],
                                  votes := map[h := VotesFor(w.node, h) + [OwnVote(env, b.round, h)]])
            && w2.threads == w.threads + [Thread(true, Counting(h))]
            && w2.seen == w.seen.(made := w.seen.made + {b})
            && Ready(env, w2.node, h)
  {
    hide Made, Offered;
    var h := env.digest(b.header);
    var votes := VotesFor(w.node, h) + [OwnVote(env, b.round, h)];
    var w2 := Take(env, w1, Step(|w.threads|));
    assert w1.threads[|w.threads|].task == Endorsing(h, b.round);
    assert w2.node.votes == map[h := votes];
    assert w2.threads == w.threads + [Thread(true, Counting(h))];
  }

  /** The proposer flow up to its own vote. */
  lemma {:induction false} ProposeAlone(env: Env, run: seq<Label>, b: Batch) returns (run': seq<Label>)
    requires Legal(env, run) && OneShort(env, After(env, run), b)
    ensures Legal(env, run')
    ensures var w, w', h := After(env, run), After(env, run'), env.digest(b.header);
            && w'.node == w.node.(pending := w.node.pending[h := b],
                                  votes := map[h := VotesFor(w.node, h) + [OwnVote(env, b.round, h)]])
            && w'.threads == w.threads + [Thread(true, Counting(h))]
            && w'.seen == w.seen.(made := w.seen.made + {b})
            && Ready(env, w'.node, h)
  {
    var w := After(env, run);
    AfterSnoc(env, run, Propose(b));
    hide Legal, After;
    var w1 := Take(env, w, Propose(b));
    AfterSnoc(env, run + [Propose(b)], Step(|w.threads|));
    run' := run + [Propose(b)] + [Step(|w.threads|)];
    EndorseAlone(env, w, w1, b);
  }

  lemma {:induction false} FirstIsProcessed(env: Env, w: World)
    requires ConfirmedOk(env, w)
    ensures w.seen.confirmations == [] || w.seen.confirmations[0].hash in w.node.processed
  {
  }

  lemma {:induction false} NothingConfirmed(env: Env, run: seq<Label>)
    requires Legal(env, run) && After(env, run).node.processed == {}
    ensures After(env, run).seen.confirmations == []
  {
    hide AllHashesOk, AllTasksOk, PendingOk, Quorate;
    SafeRun(env, run);
    FirstIsProcessed(env, After(env, run));
  }

  /** The same after the others' votes. */
  lemma {:induction false} CollectAndPropose(env: Env, b: Batch, vs: seq<Vote>) returns (run: seq<Label>)
    requires Ballot(env, env.digest(b.header), vs) && |vs| + 1 >= Quorum(env)
    ensures Legal(env, run)
    ensures var w, h := After(env, run), env.digest(b.header);
            && |w.threads| > 0 && w.threads[|w.threads| - 1] == Thread(true, Counting(h))
            && (forall i :: 0 <= i < |w.threads| - 1 ==> w.threads[i].task.Finished?)
            && w.node.pending == map[h := b] && w.node.votes == map[h := vs + [OwnVote(env, b.round, h)]]
            && w.node.processed == {} && w.seen.confirmations == []
            && NoAborts(w.seen) && Ready(env, w.node, h)
  {
    hide Legal, After, Ready, OwnVote, Verified;
    var h := env.digest(b.header);
    var start := CollectVotes(env, h, vs);
    var w := After(env, start);
    assert !Made(env, w.seen.made, h) && !Offered(env, w.seen.delivered, h);
    NothingConfirmed(env, start);
    run := ProposeAlone(env, start, b);
  }

  /**
   A proposer task aborted after its vote and before its count, with the others' votes
   in: the batch has its quorum, and no task will ever process it.
   */
  lemma {:induction false} AbortStrandsBatch(env: Env, b: Batch, vs: seq<Vote>) returns (run: seq<Label>)
    requires Ballot(env, env.digest(b.header), vs) && |vs| + 1 >= Quorum(env)
    ensures Legal(env, run)
    ensures var w, h := After(env, run), env.digest(b.header);
            Quiescent(w) && Decided(env, w.seen, h) && h in w.seen.stalled && h !in w.node.processed
  {
    hide Ready, Quorum, Decided, Ballot, OwnVote;
    run := CollectAndPropose(env, b, vs);
    var n := |After(env, run).threads| - 1;
    AfterSnoc(env, run, Abort(n));
    run := run + [Abort(n)];
    assert Quiescent(After(env, run));
    QuiescentOutcome(env, run, env.digest(b.header));
  }

  /** The counting section of a task, when its batch is the only one voted for. */
  lemma {:induction false} ConfirmOne(env: Env, run: seq<Label>, i: nat)
    requires Legal(env, run)
    requires var w := After(env, run);
             && i < |w.threads| && w.threads[i].task.Counting?
             && Ready(env, w.node, w.threads[i].task.hash)
             && w.node.votes.Keys == {w.threads[i].task.hash}
    ensures Legal(env, run + [Step(i)])
    ensures var w, w' := After(env, run), After(env, run + [Step(i)]);
            && |w'.threads| == |w.threads|
            && w'.node.votes == map[] && w'.node.processed == w.node.processed + {w.threads[i].task.hash}
            && w'.seen.confirmations == w.seen.confirmations + [Confirmed(w.node, w.threads[i].task.hash)] && w'.seen.unpruned == 0
            && w'.seen.delivered == w.seen.delivered && w'.seen.made == w.seen.made
  {
    AfterSnoc(env, run, Step(i));
    var w := After(env, run);
    assert After(env, run + [Step(i)]).node.votes == map[];
  }

  /** Votes, proposal, confirmation: the certificate broadcast holds these votes and this node's. */
  lemma {:induction false} ConfirmWithVotes(env: Env, b: Batch, vs: seq<Vote>) returns (run: seq<Label>)
    requires Ballot(env, env.digest(b.header), vs) && |vs| + 1 >= Quorum(env)
    ensures Legal(env, run)
    ensures var h := env.digest(b.header);
            After(env, run).seen.confirmations == [Confirmation(h, b, vs + [OwnVote(env, b.round, h)])]
  {
    hide Legal, After, Ready, OwnVote, Verified;
    run := CollectAndPropose(env, b, vs);
    var n := |After(env, run).threads| - 1;
    ConfirmOne(env, run, n);
    run := run + [Step(n)];
  }

  lemma {:induction false} OwnIsOther(env: Env, h: Hash, vs: seq<Vote>, round: u64)
    requires Ballot(env, h, vs)
    ensures DistinctVoters(vs + [OwnVote(env, round, h)])
  {
    hide Verified, CanonicalBytes;
  }

  /** A certificate of just a quorum needs every one of its signatures. */
  lemma {:induction false} GoodAreVoters(env: Env, h: Hash, round: u64, votes: seq<Vote>, i: nat)
    requires DistinctVoters(votes) && |votes| == Quorum(env) && i < |votes|
    requires !VerifyVote(env, votes[i].voter, round, h, votes[i].signature)
    ensures |GoodVotes(env, h, round, votes)| < Quorum(env)
  {
    hide VerifyVote, Quorum;
    DistinctCount(votes);
    assert GoodVotes(env, h, round, votes) <= VotersOf(votes) - {votes[i].voter};
    SubsetSize(GoodVotes(env, h, round, votes), VotersOf(votes) - {votes[i].voter});
    assert votes[i].voter in VotersOf(votes);
  }

  lemma {:induction false} OutsiderVoteIsNotGood(env: Env, h: Hash, round: u64, vs: seq<Vote>)
    requires env.me !in env.book && Ballot(env, h, vs) && |vs| + 1 == Quorum(env)
    ensures !Accepted(env, Form(h, round, vs + [OwnVote(env, round, h)]))
  {
    hide CanonicalBytes, Accepted;
    var votes := vs + [OwnVote(env, round, h)];
    OwnIsOther(env, h, vs, round);
    FormedAccepted(env, h, round, votes);
    GoodAreVoters(env, h, round, votes, |vs|);
  }

  /** A node outside the address book confirms its own batch with a certificate no peer accepts. */
  lemma {:induction false} OutsiderCertificateRejected(env: Env, b: Batch, vs: seq<Vote>) returns (run: seq<Label>)
    requires env.me !in env.book && Ballot(env, env.digest(b.header), vs) && |vs| + 1 == Quorum(env)
    ensures Legal(env, run)
    ensures var cs := After(env, run).seen.confirmations;
            |cs| == 1 && cs[0].batch == b && !Accepted(env, CertificateOf(cs[0]))
  {
    hide Legal, After, Accepted, OwnVote, Ballot;
    run := ConfirmWithVotes(env, b, vs);
    OutsiderVoteIsNotGood(env, env.digest(b.header), b.round, vs);
  }

  /**
   A batch with one vote for another round and no vote to spare is confirmed with a
   certificate no peer accepts, although every vote in it verified on delivery.
   */
  lemma {:induction false} StaleRoundRejected(env: Env, b: Batch, vs: seq<Vote>, i: nat) returns (run: seq<Label>)
    requires BindingSignatures(env) && Ballot(env, env.digest(b.header), vs) && |vs| + 1 == Quorum(env)
    requires i < |vs| && vs[i].round != b.round
    ensures Legal(env, run)
    ensures var h, cs := env.digest(b.header), After(env, run).seen.confirmations;
            && cs == [Confirmation(h, b, vs + [OwnVote(env, b.round, h)])]
            && !Accepted(env, CertificateOf(cs[0]))
  {
    hide Legal, After, Accepted, BindingSignatures, OwnVote;
    var h := env.digest(b.header);
    run := ConfirmWithVotes(env, b, vs);
    var votes := vs + [OwnVote(env, b.round, h)];
    GoodUnderOwnRound(env, vs[i], b.round);
    assert DistinctVoters(votes) by { OwnIsOther(env, h, vs, b.round); }
    FormedAccepted(env, h, b.round, votes);
    GoodAreVoters(env, h, b.round, votes, i);
  }

  lemma {:induction false} CountingAlone(env: Env, n: Node, h: Hash)
    ensures Ready(env, n, h) ==> h in Alone(env, n, Counting(h)).processed
    ensures !Ready(env, n, h) ==> Alone(env, n, Counting(h)) == n
  {
    hide Alone, VotesFor, Quorum, Form, LastConfirmed;
    CountsAlone(env, n, h);
    if Ready(env, n, h) {
      var done := PruneStale(Confirm(n, h));
      AloneStep(env, done, Clearing);
      AloneStep(env, done, Sweeping(done.processed));
      AloneStep(env, done.(pending := done.pending - done.processed), Finished);
    }
  }

  /** The state after proposing the same batch k times, which the flow itself never does. */
  function Repeated(env: Env, b: Batch, k: nat): Node {
    if k == 0 then INITIAL else ProposerFlow(env, Repeated(env, b, k - 1), b)
  }

  /** One more flow of a batch not yet processed pushes one more own vote and counts. */
  lemma {:induction false} OnceMore(env: Env, n: Node, b: Batch)
    ensures var h, n' := env.digest(b.header), ProposerFlow(env, n, b);
            && (h in n.processed ==> h in n'.processed)
            && (h !in n.processed ==>
                  && (h in n'.processed <==> |VotesFor(n, h)| + 1 >= Quorum(env))
                  && (h !in n'.processed ==> |VotesFor(n', h)| == |VotesFor(n, h)| + 1))
  {
    hide Alone, Quorum;
    var h := env.digest(b.header);
    var n1 := n.(pending := n.pending[h := b]);
    AloneStep(env, n1, Endorsing(h, b.round));
    CountingAlone(env, Push(n1, OwnVote(env, b.round, h)), h);
  }

  /**
   Why own batches must be new: the push does not look for an earlier vote, so making one
   batch over and over confirms it on copies of this node's vote alone, exactly once
   there are as many as a quorum.
   */
  lemma {:induction false} RepeatedBatchConfirmsItself(env: Env, b: Batch, k: nat)
    ensures var h, n := env.digest(b.header), Repeated(env, b, k);
            && (h in n.processed <==> k >= Quorum(env))
            && (h !in n.processed ==> |VotesFor(n, h)| == k)
  {
    if k == 0 {
    } else {
      RepeatedBatchConfirmsItself(env, b, k - 1);
      OnceMore(env, Repeated(env, b, k - 1), b);
    }
  }

  // ---- between a tick's two sections ---------------------------------------------

  lemma {:induction false} CertificateAlone(env: Env, n: Node, c: Certificate)
    requires Accepted(env, c) && c.view > n.highest.view
    ensures Alone(env, n, Certified(c)).highest == c
  {
    hide Alone, Accepted;
    AloneStep(env, n, Certified(c));
    AloneStep(env, n.(highest := c), Requesting(c));
    AloneStep(env, n.(highest := c), Finished);
    AloneStep(env, n.(highest := c, requests := n.requests[c.hash := c.view]), Finished);
  }

  /**
   A certificate accepted between the read and the write of a tick leaves the round not
   past it: the first tick of a node reads view 0 and writes round 1, and by then the
   highest view can be any.
   */
  lemma {:induction false} CertificateOvertakesTick(env: Env, c: Certificate, committee: u64)
    returns (read: seq<Label>, write: seq<Label>)
    requires Accepted(env, c) && c.view >= 1
    ensures Legal(env, read) && Legal(env, write) && read <= write
    ensures var w, w' := After(env, read), After(env, write);
            Tick(Clock(0, 0), w.node.highest.view, false, committee).round <= w'.node.highest.view == c.view
  {
    hide Alone, Accepted;
    read := [];
    write := HandledOnArrival(env, read, CertificateMsg(c));
    ArrivesAlone(env, INITIAL, CertificateMsg(c));
    CertificateAlone(env, Remember(INITIAL, CertificateMsg(c)), c);
  }

  // ---- two batches with one hash -------------------------------------------------

  /** A proposal whose own vote completes the quorum is confirmed. */
  lemma {:induction false} ProposalConfirms(env: Env, n: Node, b: Batch)
    requires var h := env.digest(b.header);
             && VerifyBatch(env, b.header) && h !in n.pending && h !in n.processed
             && |VotesFor(n, h)| + 1 >= Quorum(env)
    ensures var n', h := Alone(env, n, Proposed(b)), env.digest(b.header);
            && n'.confirmed == LastConfirmed(n.confirmed + [b]) && n'.processed == n.processed + {h}
            && n'.pending == n.pending - n.processed - {h}
  {
    hide Alone, VerifyBatch, Quorum, LastConfirmed, Form;
    var h := env.digest(b.header);
    var n1 := n.(pending := n.pending[h := b]);
    var n2 := Push(n1, OwnVote(env, b.round, h));
    AloneStep(env, n, Proposed(b));
    AloneStep(env, n1, Accepting(h, b.round));
    AloneStep(env, n2, Casting(h));
    CountsAlone(env, n2, h);
    var done := PruneStale(Confirm(n2, h));
    AloneStep(env, done, Clearing);
    AloneStep(env, done, Sweeping(done.processed));
    AloneStep(env, done.(pending := done.pending - done.processed), Finished);
    assert n.pending[h := b] - (n.processed + {h}) == n.pending - n.processed - {h};
  }

  /** A proposal with a processed hash changes nothing that is confirmed. */
  lemma {:induction false} ProcessedHashConfirmsNothing(env: Env, n: Node, b: Batch)
    requires env.digest(b.header) in n.processed
    ensures Alone(env, n, Proposed(b)).confirmed == n.confirmed
  {
    hide Alone, VerifyBatch, Quorum, LastConfirmed, Form;
    var h := env.digest(b.header);
    var n1 := n.(pending := n.pending[h := b]);
    AloneStep(env, n, Proposed(b));
    AloneStep(env, n, Finished);
    AloneStep(env, n1, Accepting(h, b.round));
    AloneStep(env, Push(n1, OwnVote(env, b.round, h)), Casting(h));
    CountsAlone(env, Push(n1, OwnVote(env, b.round, h)), h);
  }

  /** The others' votes, then two proposals with one header. */
  lemma {:induction false} OneThenOther(env: Env, a: Batch, b: Batch, vs: seq<Vote>) returns (run: seq<Label>)
    requires a.header == b.header && a != b && VerifyBatch(env, a.header)
    requires Ballot(env, env.digest(a.header), vs) && |vs| + 1 >= Quorum(env)
    ensures Legal(env, run)
    ensures var w := After(env, run);
            && Quiescent(w) && NoAborts(w.seen) && w.node.confirmed == [a]
            && w.seen.delivered == VoteMessages(vs) + {ProposalMsg(a), ProposalMsg(b)} && w.seen.made == {}
  {
    hide Legal, After, Quiescent, NoAborts, Verified, VerifyBatch, Alone, Quorum;
    var start := CollectVotes(env, env.digest(a.header), vs);
    var n := After(env, start).node;
    DeliveredRun(env, start);
    var first := HandledOnArrival(env, start, ProposalMsg(a));
    ArrivesAlone(env, n, ProposalMsg(a));
    ProposalConfirms(env, Remember(n, ProposalMsg(a)), a);
    var n1 := After(env, first).node;
    DeliveredRun(env, first);
    run := HandledOnArrival(env, first, ProposalMsg(b));
    ArrivesAlone(env, n1, ProposalMsg(b));
    ProcessedHashConfirmsNothing(env, Remember(n1, ProposalMsg(b)), b);
  }

  /**
   The hash covers the header only.  Two batches with one header and different rounds
   or payloads are confirmed by whichever arrives first: the same messages, finished
   without an abort, leave one run with the one batch and another with the other.
   */
  lemma {:induction false} ArrivalPicksBatch(env: Env, a: Batch, b: Batch, vs: seq<Vote>)
    returns (run: seq<Label>, other: seq<Label>)
    requires a.header == b.header && a != b && VerifyBatch(env, a.header)
    requires Ballot(env, env.digest(a.header), vs) && |vs| + 1 >= Quorum(env)
    ensures Legal(env, run) && Legal(env, other)
    ensures var w, v := After(env, run), After(env, other);
            && Quiescent(w) && Quiescent(v) && NoAborts(w.seen) && NoAborts(v.seen)
            && w.seen.delivered == v.seen.delivered && w.seen.made == v.seen.made
            && w.node.processed == v.node.processed
            && w.node.confirmed == [a] && v.node.confirmed == [b]
  {
    hide Legal, After, Quiescent, Verified, VerifyBatch, Quorum;
    run := OneThenOther(env, a, b, vs);
    other := OneThenOther(env, b, a, vs);
    DeliveryOrderIndependence(env, run, other);
  }

  // ---- more than 256 retained batches ------------------------------------------

  ghost predicate DistinctHashes(env: Env, bs: seq<Batch>) {
    forall i, j :: 0 <= i < j < |bs| ==> env.digest(bs[i].header) != env.digest(bs[j].header)
  }

  ghost function HashesOf(env: Env, bs: seq<Batch>): set<Hash> {
    set i | 0 <= i < |bs| :: env.digest(bs[i].header)
  }

  function BatchesIn(bs: seq<Batch>): set<Batch> {
    set i | 0 <= i < |bs| :: bs[i]
  }

  lemma {:induction false} HashesSnoc(env: Env, bs: seq<Batch>)
    requires bs != [] && DistinctHashes(env, bs)
    ensures var n := |bs| - 1;
            && HashesOf(env, bs) == HashesOf(env, bs[..n]) + {env.digest(bs[n].header)}
            && env.digest(bs[n].header) !in HashesOf(env, bs[..n])
            && BatchesIn(bs) == BatchesIn(bs[..n]) + {bs[n]}
            && !Made(env, BatchesIn(bs[..n]), env.digest(bs[n].header))
  {
  }

  /** All given batches proposed and confirmed here, one after the other. */
  lemma {:induction false} ConfirmInTurn(env: Env, bs: seq<Batch>) returns (run: seq<Label>)
    requires |env.book| <= 1 && DistinctHashes(env, bs)
    ensures Legal(env, run)
    ensures var w := After(env, run);
            && |w.threads| == |bs| && |w.seen.confirmations| == |bs| && w.seen.unpruned == 0
            && w.seen.delivered == {} && w.node.votes == map[]
            && w.seen.made == BatchesIn(bs) && w.node.processed == HashesOf(env, bs)
  {
    if bs == [] {
      run := [];
    } else {
      hide Legal, After, Ready, HashesOf, BatchesIn, OwnVote;
      var n := |bs| - 1;
      HashesSnoc(env, bs);
      var before := ConfirmInTurn(env, bs[..n]);
      run := ProposeAlone(env, before, bs[n]);
      ConfirmOne(env, run, n);
      run := run + [Step(n)];
    }
  }

  /** One abort during the broadcast of the 257th certificate leaves 257 batches retained. */
  lemma {:induction false} WindowOverflows(env: Env, bs: seq<Batch>) returns (run: seq<Label>)
    requires |env.book| <= 1 && DistinctHashes(env, bs) && |bs| == MAX_CONFIRMED_BATCHES + 1
    ensures Legal(env, run)
    ensures |After(env, run).node.confirmed| == MAX_CONFIRMED_BATCHES + 1
  {
    var n := MAX_CONFIRMED_BATCHES;
    HashesSnoc(env, bs);
    var before := ConfirmInTurn(env, bs[..n]);
    run := ProposeAlone(env, before, bs[n]);
    AfterSnoc(env, run, AbortSend(n));
    run := run + [AbortSend(n)];
    SlidingWindow(env, run);
  }
}

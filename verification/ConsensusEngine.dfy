/**
 The consensus engine object.  Each handler, run by itself, does to the shared state
 exactly what its chain of sections does, so the object's state is always one that a
 legal run of the node reaches, and every result about runs is one about the object.
 */
module ConsensusEngine {
  import opened Bytes
  import opened ConsensusTypes
  import opened Certificates
  import opened NodeSteps
  import opened Confirmations
  import opened Delivery
  import opened Memory
  import opened Outcomes
  import opened Pacemaker
  import opened WitnessRuns

  /** The votes recorded for h in this state. */
  function Recorded(votes: map<Hash, seq<Vote>>, h: Hash): seq<Vote> {
    if h in votes then votes[h] else []
  }

  /**
   What counting the votes for h does to a state.  Nothing, if h is processed or not
   pending, or has votes of two thirds of the address book or fewer.  Otherwise h is
   processed, its batch joins the confirmed ones, of which the last 256 stay, its
   certificate becomes the highest if its view is higher, and votes and pending entries
   of processed hashes go.
   */
  ghost predicate Counted(env: Env, n: Node, n': Node, h: Hash) {
    if h in n.processed || h !in n.pending || 3 * |Recorded(n.votes, h)| <= 2 * |env.book| then n' == n
    else
      var b, all := n.pending[h], n.confirmed + [n.pending[h]];
      && n'.processed == n.processed + {h}
      && n'.confirmed == all[|all| - Min(256, |all|)..]
      && (if b.round > n.highest.view then CertificateFor(n'.highest, Confirmation(h, b, Recorded(n.votes, h)))
          else n'.highest == n.highest)
      && n'.votes == (map k | k in n.votes && k !in n'.processed :: n.votes[k])
      && n'.pending == (map k | k in n.pending && k !in n'.processed :: n.pending[k])
      && n'.requests == n.requests && n'.cache == n.cache
  }

  lemma {:induction false} ClearedAlone(env: Env, n: Node)
    ensures Alone(env, n, Clearing) == n.(pending := n.pending - n.processed)
  {
    hide Alone;
    AloneStep(env, n, Clearing);
    AloneStep(env, n, Sweeping(n.processed));
    AloneStep(env, n.(pending := n.pending - n.processed), Finished);
  }

  lemma {:induction false} CountedAlone(env: Env, n: Node, h: Hash)
    ensures Counted(env, n, Alone(env, n, Counting(h)), h)
  {
    hide Alone, Quorum;
    CountsAlone(env, n, h);
    QuorumIsTwoThirds(env, |VotesFor(n, h)|);
    if Ready(env, n, h) {
      ClearedAlone(env, PruneStale(Confirm(n, h)));
    }
  }

  /**
   The clock after a tick.  A certified round is followed by the one after its
   certificate's view, at step 0.  A timeout moves to the next step, or after the last
   proposer to the next round, at step 0.  Otherwise nothing moves.
   */
  ghost predicate NextClock(c: Clock, highest: u64, timedOut: bool, committee: u64, round: u64, step: u64) {
    && (highest >= c.round ==> round == (highest + 1) % U64_LIMIT && step == 0)
    && (highest < c.round && !timedOut ==> round == c.round && step == c.step)
    && (highest < c.round && timedOut && c.step + 1 < committee ==> round == c.round && step == c.step + 1)
    && (highest < c.round && timedOut && committee <= c.step + 1 < U64_LIMIT ==>
          round == (c.round + 1) % U64_LIMIT && step == 0)
  }

  class Engine {
    const env: Env
    const committee: u64
    var pending: map<Hash, Batch>
    var votes: map<Hash, seq<Vote>>
    var processed: set<Hash>
    var confirmed: seq<Batch>
    var highest: Certificate
    var requests: map<Hash, u64>
    var cache: seq<Message>
    var round: u64
    var step: u64

    /** The run of the node that led here. */
    ghost var run: seq<Label>

    ghost function State(): Node
      reads this
    {
      Node(pending, votes, processed, confirmed, highest, requests, cache)
    }

    /** Messages and own batches have been handled one after the other, each to its end. */
    ghost predicate Valid()
      reads this
    {
      && Legal(env, run) && State() == After(env, run).node
      && Quiescent(After(env, run)) && NoAborts(After(env, run).seen)
    }

    ghost function Seen(): Observed
      requires Valid()
      reads this
    {
      After(env, run).seen
    }

    constructor (e: Env, size: u64)
      ensures env == e && committee == size
      ensures Valid() && Seen() == START.seen
      ensures State() == INITIAL && round == 0 && step == 0
      ensures pending == map[] && votes == map[] && processed == {} && confirmed == []
      ensures requests == map[] && cache == [] && highest.view == 0
    {
      env, committee := e, size;
      pending, votes, processed, confirmed, highest := map[], map[], {}, [], GENESIS;
      requests, cache, round, step, run := map[], [], 0, 0, [];
    }

    /** Drop votes of processed batches and all but the most recent confirmed ones. */
    method PruneStaleData()
      modifies this`votes, this`confirmed
      ensures State() == PruneStale(old(State()))
      ensures votes == map h | h in old(votes) && h !in processed :: old(votes)[h]
      ensures confirmed == old(confirmed)[|old(confirmed)| - Min(256, |old(confirmed)|)..]
    {
      votes := map h | h in votes && h !in processed :: votes[h];
      if |confirmed| > MAX_CONFIRMED_BATCHES {
        var drainCount := |confirmed| - MAX_CONFIRMED_BATCHES;
        confirmed := confirmed[drainCount..];
      }
      assert votes == old(votes) - processed;
    }

    /** Drop pending proposals that are already confirmed. */
    method PruneConfirmedProposals()
      modifies this`pending
      ensures State() == Alone(env, old(State()), Clearing)
      ensures pending == map h | h in old(pending) && h !in processed :: old(pending)[h]
    {
      hide Alone;
      AloneStep(env, State(), Clearing);
      AloneStep(env, State(), Sweeping(processed));
      var confirmedHashes := processed;
      pending := map h | h in pending && h !in confirmedHashes :: pending[h];
      assert pending == old(pending) - processed;
      AloneStep(env, State(), Finished);
    }

    method ProcessVotesForBatch(h: Hash)
      modifies this
      ensures State() == Alone(env, old(State()), Counting(h))
      ensures Counted(env, old(State()), State(), h)
      ensures unchanged(`round, `step, `run)
    {
      hide Alone, PruneStale, Counted;
      CountsAlone(env, State(), h);
      CountedAlone(env, State(), h);
      var total := |env.book|;
      var requiredQuorum := if total == 0 then 1 else total * 2 / 3 + 1;
      if h in processed {
        return;
      }
      if h in votes {
        var voteCount := |votes[h]|;
        if voteCount >= requiredQuorum && h in pending {
          var batch := pending[h];
          var qc := Form(h, batch.round, votes[h]);
          processed := processed + {h};
          confirmed := confirmed + [batch];
          if qc.view > highest.view {
            highest := qc;
          }
          assert State() == Confirm(old(State()), h);
          PruneStaleData();
          PruneConfirmedProposals();
        }
      }
    }

    method HandleVelocityVote(vote: Vote)
      modifies this
      ensures State() == Alone(env, old(State()), Received(vote))
      ensures vote.hash in old(processed) || !Verified(env, vote) ==> State() == old(State())
      ensures vote.hash !in old(processed) && Verified(env, vote) ==>
                var recorded := Recorded(old(votes), vote.hash);
                var again := exists i :: 0 <= i < |recorded| && recorded[i].voter == vote.voter;
                Counted(env, if again then old(State()) else old(State()).(votes := old(votes)[vote.hash := recorded + [vote]]),
                        State(), vote.hash)
      ensures unchanged(`round, `step, `run)
    {
      hide Alone, Verified, Counted;
      AloneStep(env, State(), Received(vote));
      AloneStep(env, State(), Recording(vote));
      AloneStep(env, State(), Finished);
      if vote.hash in processed {
        return;
      }
      if !Verified(env, vote) {
        return;
      }
      var recorded := if vote.hash in votes then votes[vote.hash] else [];
      if !(exists i :: 0 <= i < |recorded| && recorded[i].voter == vote.voter) {
        votes := votes[vote.hash := recorded + [vote]];
      }
      assert State() == RecordVote(old(State()), vote);
      ProcessVotesForBatch(vote.hash);
    }

    /** Pushed without looking for an earlier vote. */
    method CastOwnVote(h: Hash, r: u64)
      modifies this`votes
      ensures State() == Push(old(State()), OwnVote(env, r, h))
    {
      var recorded := if h in votes then votes[h] else [];
      votes := votes[h := recorded + [OwnVote(env, r, h)]];
    }

    method HandleBatchProposal(batch: Batch)
      modifies this
      ensures State() == Alone(env, old(State()), Proposed(batch))
      ensures var h := env.digest(batch.header);
              if !VerifyBatch(env, batch.header) || h in old(pending) then State() == old(State())
              else
                var own := OwnVote(env, batch.round, h);
                Counted(env, old(State()).(pending := old(pending)[h := batch],
                                           votes := old(votes)[h := Recorded(old(votes), h) + [own]]),
                        State(), h)
      ensures unchanged(`round, `step, `run)
    {
      hide Alone, VerifyBatch, Counted;
      AloneStep(env, State(), Proposed(batch));
      AloneStep(env, State(), Finished);
      var h := env.digest(batch.header);
      if !VerifyBatch(env, batch.header) {
        return;
      }
      if h in pending {
        return;
      }
      pending := pending[h := batch];
      AloneStep(env, State(), Accepting(h, batch.round));
      CastOwnVote(h, batch.round);
      AloneStep(env, State(), Casting(h));
      ProcessVotesForBatch(h);
    }

    /** The state updates of the proposer flow, for the batch it built. */
    method RunProposerFlow(batch: Batch)
      requires Valid() && Enabled(env, After(env, run), Propose(batch))
      modifies this
      ensures Valid()
      ensures State() == ProposerFlow(env, old(State()), batch)
      ensures var h := env.digest(batch.header);
              var own := OwnVote(env, batch.round, h);
              Counted(env, old(State()).(pending := old(pending)[h := batch],
                                         votes := old(votes)[h := Recorded(old(votes), h) + [own]]),
                      State(), h)
      ensures Seen().delivered == old(Seen().delivered)
      ensures Seen().made == old(Seen().made) + {batch}
      ensures old(run) <= run && unchanged(`round, `step)
    {
      hide Alone, Legal, After, Enabled, Quiescent, NoAborts, Counted;
      var h := env.digest(batch.header);
      ghost var run' := ProposedOnItsOwn(env, run, batch);
      pending := pending[h := batch];
      AloneStep(env, State(), Endorsing(h, batch.round));
      CastOwnVote(h, batch.round);
      ProcessVotesForBatch(h);
      run := run';
    }

    method HandleNewQuorumCertificate(qc: Certificate)
      modifies this
      ensures State() == Alone(env, old(State()), Certified(qc))
      ensures State() ==
              if 3 * |Signers(env, qc)| <= 2 * |env.book| || qc.view <= old(highest).view then old(State())
              else
                old(State()).(highest := qc,
                              requests := if qc.hash in old(pending) then old(requests) else old(requests)[qc.hash := qc.view])
      ensures unchanged(`round, `step, `run)
    {
      hide Alone, Accepted;
      AloneStep(env, State(), Certified(qc));
      AloneStep(env, State(), Finished);
      var fullyValid := VerifyCertificate(env, qc);
      if !fullyValid {
        return;
      }
      if qc.view <= highest.view {
        return;
      }
      highest := qc;
      AloneStep(env, State(), Finished);
      if qc.hash !in pending {
        AloneStep(env, State(), Requesting(qc));
        requests := requests[qc.hash := qc.view];
        AloneStep(env, State(), Finished);
      }
    }

    method DispatchMessage(msg: Message)
      modifies this
      ensures State() == Alone(env, old(State()), Dispatch(msg)) && cache == old(cache)
      ensures unchanged(`round, `step, `run)
    {
      hide Alone;
      match msg {
        case ProposalMsg(batch) => HandleBatchProposal(batch);
        case VoteMsg(vote) => HandleVelocityVote(vote);
        case CertificateMsg(qc) => HandleNewQuorumCertificate(qc);
      }
    }

    method HandleConsensusMessage(msg: Message)
      requires Valid() && Enabled(env, After(env, run), Deliver(msg))
      modifies this
      ensures Valid()
      ensures State() == Alone(env, old(State()), Arrived(msg))
      ensures msg in old(cache) ==> State() == old(State())
      ensures msg !in old(cache) ==>
                && |cache| == Min(1000, |old(cache)| + 1) && cache[0] == msg
                && forall i :: 1 <= i < |cache| ==> cache[i] == old(cache)[i - 1]
      ensures Seen().delivered == old(Seen().delivered) + {msg} && Seen().made == old(Seen().made)
      ensures old(run) <= run && unchanged(`round, `step)
    {
      hide Alone, Legal, After, Enabled, Quiescent, NoAborts, Dispatch;
      ArrivesAlone(env, State(), msg);
      ghost var run' := HandledOnArrival(env, run, msg);
      if msg in cache {
        run := run';
        return;
      }
      cache := [msg] + (if |cache| < CACHE_CAPACITY then cache else cache[..CACHE_CAPACITY - 1]);
      assert State() == Remember(old(State()), msg);
      DispatchMessage(msg);
      run := run';
    }

    /** The driver's first section: leave a certified round, or move past a proposer that timed out. */
    method DriverRead(timedOut: bool) returns (started: bool, nextRound: u64, nextStep: u64)
      ensures Clock(nextRound, nextStep) == Tick(Clock(round, step), highest.view, timedOut, committee)
      ensures started <==> Advances(Clock(round, step), highest.view, timedOut)
      ensures NextClock(Clock(round, step), highest.view, timedOut, committee, nextRound, nextStep)
      ensures Valid() && !(started && WrapsRound(Clock(round, step), highest.view, committee)) ==>
                nextRound > highest.view && RoundsBelow(Seen(), nextRound)
    {
      if Valid() {
        TickPassesCertificates(env, run, run, Clock(round, step), timedOut, committee);
      }
      started, nextRound, nextStep := false, round, step;
      if highest.view >= round {
        nextRound, nextStep := Inc(highest.view), 0;
        started := true;
      } else if timedOut {
        nextStep := Inc(step);
        started := true;
        if nextStep >= committee {
          nextRound, nextStep := Inc(round), 0;
        }
      }
    }

    /** Its second section.  Messages may have been handled since the first. */
    method DriverWrite(started: bool, nextRound: u64, nextStep: u64)
      modifies this`round, this`step
      ensures Clock(round, step) == if started then Clock(nextRound, nextStep) else Clock(old(round), old(step))
      ensures old(Valid()) ==> Valid() && Seen() == old(Seen())
    {
      if started {
        round, step := nextRound, nextStep;
      }
    }

    /** Both sections with nothing in between. */
    method DriverTick(timedOut: bool) returns (started: bool)
      modifies this`round, this`step
      ensures Clock(round, step) == Tick(Clock(old(round), old(step)), highest.view, timedOut, committee)
      ensures started <==> Advances(Clock(old(round), old(step)), highest.view, timedOut)
      ensures NextClock(Clock(old(round), old(step)), highest.view, timedOut, committee, round, step)
      ensures old(Valid()) ==> Valid() && Seen() == old(Seen())
      ensures Valid() && !(started && WrapsRound(Clock(old(round), old(step)), highest.view, committee)) ==>
                round > highest.view && RoundsBelow(Seen(), round)
    {
      var nextRound, nextStep;
      started, nextRound, nextStep := DriverRead(timedOut);
      DriverWrite(started, nextRound, nextStep);
    }
  }

  /**
   After the driver's write, with any messages and own batches handled since its read:
   the round is past all that was confirmed or accepted at the read, unless it wrapped,
   and past all that is by now exactly when it is past the highest view by now.
   */
  lemma {:induction false} RoundAfterWrite(e: Engine, read: seq<Label>, c: Clock, timedOut: bool)
    requires e.Valid() && Legal(e.env, read) && read <= e.run
    requires Clock(e.round, e.step) == Tick(c, After(e.env, read).node.highest.view, timedOut, e.committee)
    requires var highest := After(e.env, read).node.highest.view;
             !(Advances(c, highest, timedOut) && WrapsRound(c, highest, e.committee))
    ensures RoundsBelow(After(e.env, read).seen, e.round)
    ensures RoundsBelow(e.Seen(), e.round) <==> e.round > e.highest.view
  {
    hide Legal, After, Quiescent, RoundsBelow;
    TickPassesCertificates(e.env, read, e.run, c, timedOut, e.committee);
  }

  /** A batch the engine has processed is one that what it was given settles, and the other way round. */
  lemma {:induction false} ProcessedExactly(e: Engine, h: Hash)
    requires e.Valid()
    ensures h in e.processed <==> Decided(e.env, e.Seen(), h)
  {
    QuiescentOutcome(e.env, e.run, h);
  }

  /**
   The engine's confirmed list is the last min(256, k) of its k confirmations, in order;
   each was backed by a quorum of distinct, sound voters, and no hash occurs twice.
   */
  lemma {:induction false} ConfirmedExactly(e: Engine)
    requires e.Valid()
    ensures |e.confirmed| == Min(256, |e.Seen().confirmations|)
    ensures forall i :: 0 <= i < |e.confirmed| ==> Backed(e.env, e.State(), e.Seen(), i)
    ensures forall i, j :: 0 <= j < i < |e.confirmed| ==>
              e.env.digest(e.confirmed[j].header) != e.env.digest(e.confirmed[i].header)
  {
    SlidingWindow(e.env, e.run);
    hide Legal, After, Quiescent, WindowOk, Backed;
    forall i | 0 <= i < |e.confirmed|
      ensures Backed(e.env, e.State(), e.Seen(), i)
    {
      RetainedProcessed(e.env, e.run, i);
    }
    forall i, j | 0 <= j < i < |e.confirmed|
      ensures e.env.digest(e.confirmed[j].header) != e.env.digest(e.confirmed[i].header)
    {
      RetainedDistinct(e.env, e.run, j, i);
    }
  }

  /**
   Two engines of one node given the same messages and own batches, in whatever order,
   process the same hashes and reach the same highest view, and confirm the same
   batches, if no two of these share a hash.
   */
  lemma {:induction false} OrderDoesNotMatter(e: Engine, f: Engine)
    requires e.Valid() && f.Valid() && e.env == f.env
    requires e.Seen().delivered == f.Seen().delivered && e.Seen().made == f.Seen().made
    ensures e.processed == f.processed
    ensures Unambiguous(e.env, e.Seen()) ==>
              && ConfirmedBatches(e.Seen()) == ConfirmedBatches(f.Seen())
              && e.highest.view == f.highest.view
              && (|e.Seen().confirmations| <= MAX_CONFIRMED_BATCHES ==>
                    forall b :: b in e.confirmed <==> b in f.confirmed)
  {
    hide Legal, After, Quiescent, Unambiguous, ConfirmedBatches;
    DeliveryOrderIndependence(e.env, e.run, f.run);
    if Unambiguous(e.env, e.Seen()) {
      OutcomeOrderIndependence(e.env, e.run, f.run);
    }
  }
}

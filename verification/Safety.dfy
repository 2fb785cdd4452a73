/** Quorum safety in every interleaving. */
module Safety {
  import opened ConsensusTypes
  import opened Certificates
  import opened NodeSteps

  // ---- what is true of one hash ------------------------------------------------

  predicate Mine(env: Env, n: Node, h: Hash) {
    env.me in VotersOf(VotesFor(n, h))
  }

  /** A valid proposal with this hash was delivered, or one was made here. */
  ghost predicate Known(env: Env, o: Observed, h: Hash) {
    Made(env, o.made, h) || Offered(env, o.delivered, h)
  }

  /** This very batch was delivered in a valid proposal, or made here. */
  ghost predicate Sourced(env: Env, o: Observed, b: Batch) {
    b in o.made || (ProposalMsg(b) in o.delivered && VerifyBatch(env, b.header))
  }

  /** A recorded vote was verified on delivery, or cast by this node. */
  ghost predicate Sound(env: Env, o: Observed, h: Hash, v: Vote) {
    v.hash == h && ((Verified(env, v) && VoteMsg(v) in o.delivered) || v == OwnVote(env, v.round, h))
  }

  ghost predicate SoundVotes(env: Env, o: Observed, h: Hash, votes: seq<Vote>) {
    && DistinctVoters(votes)
    && forall k :: 0 <= k < |votes| ==> Sound(env, o, h, votes[k])
  }

  /** Votes of this node name the round of the batch they are for. */
  ghost predicate OwnRound(env: Env, votes: seq<Vote>, b: Batch, h: Hash) {
    forall k :: 0 <= k < |votes| && votes[k].voter == env.me ==> votes[k] == OwnVote(env, b.round, h)
  }

  ghost predicate ThreadFits(env: Env, n: Node, t: Task, h: Hash) {
    && (Owes(t, h) ==> !Mine(env, n, h) && h in n.pending && t.round == n.pending[h].round)
    && (t == Casting(h) ==> Mine(env, n, h))
  }

  /** At most one own vote, recorded or still owed, and only for a pending batch. */
  ghost predicate OwnVoteOnce(env: Env, w: World, h: Hash) {
    && (Mine(env, w.node, h) ==>
          h in w.node.pending && OwnRound(env, VotesFor(w.node, h), w.node.pending[h], h))
    && (h in w.node.pending ==> Known(env, w.seen, h))
    && (h in w.seen.released ==> Mine(env, w.node, h))
    && (forall i :: 0 <= i < |w.threads| ==> ThreadFits(env, w.node, w.threads[i].task, h))
    && (forall i, j :: 0 <= i < j < |w.threads| ==> !(Owes(w.threads[i].task, h) && Owes(w.threads[j].task, h)))
  }

  ghost predicate HashOk(env: Env, w: World, h: Hash) {
    h in w.node.processed || (SoundVotes(env, w.seen, h, VotesFor(w.node, h)) && OwnVoteOnce(env, w, h))
  }

  // ---- what is true of one task ------------------------------------------------

  ghost predicate MessageOk(env: Env, o: Observed, m: Message) {
    && m in o.delivered
    && (m.VoteMsg? && m.vote.voter == env.me && Verified(env, m.vote) ==> m.vote.hash in o.released)
  }

  ghost predicate TaskOk(env: Env, w: World, t: Task) {
    match t
    case Arrived(m) => MessageOk(env, w.seen, m)
    case Unseen(m) => MessageOk(env, w.seen, m)
    case Proposed(b) => MessageOk(env, w.seen, ProposalMsg(b))
    case Received(v) => MessageOk(env, w.seen, VoteMsg(v))
    case Recording(v) => MessageOk(env, w.seen, VoteMsg(v))
    case Certified(c) => MessageOk(env, w.seen, CertificateMsg(c))
    case Requesting(c) => MessageOk(env, w.seen, CertificateMsg(c)) && Accepted(env, c)
    case Sweeping(done) => done <= w.node.processed
    case _ => true
  }

  // ---- what is true of the confirmations ---------------------------------------

  /** A known batch, confirmed with a quorum of distinct voters, each verified or this node itself. */
  ghost predicate Quorate(env: Env, o: Observed, c: Confirmation) {
    && |c.votes| >= Quorum(env)
    && SoundVotes(env, o, c.hash, c.votes)
    && OwnRound(env, c.votes, c.batch, c.hash)
    && env.digest(c.batch.header) == c.hash
    && Sourced(env, o, c.batch)
  }

  ghost predicate ConfirmedOk(env: Env, w: World) {
    var cs := w.seen.confirmations;
    && (forall k :: 0 <= k < |cs| ==> Quorate(env, w.seen, cs[k]))
    && (forall j, k :: 0 <= j < k < |cs| ==> cs[j].hash != cs[k].hash)
    && (forall k :: 0 <= k < |cs| ==> cs[k].hash in w.node.processed)
    && (forall h :: h in w.node.processed ==> exists k :: 0 <= k < |cs| && cs[k].hash == h)
  }

  ghost predicate PendingOk(env: Env, w: World) {
    forall h :: h in w.node.pending ==>
      env.digest(w.node.pending[h].header) == h && Sourced(env, w.seen, w.node.pending[h])
  }

  ghost predicate AllHashesOk(env: Env, w: World) {
    forall h :: HashOk(env, w, h)
  }

  ghost predicate AllTasksOk(env: Env, w: World) {
    forall i :: 0 <= i < |w.threads| ==> TaskOk(env, w, w.threads[i].task)
  }

  ghost predicate Safe(env: Env, w: World) {
    AllHashesOk(env, w) && AllTasksOk(env, w) && PendingOk(env, w) && ConfirmedOk(env, w)
  }

  // ---- observations only grow --------------------------------------------------

  ghost predicate Grown(o: Observed, o': Observed) {
    o.delivered <= o'.delivered && o.made <= o'.made && o.released <= o'.released
  }

  lemma {:induction false} KnownGrows(env: Env, o: Observed, o': Observed, h: Hash)
    requires Grown(o, o') && Known(env, o, h)
    ensures Known(env, o', h)
  {
  }

  lemma {:induction false} TakeGrows(env: Env, w: World, l: Label)
    requires Enabled(env, w, l)
    ensures Grown(w.seen, Take(env, w, l).seen)
    ensures w.node.processed <= Take(env, w, l).node.processed
  {
  }

  // ---- steps that leave a hash alone -------------------------------------------

  /** No task newly owes or casts a vote for h. */
  ghost predicate NoNewDuty(w: World, w': World, h: Hash) {
    forall j :: 0 <= j < |w'.threads| ==>
      (Owes(w'.threads[j].task, h) || w'.threads[j].task == Casting(h) ==>
         j < |w.threads| && w'.threads[j].task == w.threads[j].task)
  }

  lemma {:induction false} HashUndisturbed(env: Env, w: World, w': World, h: Hash)
    requires HashOk(env, w, h) && Grown(w.seen, w'.seen)
    requires h in w'.node.processed <==> h in w.node.processed
    requires h !in w.node.processed ==> VotesFor(w'.node, h) == VotesFor(w.node, h)
    requires h !in w.node.processed ==> (h in w'.node.pending <==> h in w.node.pending)
    requires h !in w.node.processed && h in w.node.pending ==> w'.node.pending[h] == w.node.pending[h]
    requires h in w'.seen.released ==> h in w.seen.released || Mine(env, w.node, h)
    requires NoNewDuty(w, w', h)
    ensures HashOk(env, w', h)
  {
  }

  // ---- a batch enters the pending map ------------------------------------------

  /** A batch not pending becomes pending, together with a task that owes the vote for it. */
  lemma {:induction false} HashInserted(env: Env, w: World, w': World, h: Hash, i: nat)
    requires HashOk(env, w, h) && Grown(w.seen, w'.seen)
    requires h !in w.node.pending && h in w'.node.pending && Known(env, w'.seen, h)
    requires w'.node.processed == w.node.processed
    requires VotesFor(w'.node, h) == VotesFor(w.node, h) && w'.seen.released == w.seen.released
    requires i < |w'.threads| && |w.threads| <= |w'.threads| && (|w'.threads| <= |w.threads| || i == |w.threads| == |w'.threads| - 1)
    requires forall j :: 0 <= j < |w'.threads| && j != i ==> w'.threads[j] == w.threads[j]
    requires w'.threads[i].task != Casting(h)
    requires Owes(w'.threads[i].task, h) ==> w'.threads[i].task.round == w'.node.pending[h].round
    ensures HashOk(env, w', h)
  {
  }

  // ---- a vote is pushed --------------------------------------------------------

  lemma {:induction false} PushedVotes(n: Node, v: Vote, a: Address)
    ensures VotesFor(Push(n, v), v.hash) == VotesFor(n, v.hash) + [v]
    ensures a in VotersOf(VotesFor(Push(n, v), v.hash)) <==> a in VotersOf(VotesFor(n, v.hash)) || a == v.voter
  {
    var before, after := VotesFor(n, v.hash), VotesFor(Push(n, v), v.hash);
    if a == v.voter {
      assert after[|before|].voter == a;
    } else if a in VotersOf(before) {
      var i :| 0 <= i < |before| && before[i].voter == a;
      assert after[i].voter == a;
    }
  }

  lemma {:induction false} SoundPush(env: Env, o: Observed, h: Hash, votes: seq<Vote>, v: Vote)
    requires SoundVotes(env, o, h, votes) && Sound(env, o, h, v)
    requires v.voter !in VotersOf(votes)
    ensures SoundVotes(env, o, h, votes + [v])
  {
  }

  lemma {:induction false} NotAmong(votes: seq<Vote>, a: Address)
    requires a !in VotersOf(votes)
    ensures forall k :: 0 <= k < |votes| ==> votes[k].voter != a
  {
    forall k | 0 <= k < |votes| ensures votes[k].voter != a {
      assert votes[k].voter in VotersOf(votes);
    }
  }

  /** The unchecked push of this node's own vote: it was owed, so it is the first. */
  lemma {:induction false} HashEndorsed(env: Env, w: World, w': World, i: nat, h: Hash)
    requires HashOk(env, w, h)
    requires i < |w.threads| && Owes(w.threads[i].task, h)
    requires w'.node == Push(w.node, OwnVote(env, w.threads[i].task.round, h)) && w'.seen == w.seen
    requires |w'.threads| == |w.threads| && w'.threads == w.threads[i := w'.threads[i]]
    requires !Owes(w'.threads[i].task, h)
    ensures HashOk(env, w', h)
  {
    if h !in w.node.processed {
      assert ThreadFits(env, w.node, w.threads[i].task, h);
      var v := OwnVote(env, w.threads[i].task.round, h);
      PushedVotes(w.node, v, env.me);
      SoundPush(env, w.seen, h, VotesFor(w.node, h), v);
      NotAmong(VotesFor(w.node, h), env.me);
      forall j | 0 <= j < |w'.threads| ensures !Owes(w'.threads[j].task, h) {
        assert j != i ==> !Owes(w.threads[j].task, h);
      }
    }
  }

  /** A delivered vote: this node's own is already there, anybody else's is new or dropped. */
  lemma {:induction false} HashRecorded(env: Env, w: World, w': World, i: nat, v: Vote)
    requires HashOk(env, w, v.hash)
    requires i < |w.threads| && w.threads[i].task == Recording(v) && TaskOk(env, w, w.threads[i].task)
    requires Verified(env, v)
    requires w'.node == RecordVote(w.node, v) && Grown(w.seen, w'.seen) && w'.seen.released == w.seen.released
    requires |w'.threads| == |w.threads| && w'.threads == w.threads[i := w'.threads[i]]
    requires w'.threads[i].task == Counting(v.hash)
    ensures HashOk(env, w', v.hash)
  {
    var h := v.hash;
    if h !in w.node.processed {
      if v.voter in VotersOf(VotesFor(w.node, h)) {
        HashUndisturbed(env, w, w', h);
      } else {
        assert v.voter != env.me;
        PushedVotes(w.node, v, env.me);
        SoundPush(env, w.seen, h, VotesFor(w.node, h), v);
        forall j | 0 <= j < |w'.threads| ensures ThreadFits(env, w'.node, w'.threads[j].task, h) {
          assert j != i ==> ThreadFits(env, w.node, w.threads[j].task, h);
        }
      }
    }
  }

  // ---- every hash, every step --------------------------------------------------

  lemma {:induction false} ConfirmKeepsVotes(n: Node, k: Hash, h: Hash)
    requires k in n.pending
    ensures h !in n.processed && h != k ==> VotesFor(PruneStale(Confirm(n, k)), h) == VotesFor(n, h)
    ensures VotesFor(Confirm(n, k), h) == VotesFor(n, h)
  {
  }

  lemma {:induction false} SameVotes(n: Node, n': Node, h: Hash)
    requires n'.votes == n.votes
    ensures VotesFor(n', h) == VotesFor(n, h)
  {
  }

  lemma {:induction false} CountingHash(env: Env, w: World, i: nat, h: Hash)
    requires Safe(env, w) && i < |w.threads| && w.threads[i].task.Counting?
    ensures HashOk(env, Take(env, w, Step(i)), h)
  {
    hide OwnVoteOnce, SoundVotes, VotesFor, Quorum;
    var w' := Take(env, w, Step(i));
    var k := w.threads[i].task.hash;
    assert HashOk(env, w, h);
    if Ready(env, w.node, k) {
      ConfirmKeepsVotes(w.node, k, h);
      if h != k {
        HashUndisturbed(env, w, w', h);
      }
    } else {
      SameVotes(w.node, w'.node, h);
      HashUndisturbed(env, w, w', h);
    }
  }

  lemma {:induction false} CastingHash(env: Env, w: World, i: nat, h: Hash)
    requires Safe(env, w) && i < |w.threads| && w.threads[i].task.Casting?
    ensures HashOk(env, Take(env, w, Step(i)), h)
  {
    hide SoundVotes;
    var w' := Take(env, w, Step(i));
    assert HashOk(env, w, h);
    if h !in w.node.processed {
      assert ThreadFits(env, w.node, w.threads[i].task, h);
      HashUndisturbed(env, w, w', h);
    }
  }

  lemma {:induction false} RecordingHash(env: Env, w: World, i: nat, h: Hash)
    requires Safe(env, w) && i < |w.threads| && w.threads[i].task.Recording?
    ensures HashOk(env, Take(env, w, Step(i)), h)
  {
    hide OwnVoteOnce, SoundVotes, VerifyBatch, Verified;
    var w' := Take(env, w, Step(i));
    var v := w.threads[i].task.vote;
    assert HashOk(env, w, h) && TaskOk(env, w, w.threads[i].task);
    TakeGrows(env, w, Step(i));
    if Verified(env, v) && h == v.hash {
      HashRecorded(env, w, w', i, v);
    } else {
      HashUndisturbed(env, w, w', h);
    }
  }

  lemma {:induction false} PushedHash(env: Env, w: World, i: nat, h: Hash)
    requires Safe(env, w) && i < |w.threads| && (w.threads[i].task.Accepting? || w.threads[i].task.Endorsing?)
    ensures HashOk(env, Take(env, w, Step(i)), h)
  {
    hide OwnVoteOnce, SoundVotes, VerifyBatch;
    var w' := Take(env, w, Step(i));
    var t := w.threads[i].task;
    assert HashOk(env, w, h);
    TakeGrows(env, w, Step(i));
    if h == t.hash {
      HashEndorsed(env, w, w', i, h);
    } else {
      HashUndisturbed(env, w, w', h);
    }
  }

  lemma {:induction false} ProposedHash(env: Env, w: World, i: nat, h: Hash)
    requires Safe(env, w) && i < |w.threads| && w.threads[i].task.Proposed?
    ensures HashOk(env, Take(env, w, Step(i)), h)
  {
    hide OwnVoteOnce, SoundVotes, VerifyBatch;
    var w' := Take(env, w, Step(i));
    var b := w.threads[i].task.batch;
    assert HashOk(env, w, h) && TaskOk(env, w, w.threads[i].task);
    TakeGrows(env, w, Step(i));
    if h == env.digest(b.header) && w'.threads[i].task.Accepting? {
      assert ProposalMsg(b) in w.seen.delivered;
      HashInserted(env, w, w', h, i);
    } else {
      HashUndisturbed(env, w, w', h);
    }
  }

  lemma {:induction false} HashesAfterStep(env: Env, w: World, i: nat, h: Hash)
    requires Safe(env, w) && i < |w.threads|
    ensures HashOk(env, Take(env, w, Step(i)), h)
  {
    hide VotesFor, OwnVoteOnce, SoundVotes, Verified, VerifyBatch, Quorum, Known, ConfirmedOk;
    var w' := Take(env, w, Step(i));
    var t := w.threads[i].task;
    assert HashOk(env, w, h) && TaskOk(env, w, t);
    TakeGrows(env, w, Step(i));
    match t {
      case Proposed(b) => ProposedHash(env, w, i, h);
      case Accepting(k, round) => PushedHash(env, w, i, h);
      case Endorsing(k, round) => PushedHash(env, w, i, h);
      case Recording(v) => RecordingHash(env, w, i, h);
      case Counting(k) => CountingHash(env, w, i, h);
      case Sweeping(done) =>
        assert VotesFor(w'.node, h) == VotesFor(w.node, h) by { SameVotes(w.node, w'.node, h); }
        HashUndisturbed(env, w, w', h);
      case Casting(k) => CastingHash(env, w, i, h);
      case _ =>
        SameVotes(w.node, w'.node, h);
        HashUndisturbed(env, w, w', h);
    }
  }

  lemma {:induction false} HashesAfter(env: Env, w: World, l: Label, h: Hash)
    requires Safe(env, w) && Enabled(env, w, l)
    ensures HashOk(env, Take(env, w, l), h)
  {
    hide OwnVoteOnce, SoundVotes, VotesFor, Quorum, ConfirmedOk;
    var w' := Take(env, w, l);
    assert HashOk(env, w, h);
    TakeGrows(env, w, l);
    match l {
      case Deliver(m) =>
        SameVotes(w.node, w'.node, h);
        HashUndisturbed(env, w, w', h);
      case Propose(b) =>
        SameVotes(w.node, w'.node, h);
        if h == env.digest(b.header) {
          assert h !in w.node.pending;
          HashInserted(env, w, w', h, |w.threads|);
        } else {
          HashUndisturbed(env, w, w', h);
        }
      case Step(i) => HashesAfterStep(env, w, i, h);
      case Abort(i) =>
        SameVotes(w.node, w'.node, h);
        HashUndisturbed(env, w, w', h);
      case AbortSend(i) =>
        ConfirmKeepsVotes(w.node, w.threads[i].task.hash, h);
        if h != w.threads[i].task.hash {
          HashUndisturbed(env, w, w', h);
        }
    }
  }

  // ---- tasks, pending batches and confirmations --------------------------------

  lemma {:induction false} TaskKept(env: Env, w: World, w': World, t: Task)
    requires TaskOk(env, w, t) && Grown(w.seen, w'.seen) && w.node.processed <= w'.node.processed
    ensures TaskOk(env, w', t)
  {
  }

  lemma {:induction false} TasksAfter(env: Env, w: World, l: Label)
    requires Safe(env, w) && Enabled(env, w, l)
    ensures AllTasksOk(env, Take(env, w, l))
  {
    hide AllHashesOk, PendingOk, ConfirmedOk, Verified, VerifyBatch, Ready, Accepted;
    var w' := Take(env, w, l);
    TakeGrows(env, w, l);
    forall j | 0 <= j < |w'.threads| ensures TaskOk(env, w', w'.threads[j].task) {
      if j < |w.threads| {
        assert TaskOk(env, w, w.threads[j].task);
        TaskKept(env, w, w', w.threads[j].task);
      }
    }
  }

  lemma {:induction false} PendingAfter(env: Env, w: World, l: Label)
    requires Safe(env, w) && Enabled(env, w, l)
    ensures PendingOk(env, Take(env, w, l))
  {
    hide AllHashesOk, ConfirmedOk, Verified, VerifyBatch, Quorum, VotesFor, Accepted, Form, LastConfirmed, NoteAbort, VotersOf;
    var w' := Take(env, w, l);
    TakeGrows(env, w, l);
    forall h | h in w'.node.pending
      ensures env.digest(w'.node.pending[h].header) == h && Sourced(env, w'.seen, w'.node.pending[h])
    {
      if h in w.node.pending && w'.node.pending[h] == w.node.pending[h] {
        assert Sourced(env, w.seen, w.node.pending[h]);
      } else if l.Step? {
        assert TaskOk(env, w, w.threads[l.i].task);
      }
    }
  }

  lemma {:induction false} QuorateGrows(env: Env, o: Observed, o': Observed, c: Confirmation)
    requires Grown(o, o') && Quorate(env, o, c)
    ensures Quorate(env, o', c)
  {
  }

  /** A confirmation is made from votes that are sound at that moment. */
  lemma {:induction false} ReadyIsQuorate(env: Env, w: World, h: Hash)
    requires Safe(env, w) && Ready(env, w.node, h)
    ensures Quorate(env, w.seen, Confirmed(w.node, h))
  {
    assert HashOk(env, w, h);
  }

  lemma {:induction false} ConfirmedGrows(env: Env, w: World, w': World)
    requires ConfirmedOk(env, w) && Grown(w.seen, w'.seen)
    requires w'.seen.confirmations == w.seen.confirmations && w'.node.processed == w.node.processed
    ensures ConfirmedOk(env, w')
  {
    hide Quorate;
    var cs := w.seen.confirmations;
    forall k | 0 <= k < |cs| ensures Quorate(env, w'.seen, cs[k]) {
      QuorateGrows(env, w.seen, w'.seen, cs[k]);
    }
  }

  lemma {:induction false} ConfirmedExtends(env: Env, w: World, w': World, h: Hash)
    requires Safe(env, w) && Ready(env, w.node, h) && Grown(w.seen, w'.seen)
    requires w'.seen.confirmations == w.seen.confirmations + [Confirmed(w.node, h)]
    requires w'.node.processed == w.node.processed + {h}
    ensures ConfirmedOk(env, w')
  {
    ReadyIsQuorate(env, w, h);
    hide Quorate, AllHashesOk, AllTasksOk, PendingOk;
    var cs, c := w.seen.confirmations, Confirmed(w.node, h);
    var cs' := cs + [c];
    QuorateGrows(env, w.seen, w'.seen, c);
    forall k | 0 <= k < |cs'| ensures Quorate(env, w'.seen, cs'[k]) && cs'[k].hash in w'.node.processed {
      if k < |cs| { QuorateGrows(env, w.seen, w'.seen, cs[k]); }
    }
    forall x | x in w'.node.processed ensures exists k :: 0 <= k < |cs'| && cs'[k].hash == x {
      if x == h {
        assert cs'[|cs|].hash == h;
      } else {
        var k :| 0 <= k < |cs| && cs[k].hash == x;
        assert cs'[k].hash == x;
      }
    }
  }

  lemma {:induction false} ConfirmationsAfter(env: Env, w: World, l: Label)
    requires Safe(env, w) && Enabled(env, w, l)
    ensures ConfirmedOk(env, Take(env, w, l))
  {
    hide AllHashesOk, AllTasksOk, PendingOk, ConfirmedOk, Ready, Accepted, Verified, VerifyBatch;
    var w' := Take(env, w, l);
    TakeGrows(env, w, l);
    if l.AbortSend? {
      ConfirmedExtends(env, w, w', w.threads[l.i].task.hash);
    } else if l.Step? && w.threads[l.i].task.Counting? && Ready(env, w.node, w.threads[l.i].task.hash) {
      ConfirmedExtends(env, w, w', w.threads[l.i].task.hash);
    } else {
      ConfirmedGrows(env, w, w');
    }
  }

  lemma {:induction false} SafeAfter(env: Env, w: World, l: Label)
    requires Safe(env, w) && Enabled(env, w, l)
    ensures Safe(env, Take(env, w, l))
  {
    hide HashOk, AllTasksOk, PendingOk, ConfirmedOk;
    forall h ensures HashOk(env, Take(env, w, l), h) {
      HashesAfter(env, w, l, h);
    }
    TasksAfter(env, w, l);
    PendingAfter(env, w, l);
    ConfirmationsAfter(env, w, l);
  }

  lemma {:induction false} SafeRun(env: Env, run: seq<Label>)
    requires Legal(env, run)
    ensures Safe(env, After(env, run))
  {
    if run == [] {
      assert forall h :: VotesFor(INITIAL, h) == [];
    } else {
      SafeRun(env, run[..|run| - 1]);
      SafeAfter(env, After(env, run[..|run| - 1]), run[|run| - 1]);
    }
  }
}

/**
 Delivery order does not matter: once all tasks have finished, which hashes are settled
 is determined by the sets of messages delivered and of batches made here.
 */
module Delivery {
  import opened ConsensusTypes
  import opened Certificates
  import opened NodeSteps
  import opened Safety

  // ---- messages ----------------------------------------------------------------

  /** Delivered, not yet past the duplicate check. */
  predicate Waiting(t: Task, m: Message) {
    t == Arrived(m) || t == Unseen(m)
  }

  /** Past the duplicate check, effect still to come. */
  predicate Handling(t: Task, m: Message) {
    match m
    case ProposalMsg(b) => t == Proposed(b)
    case VoteMsg(v) => t == Received(v) || t == Recording(v)
    case CertificateMsg(c) => t == Certified(c)
  }

  /** The message has done, or can no longer do, anything to its hash or to the highest view. */
  predicate Effected(env: Env, n: Node, m: Message) {
    match m
    case ProposalMsg(b) =>
      var h := env.digest(b.header);
      !VerifyBatch(env, b.header) || h in n.processed || h in n.pending
    case VoteMsg(v) =>
      !Verified(env, v) || v.hash in n.processed || v.voter in VotersOf(VotesFor(n, v.hash))
    case CertificateMsg(c) => !Accepted(env, c) || c.view <= n.highest.view
  }

  ghost predicate SomeHandling(w: World, m: Message) {
    exists i :: 0 <= i < |w.threads| && Handling(w.threads[i].task, m)
  }

  ghost predicate SomeWaiting(w: World, m: Message) {
    exists i :: 0 <= i < |w.threads| && Waiting(w.threads[i].task, m)
  }

  ghost predicate Served(env: Env, w: World, m: Message) {
    Effected(env, w.node, m) || SomeHandling(w, m)
  }

  ghost predicate MessagesOk(env: Env, w: World) {
    && (forall m :: m in w.seen.delivered ==> Served(env, w, m) || SomeWaiting(w, m))
    && (forall m :: m in w.node.cache ==> Served(env, w, m))
  }

  // ---- hashes ------------------------------------------------------------------

  ghost predicate SomeOwes(w: World, h: Hash) {
    exists i :: 0 <= i < |w.threads| && Owes(w.threads[i].task, h)
  }

  ghost predicate SomeCounts(w: World, h: Hash) {
    exists i :: 0 <= i < |w.threads| && WillCount(w.threads[i].task, h)
  }

  /** Work still to be done for h is in some task's hands, or an abort took it away. */
  ghost predicate InHand(env: Env, w: World, h: Hash) {
    h in w.node.processed ||
    (&& (Made(env, w.seen.made, h) ==> h in w.node.pending)
     && (h in w.node.pending ==> Mine(env, w.node, h) || SomeOwes(w, h) || h in w.seen.unendorsed)
     && (Ready(env, w.node, h) ==> SomeCounts(w, h) || h in w.seen.stalled))
  }

  /** What an abort took away nobody else supplies. */
  ghost predicate AbortsOk(env: Env, w: World, h: Hash) {
    && (h in w.seen.stalled ==> Ready(env, w.node, h) && !SomeCounts(w, h))
    && (h in w.seen.unendorsed && h !in w.node.processed ==>
          h in w.node.pending && !Mine(env, w.node, h) && !SomeOwes(w, h))
  }

  /** An unendorsed batch is only ever confirmed by others. */
  ghost predicate WithoutMe(env: Env, w: World) {
    forall k :: 0 <= k < |w.seen.confirmations| && w.seen.confirmations[k].hash in w.seen.unendorsed ==>
      env.me !in VotersOf(w.seen.confirmations[k].votes)
  }

  /** Only sections of the proposer flow run in an own task. */
  ghost predicate OwnTasks(w: World) {
    forall i :: 0 <= i < |w.threads| && w.threads[i].own ==>
      var t := w.threads[i].task;
      t.Endorsing? || t.Counting? || t.Clearing? || t.Sweeping? || t.Finished?
  }

  ghost predicate Live(env: Env, w: World) {
    MessagesOk(env, w) && OwnTasks(w) && WithoutMe(env, w) && forall h :: InHand(env, w, h) && AbortsOk(env, w, h)
  }

  // ---- effects are permanent ---------------------------------------------------

  /** A section only adds votes and pending entries to a hash it leaves unprocessed. */
  lemma {:induction false} NextOnlyGains(env: Env, n: Node, t: Task, h: Hash)
    requires t.Sweeping? ==> t.done <= n.processed
    ensures var n' := Next(env, n, t).node;
            h !in n'.processed ==>
              && (h in n.pending ==> h in n'.pending)
              && VotesFor(n, h) <= VotesFor(n', h)
  {
    hide Verified, VerifyBatch, Quorum, Accepted, Form, VotersOf;
  }

  lemma {:induction false} ViewNeverFalls(env: Env, w: World, l: Label)
    requires Enabled(env, w, l)
    ensures w.node.highest.view <= Take(env, w, l).node.highest.view
  {
    hide Verified, VerifyBatch, Quorum, Accepted, VotesFor, VotersOf, LastConfirmed, NoteAbort;
  }

  /** Over any stretch of a run the highest view does not fall. */
  lemma {:induction false} ViewMonotone(env: Env, run: seq<Label>, longer: seq<Label>)
    requires Legal(env, run) && Legal(env, longer) && run <= longer
    ensures After(env, run).node.highest.view <= After(env, longer).node.highest.view
    decreases |longer|
  {
    if |longer| == |run| {
      assert run == longer;
    } else {
      hide Take, Enabled;
      var n := |longer| - 1;
      ViewMonotone(env, run, longer[..n]);
      ViewNeverFalls(env, After(env, longer[..n]), longer[n]);
    }
  }

  lemma {:induction false} VotersGrow(a: seq<Vote>, b: seq<Vote>)
    requires a <= b
    ensures VotersOf(a) <= VotersOf(b)
  {
  }

  lemma {:induction false} HashOnlyGains(env: Env, w: World, l: Label, h: Hash)
    requires Safe(env, w) && Enabled(env, w, l)
    ensures var n, n' := w.node, Take(env, w, l).node;
            h !in n'.processed ==>
              && (h in n.pending ==> h in n'.pending)
              && VotesFor(n, h) <= VotesFor(n', h)
              && VotersOf(VotesFor(n, h)) <= VotersOf(VotesFor(n', h))
  {
    hide AllHashesOk, PendingOk, ConfirmedOk, Next, Quorum, Form, VotersOf;
    var w' := Take(env, w, l);
    if h !in w'.node.processed {
      if l.Step? {
        assert TaskOk(env, w, w.threads[l.i].task);
        NextOnlyGains(env, w.node, w.threads[l.i].task, h);
      }
      VotersGrow(VotesFor(w.node, h), VotesFor(w'.node, h));
    }
  }

  lemma {:induction false} EffectedStays(env: Env, w: World, l: Label, m: Message)
    requires Safe(env, w) && Enabled(env, w, l) && Effected(env, w.node, m)
    ensures Effected(env, Take(env, w, l).node, m)
  {
    hide Safe, Verified, VerifyBatch, Accepted;
    TakeGrows(env, w, l);
    match m {
      case ProposalMsg(b) => HashOnlyGains(env, w, l, env.digest(b.header));
      case VoteMsg(v) => HashOnlyGains(env, w, l, v.hash);
      case CertificateMsg(_) => ViewNeverFalls(env, w, l);
    }
  }

  // ---- messages are never dropped ----------------------------------------------

  /** The section a handling task runs hands the message on or gives it its effect. */
  lemma {:induction false} HandlingProgress(env: Env, n: Node, t: Task, m: Message)
    requires Handling(t, m)
    ensures Handling(Next(env, n, t).task, m) || Effected(env, Next(env, n, t).node, m)
  {
    hide Verified, VerifyBatch, Accepted;
    if m.VoteMsg? && t.Recording? {
      PushedVotes(n, m.vote, m.vote.voter);
    }
  }

  lemma {:induction false} HandlingKept(env: Env, w: World, l: Label, m: Message)
    requires Safe(env, w) && OwnTasks(w) && Enabled(env, w, l) && SomeHandling(w, m)
    ensures Served(env, Take(env, w, l), m)
  {
    hide Safe, Effected, Next, Ready;
    var w' := Take(env, w, l);
    var i :| 0 <= i < |w.threads| && Handling(w.threads[i].task, m);
    if l.Step? && l.i == i {
      HandlingProgress(env, w.node, w.threads[i].task, m);
      assert w'.threads[i].task == Next(env, w.node, w.threads[i].task).task;
    } else {
      assert w'.threads[i] == w.threads[i];
    }
  }

  lemma {:induction false} ServedStays(env: Env, w: World, l: Label, m: Message)
    requires Safe(env, w) && OwnTasks(w) && Enabled(env, w, l) && Served(env, w, m)
    ensures Served(env, Take(env, w, l), m)
  {
    hide Safe, OwnTasks, SomeHandling, Effected;
    if Effected(env, w.node, m) {
      EffectedStays(env, w, l, m);
    } else {
      HandlingKept(env, w, l, m);
    }
  }

  lemma {:induction false} TakenUp(env: Env, w: World, i: nat, m: Message)
    requires i < |w.threads| && w.threads[i].task == Unseen(m) && m !in w.node.cache
    ensures Served(env, Take(env, w, Step(i)), m)
  {
    hide Verified, VerifyBatch;
    var w' := Take(env, w, Step(i));
    assert w'.threads[i].task == Dispatch(m);
    assert Handling(w'.threads[i].task, m);
  }

  /** A waiting message is a remembered duplicate, or is remembered and taken up. */
  lemma {:induction false} WaitingKept(env: Env, w: World, l: Label, m: Message)
    requires Safe(env, w) && OwnTasks(w) && MessagesOk(env, w) && Enabled(env, w, l) && SomeWaiting(w, m)
    ensures Served(env, Take(env, w, l), m) || SomeWaiting(Take(env, w, l), m)
  {
    hide Safe, Served, Ready, SomeHandling;
    var w' := Take(env, w, l);
    var i :| 0 <= i < |w.threads| && Waiting(w.threads[i].task, m);
    if l.Step? && l.i == i {
      if m in w.node.cache {
        ServedStays(env, w, l, m);
      } else if w.threads[i].task.Arrived? {
        assert Waiting(w'.threads[i].task, m);
      } else {
        TakenUp(env, w, i, m);
      }
    } else {
      assert w'.threads[i] == w.threads[i];
    }
  }

  /** What is newly remembered is being handled. */
  lemma {:induction false} CacheKept(env: Env, w: World, l: Label, m: Message)
    requires Safe(env, w) && OwnTasks(w) && MessagesOk(env, w) && Enabled(env, w, l)
    requires m in Take(env, w, l).node.cache
    ensures Served(env, Take(env, w, l), m)
  {
    hide Safe, Served, Ready, SomeHandling, Verified, VerifyBatch, Accepted;
    if m in w.node.cache {
      ServedStays(env, w, l, m);
    } else {
      assert l.Step? && w.threads[l.i].task == Unseen(m);
      TakenUp(env, w, l.i, m);
    }
  }

  lemma {:induction false} NewlyWaiting(env: Env, w: World, l: Label, m: Message)
    requires Enabled(env, w, l) && m in Take(env, w, l).seen.delivered && m !in w.seen.delivered
    ensures SomeWaiting(Take(env, w, l), m)
  {
    assert l == Deliver(m);
    assert Waiting(Take(env, w, l).threads[|w.threads|].task, m);
  }

  lemma {:induction false} MessagesAfter(env: Env, w: World, l: Label)
    requires Safe(env, w) && Live(env, w) && Enabled(env, w, l)
    ensures MessagesOk(env, Take(env, w, l))
  {
    hide Safe, Served, SomeWaiting, InHand, OwnTasks;
    var w' := Take(env, w, l);
    forall m | m in w'.seen.delivered ensures Served(env, w', m) || SomeWaiting(w', m) {
      if m in w.seen.delivered {
        if Served(env, w, m) {
          ServedStays(env, w, l, m);
        } else {
          WaitingKept(env, w, l, m);
        }
      } else {
        NewlyWaiting(env, w, l, m);
      }
    }
    forall m | m in w'.node.cache ensures Served(env, w', m) {
      CacheKept(env, w, l, m);
    }
  }

  // ---- hashes stay in hand -----------------------------------------------------

  lemma {:induction false} OwnTasksAfter(env: Env, w: World, l: Label)
    requires OwnTasks(w) && Enabled(env, w, l)
    ensures OwnTasks(Take(env, w, l))
  {
    hide Ready;
  }

  /** A duty for h passes to the same task's next section, or ends with h processed or not ready. */
  lemma {:induction false} DutyProgress(env: Env, n: Node, t: Task, h: Hash)
    requires WillCount(t, h)
    ensures var m := Next(env, n, t);
            || WillCount(m.task, h)
            || h in m.node.processed
            || (m.node == n && !Ready(env, n, h))
    ensures Owes(t, h) ==> Mine(env, Next(env, n, t).node, h)
  {
    hide VotesFor, Quorum, VotersOf;
    if Owes(t, h) {
      PushedVotes(n, OwnVote(env, t.round, h), env.me);
    }
  }

  /** A task that makes h pending, or gives it a vote, counts it next. */
  lemma {:induction false} ChangeMakesDuty(env: Env, n: Node, t: Task, h: Hash)
    requires var n' := Next(env, n, t).node;
             h !in n'.processed && ((h in n'.pending && h !in n.pending) || |VotesFor(n', h)| > |VotesFor(n, h)|)
    ensures WillCount(Next(env, n, t).task, h)
    ensures h in Next(env, n, t).node.pending && h !in n.pending ==> Owes(Next(env, n, t).task, h)
  {
    hide Verified, VerifyBatch, Quorum, Accepted, Form;
  }

  lemma {:induction false} StillCounted(env: Env, w: World, i: nat, h: Hash)
    requires Safe(env, w) && InHand(env, w, h) && i < |w.threads|
    requires Ready(env, Take(env, w, Step(i)).node, h)
    ensures var w' := Take(env, w, Step(i));
            SomeCounts(w', h) || h in w'.seen.stalled
  {
    var w' := Take(env, w, Step(i));
    var t := w.threads[i].task;
    HashOnlyGains(env, w, Step(i), h);
    TakeGrows(env, w, Step(i));
    if h in w.seen.stalled && h !in w'.seen.stalled {
      assert WillCount(w'.threads[i].task, h);
    } else if h !in w.seen.stalled {
      hide Safe, Next, VotesFor, VotersOf, Quorum, WillCount, Mine, SomeOwes;
      if h !in w.node.pending || |VotesFor(w'.node, h)| > |VotesFor(w.node, h)| {
        ChangeMakesDuty(env, w.node, t, h);
        assert WillCount(w'.threads[i].task, h);
      } else {
        assert Ready(env, w.node, h);
        var j :| 0 <= j < |w.threads| && WillCount(w.threads[j].task, h);
        if j == i {
          DutyProgress(env, w.node, t, h);
          assert WillCount(w'.threads[i].task, h);
        } else {
          assert w'.threads[j] == w.threads[j];
        }
      }
    }
  }

  lemma {:induction false} OwesCounts(t: Task, h: Hash)
    ensures Owes(t, h) ==> WillCount(t, h)
  {
  }

  lemma {:induction false} StillOwed(env: Env, w: World, i: nat, h: Hash)
    requires Safe(env, w) && InHand(env, w, h) && i < |w.threads|
    requires var n' := Take(env, w, Step(i)).node;
             h !in n'.processed && h in n'.pending
    ensures var w' := Take(env, w, Step(i));
            Mine(env, w'.node, h) || SomeOwes(w', h) || h in w'.seen.unendorsed
  {
    var w' := Take(env, w, Step(i));
    var t := w.threads[i].task;
    HashOnlyGains(env, w, Step(i), h);
    TakeGrows(env, w, Step(i));
    hide Safe, Next, VotesFor, VotersOf, Quorum, WillCount;
    if h !in w.node.pending {
      ChangeMakesDuty(env, w.node, t, h);
      assert Owes(w'.threads[i].task, h);
    } else if !Mine(env, w.node, h) && h !in w.seen.unendorsed {
      var j :| 0 <= j < |w.threads| && Owes(w.threads[j].task, h);
      if j == i {
        OwesCounts(t, h);
        DutyProgress(env, w.node, t, h);
      } else {
        assert w'.threads[j] == w.threads[j];
      }
    }
  }

  lemma {:induction false} InHandStep(env: Env, w: World, i: nat, h: Hash)
    requires Safe(env, w) && Live(env, w) && i < |w.threads|
    ensures InHand(env, Take(env, w, Step(i)), h)
  {
    HashOnlyGains(env, w, Step(i), h);
    hide Safe, MessagesOk, OwnTasks, Next, VotesFor, Quorum, VotersOf, Owes, WillCount;
    var w' := Take(env, w, Step(i));
    assert InHand(env, w, h);
    TakeGrows(env, w, Step(i));
    if h !in w'.node.processed && h in w'.node.pending {
      StillOwed(env, w, i, h);
      if Ready(env, w'.node, h) {
        StillCounted(env, w, i, h);
      }
    }
  }

  lemma {:induction false} InHandAbort(env: Env, w: World, i: nat, h: Hash)
    requires OwnTasks(w) && InHand(env, w, h) && Enabled(env, w, Abort(i)) && h !in w.node.processed
    ensures InHand(env, Take(env, w, Abort(i)), h)
  {
    hide Quorum, VotesFor, VotersOf;
    var w' := Take(env, w, Abort(i));
    if SomeOwes(w, h) && h !in w'.seen.unendorsed {
      var j :| 0 <= j < |w.threads| && Owes(w.threads[j].task, h);
      assert w'.threads[j] == w.threads[j];
    }
    if Ready(env, w.node, h) && h !in w'.seen.stalled {
      var j :| 0 <= j < |w.threads| && WillCount(w.threads[j].task, h) && (j != i || !Stalls(env, w, i, h));
      var k := if j != i then j else var k :| 0 <= k < |w.threads| && k != i && WillCount(w.threads[k].task, h); k;
      assert w'.threads[k] == w.threads[k];
    }
  }

  /** Other labels: no votes change, and an abort that takes a duty away is noted. */
  lemma {:induction false} InHandOther(env: Env, w: World, l: Label, h: Hash)
    requires Safe(env, w) && Live(env, w) && Enabled(env, w, l) && !l.Step?
    ensures InHand(env, Take(env, w, l), h)
  {
    hide Safe, MessagesOk, WithoutMe, Quorum, VotersOf, Form;
    var w' := Take(env, w, l);
    assert InHand(env, w, h);
    if h !in w'.node.processed {
      assert VotesFor(w'.node, h) == VotesFor(w.node, h);
      if l.Propose? && h == env.digest(l.batch.header) {
        assert Owes(w'.threads[|w.threads|].task, h);
      } else if l.Abort? {
        InHandAbort(env, w, l.i, h);
      } else {
        if SomeOwes(w, h) {
          var j :| 0 <= j < |w.threads| && Owes(w.threads[j].task, h);
          assert w'.threads[j] == w.threads[j];
        }
        if SomeCounts(w, h) {
          var j :| 0 <= j < |w.threads| && WillCount(w.threads[j].task, h);
          assert w'.threads[j] == w.threads[j];
        }
      }
    }
  }

  // ---- what aborts took away stays away -----------------------------------------

  /** A section makes no duty for a pending hash, except by recording a valid vote for it. */
  lemma {:induction false} NoNewDuties(env: Env, n: Node, t: Task, h: Hash)
    requires h in n.pending
    ensures !Owes(Next(env, n, t).task, h)
    ensures !WillCount(t, h) ==> (WillCount(Next(env, n, t).task, h) <==> t.Recording? && t.vote.hash == h && Verified(env, t.vote))
    ensures !WillCount(t, h) && h !in n.processed ==> h !in Next(env, n, t).node.processed
  {
    hide Verified, VerifyBatch, Quorum, VotesFor, Accepted, Form;
  }

  /** Only an own push, owed, or a delivered own vote adds this node to the voters. */
  lemma {:induction false} NotMineByNext(env: Env, n: Node, t: Task, h: Hash)
    requires !Mine(env, n, h) && h !in n.processed && !Owes(t, h)
    requires t.Recording? && t.vote.hash == h && t.vote.voter == env.me ==> !Verified(env, t.vote)
    ensures h !in Next(env, n, t).node.processed ==> !Mine(env, Next(env, n, t).node, h)
  {
    hide Verified, VerifyBatch, Quorum, Accepted, Form;
    if t.Recording? {
      PushedVotes(n, t.vote, env.me);
    }
  }

  lemma {:induction false} StalledStep(env: Env, w: World, i: nat, h: Hash)
    requires Safe(env, w) && AbortsOk(env, w, h) && i < |w.threads|
    requires h in Take(env, w, Step(i)).seen.stalled
    ensures Ready(env, Take(env, w, Step(i)).node, h) && !SomeCounts(Take(env, w, Step(i)), h)
  {
    var w' := Take(env, w, Step(i));
    var t := w.threads[i].task;
    assert !WillCount(t, h);
    NoNewDuties(env, w.node, t, h);
    HashOnlyGains(env, w, Step(i), h);
    hide Safe, Next, VotesFor, VotersOf, Quorum, Verified, WillCount;
    forall j | 0 <= j < |w'.threads| ensures !WillCount(w'.threads[j].task, h) {
      if j != i {
        assert w'.threads[j] == w.threads[j];
      }
    }
  }

  lemma {:induction false} UnendorsedStep(env: Env, w: World, i: nat, h: Hash)
    requires Safe(env, w) && AbortsOk(env, w, h) && i < |w.threads|
    requires var w' := Take(env, w, Step(i));
             h in w'.seen.unendorsed && h !in w'.node.processed
    ensures var w' := Take(env, w, Step(i));
            h in w'.node.pending && !Mine(env, w'.node, h) && !SomeOwes(w', h)
  {
    var w' := Take(env, w, Step(i));
    var t := w.threads[i].task;
    TakeGrows(env, w, Step(i));
    assert HashOk(env, w, h) && TaskOk(env, w, t);
    assert !Owes(t, h);
    NoNewDuties(env, w.node, t, h);
    NotMineByNext(env, w.node, t, h);
    HashOnlyGains(env, w, Step(i), h);
    hide Safe, Next, VotesFor, VotersOf, Quorum, Verified, Owes;
    forall j | 0 <= j < |w'.threads| ensures !Owes(w'.threads[j].task, h) {
      if j != i {
        assert w'.threads[j] == w.threads[j];
      }
    }
  }

  /** Other labels start no duty for a pending hash and push no vote. */
  lemma {:induction false} DutiesOther(env: Env, w: World, l: Label, h: Hash)
    requires PendingOk(env, w) && Enabled(env, w, l) && !l.Step?
    ensures var w' := Take(env, w, l);
            && VotesFor(w'.node, h) == VotesFor(w.node, h)
            && (h in w.node.pending ==>
                  && h in w'.node.pending
                  && (SomeOwes(w', h) ==> SomeOwes(w, h)) && (SomeCounts(w', h) ==> SomeCounts(w, h)))
            && (h in w'.node.processed && h !in w.node.processed ==> SomeCounts(w, h))
  {
    hide Quorum, Form, LastConfirmed, VotersOf;
    var w' := Take(env, w, l);
    if l.AbortSend? {
      assert WillCount(w.threads[l.i].task, w.threads[l.i].task.hash);
    }
    forall j | 0 <= j < |w'.threads| && WillCount(w'.threads[j].task, h) && h in w.node.pending
      ensures j < |w.threads| && w'.threads[j].task == w.threads[j].task
    {
    }
  }

  lemma {:induction false} AbortsOther(env: Env, w: World, l: Label, h: Hash)
    requires Safe(env, w) && AbortsOk(env, w, h) && Enabled(env, w, l) && !l.Step? && !l.Abort?
    ensures AbortsOk(env, Take(env, w, l), h)
  {
    DutiesOther(env, w, l, h);
    TakeGrows(env, w, l);
    hide Safe, Quorum, VotesFor, VotersOf, SomeOwes, SomeCounts, Form, LastConfirmed;
  }

  /** The aborted task's own duty is gone; for an unendorsed hash it was the only one. */
  lemma {:induction false} AbortsAbort(env: Env, w: World, i: nat, h: Hash)
    requires Safe(env, w) && AbortsOk(env, w, h) && Enabled(env, w, Abort(i))
    ensures AbortsOk(env, Take(env, w, Abort(i)), h)
  {
    DutiesOther(env, w, Abort(i), h);
    assert HashOk(env, w, h);
    hide Safe, Quorum, VotesFor, VotersOf, SoundVotes;
    var w' := Take(env, w, Abort(i));
    if h in w'.seen.unendorsed && h !in w.seen.unendorsed {
      assert ThreadFits(env, w.node, w.threads[i].task, h);
      forall j | 0 <= j < |w'.threads| ensures !Owes(w'.threads[j].task, h) {
        assert j != i ==> w'.threads[j] == w.threads[j] && !Owes(w.threads[j].task, h);
      }
    }
    if h in w'.seen.stalled && h !in w.seen.stalled {
      assert Stalls(env, w, i, h);
      forall j | 0 <= j < |w'.threads| ensures !WillCount(w'.threads[j].task, h) {
        assert j != i ==> w'.threads[j] == w.threads[j];
      }
    }
  }

  lemma {:induction false} AbortsAfter(env: Env, w: World, l: Label, h: Hash)
    requires Safe(env, w) && AbortsOk(env, w, h) && Enabled(env, w, l)
    ensures AbortsOk(env, Take(env, w, l), h)
  {
    hide Safe, SomeOwes, SomeCounts, Mine, Next;
    if l.Step? {
      var w' := Take(env, w, l);
      if h in w'.seen.stalled {
        StalledStep(env, w, l.i, h);
      }
      if h in w'.seen.unendorsed && h !in w'.node.processed {
        UnendorsedStep(env, w, l.i, h);
      }
    } else if l.Abort? {
      AbortsAbort(env, w, l.i, h);
    } else {
      AbortsOther(env, w, l, h);
    }
  }

  lemma {:induction false} WithoutMeAfter(env: Env, w: World, l: Label)
    requires Safe(env, w) && Live(env, w) && Enabled(env, w, l)
    ensures WithoutMe(env, Take(env, w, l))
  {
    hide AllHashesOk, AllTasksOk, PendingOk, MessagesOk, OwnTasks, InHand, Quorum, Verified, VerifyBatch, Accepted, Form, VotersOf;
    var w' := Take(env, w, l);
    var cs, cs' := w.seen.confirmations, w'.seen.confirmations;
    forall k | 0 <= k < |cs'| && cs'[k].hash in w'.seen.unendorsed ensures env.me !in VotersOf(cs'[k].votes) {
      assert AbortsOk(env, w, cs'[k].hash);
      if k < |cs| {
        assert cs'[k] == cs[k] && cs[k].hash in w.node.processed;
        assert cs[k].hash in w.seen.unendorsed;
      }
    }
  }

  lemma {:induction false} LiveAfter(env: Env, w: World, l: Label)
    requires Safe(env, w) && Live(env, w) && Enabled(env, w, l)
    ensures Live(env, Take(env, w, l))
  {
    hide Safe, MessagesOk, OwnTasks, InHand, AbortsOk, WithoutMe;
    MessagesAfter(env, w, l);
    OwnTasksAfter(env, w, l);
    WithoutMeAfter(env, w, l);
    forall h ensures InHand(env, Take(env, w, l), h) && AbortsOk(env, Take(env, w, l), h) {
      AbortsAfter(env, w, l, h);
      if l.Step? {
        InHandStep(env, w, l.i, h);
      } else {
        InHandOther(env, w, l, h);
      }
    }
  }

  lemma {:induction false} LiveRun(env: Env, run: seq<Label>)
    requires Legal(env, run)
    ensures Safe(env, After(env, run)) && Live(env, After(env, run))
  {
    SafeRun(env, run);
    if run == [] {
    } else {
      LiveRun(env, run[..|run| - 1]);
      LiveAfter(env, After(env, run[..|run| - 1]), run[|run| - 1]);
    }
  }

  // ---- quiescence --------------------------------------------------------------

  ghost predicate Quiescent(w: World) {
    forall i :: 0 <= i < |w.threads| ==> w.threads[i].task.Finished?
  }

  /** Addresses with a valid delivered vote for h. */
  ghost function Voters(env: Env, o: Observed, h: Hash): set<Address> {
    set m | m in o.delivered && m.VoteMsg? && m.vote.hash == h && Verified(env, m.vote) :: m.vote.voter
  }

  /** Those, and this node unless its own task was aborted before it voted. */
  ghost function Backers(env: Env, o: Observed, h: Hash): set<Address> {
    if h in o.unendorsed then Voters(env, o, h) - {env.me} else Voters(env, o, h) + {env.me}
  }

  /** Settled by the delivered messages and what happened to the batches made here. */
  ghost predicate Decided(env: Env, o: Observed, h: Hash) {
    Known(env, o, h) && 3 * |Backers(env, o, h)| > 2 * |env.book|
  }

  /** Voters of sound votes are backers. */
  lemma {:induction false} SoundAreBackers(env: Env, o: Observed, h: Hash, votes: seq<Vote>)
    requires SoundVotes(env, o, h, votes)
    requires h in o.unendorsed ==> env.me !in VotersOf(votes)
    ensures |votes| <= |Backers(env, o, h)|
  {
    hide Verified;
    DistinctCount(votes);
    forall a | a in VotersOf(votes) ensures a in Backers(env, o, h) {
      var i :| 0 <= i < |votes| && votes[i].voter == a;
      var v := votes[i];
      assert Sound(env, o, h, v);
      if v != OwnVote(env, v.round, h) {
        assert VoteMsg(v) in o.delivered && VoteMsg(v).vote.voter == a;
      }
    }
    SubsetSize(VotersOf(votes), Backers(env, o, h));
  }

  lemma {:induction false} ProcessedIsDecided(env: Env, w: World, h: Hash)
    requires Safe(env, w) && Live(env, w) && h in w.node.processed
    ensures Decided(env, w.seen, h) && h !in w.seen.stalled
  {
    hide AllHashesOk, AllTasksOk, PendingOk, MessagesOk, OwnTasks, InHand, Backers, SomeCounts;
    var cs := w.seen.confirmations;
    var k :| 0 <= k < |cs| && cs[k].hash == h;
    assert Quorate(env, w.seen, cs[k]);
    assert AbortsOk(env, w, h);
    SoundAreBackers(env, w.seen, h, cs[k].votes);
    QuorumIsTwoThirds(env, |Backers(env, w.seen, h)|);
  }

  /** A stalled batch has its quorum at every moment, not only at the end. */
  lemma {:induction false} StalledIsDecided(env: Env, w: World, h: Hash)
    requires Safe(env, w) && Live(env, w) && h in w.seen.stalled
    ensures Decided(env, w.seen, h) && h !in w.node.processed
  {
    hide AllTasksOk, ConfirmedOk, MessagesOk, OwnTasks, InHand, Backers, SomeCounts;
    assert HashOk(env, w, h) && AbortsOk(env, w, h);
    SoundAreBackers(env, w.seen, h, VotesFor(w.node, h));
    QuorumIsTwoThirds(env, |Backers(env, w.seen, h)|);
  }

  lemma {:induction false} NothingInFlight(env: Env, w: World, m: Message, h: Hash)
    requires Quiescent(w)
    ensures !SomeWaiting(w, m) && !SomeHandling(w, m) && !SomeOwes(w, h) && !SomeCounts(w, h)
  {
  }

  lemma {:induction false} KnownIsPending(env: Env, w: World, h: Hash)
    requires Live(env, w) && Quiescent(w) && Known(env, w.seen, h)
    requires h !in w.node.processed
    ensures h in w.node.pending
  {
    hide VerifyBatch, SomeWaiting, SomeHandling;
    assert InHand(env, w, h);
    if !Made(env, w.seen.made, h) {
      var b :| ProposalMsg(b) in w.seen.delivered && VerifyBatch(env, b.header) && env.digest(b.header) == h;
      NothingInFlight(env, w, ProposalMsg(b), h);
      assert Served(env, w, ProposalMsg(b));
    }
  }

  lemma {:induction false} BackersVoted(env: Env, w: World, h: Hash)
    requires Live(env, w) && Quiescent(w) && h in w.node.pending
    requires h !in w.node.processed
    ensures Backers(env, w.seen, h) <= VotersOf(VotesFor(w.node, h))
  {
    hide Verified, SomeWaiting, SomeHandling, SomeOwes, SomeCounts, VotersOf, VotesFor;
    assert InHand(env, w, h);
    forall a | a in Backers(env, w.seen, h) ensures a in VotersOf(VotesFor(w.node, h)) {
      if a in Voters(env, w.seen, h) {
        var m :| m in w.seen.delivered && m.VoteMsg? && m.vote.hash == h && Verified(env, m.vote) && m.vote.voter == a;
        NothingInFlight(env, w, m, h);
        assert Served(env, w, m);
      } else {
        NothingInFlight(env, w, CertificateMsg(GENESIS), h);
      }
    }
  }

  lemma {:induction false} DecidedIsSettled(env: Env, w: World, h: Hash)
    requires Safe(env, w) && Live(env, w) && Quiescent(w) && Decided(env, w.seen, h)
    ensures h in w.node.processed || h in w.seen.stalled
  {
    if h !in w.node.processed {
      KnownIsPending(env, w, h);
      BackersVoted(env, w, h);
      assert HashOk(env, w, h) && InHand(env, w, h);
      DistinctCount(VotesFor(w.node, h));
      SubsetSize(Backers(env, w.seen, h), VotersOf(VotesFor(w.node, h)));
      NothingInFlight(env, w, CertificateMsg(GENESIS), h);
      QuorumIsTwoThirds(env, |Backers(env, w.seen, h)|);
    }
  }

  /**
   At quiescence a hash is processed if and only if it has a valid or self-made proposal
   and a quorum of backers, and is not stalled, whatever the order, repetition and cache
   evictions; and a hash that is not processed has both if and only if it is stalled.
   */
  lemma {:induction false} QuiescentOutcome(env: Env, run: seq<Label>, h: Hash)
    requires Legal(env, run) && Quiescent(After(env, run))
    ensures var w := After(env, run);
            && (h in w.node.processed <==> Decided(env, w.seen, h) && h !in w.seen.stalled)
            && (h !in w.node.processed ==> (Decided(env, w.seen, h) <==> h in w.seen.stalled))
  {
    hide Safe, Live, Quiescent, Decided;
    LiveRun(env, run);
    var w := After(env, run);
    if h in w.node.processed {
      ProcessedIsDecided(env, w, h);
    } else if h in w.seen.stalled {
      StalledIsDecided(env, w, h);
    } else if Decided(env, w.seen, h) {
      DecidedIsSettled(env, w, h);
    }
  }

  /**
   Two finished runs with the same messages, own batches and unendorsed batches settle
   the same hashes, and process the same ones if the same ones stalled.
   */
  lemma {:induction false} DeliveryOrderIndependence(env: Env, run: seq<Label>, other: seq<Label>)
    requires Legal(env, run) && Legal(env, other)
    requires Quiescent(After(env, run)) && Quiescent(After(env, other))
    requires After(env, run).seen.delivered == After(env, other).seen.delivered
    requires After(env, run).seen.made == After(env, other).seen.made
    requires After(env, run).seen.unendorsed == After(env, other).seen.unendorsed
    ensures var w, v := After(env, run), After(env, other);
            && w.node.processed + w.seen.stalled == v.node.processed + v.seen.stalled
            && (w.seen.stalled == v.seen.stalled ==> w.node.processed == v.node.processed)
  {
    hide Legal, Quiescent;
    var w, v := After(env, run), After(env, other);
    forall h
      ensures h in w.node.processed <==> Decided(env, w.seen, h) && h !in w.seen.stalled
      ensures h in v.node.processed <==> Decided(env, v.seen, h) && h !in v.seen.stalled
      ensures h in w.node.processed || h in w.seen.stalled <==> Decided(env, w.seen, h)
      ensures h in v.node.processed || h in v.seen.stalled <==> Decided(env, v.seen, h)
      ensures Decided(env, w.seen, h) <==> Decided(env, v.seen, h)
    {
      QuiescentOutcome(env, run, h);
      QuiescentOutcome(env, other, h);
    }
  }
}

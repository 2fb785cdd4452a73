/** What a node remembers after any run: recent messages, the highest certificate, batches asked for. */
module Memory {
  import opened Bytes
  import opened ConsensusTypes
  import opened Certificates
  import opened NodeSteps
  import opened Safety
  import opened Delivery

  // ---- remembered messages -------------------------------------------------------

  /** The last min(1000, k) of the k messages admitted, latest first. */
  ghost predicate CacheOk(w: World) {
    var admitted := w.seen.admitted;
    && |w.node.cache| == Min(1000, |admitted|)
    && (forall i :: 0 <= i < |w.node.cache| ==> w.node.cache[i] == admitted[|admitted| - 1 - i])
  }

  /** Between two admissions of one message there are a thousand others. */
  ghost predicate FarApart(admitted: seq<Message>) {
    forall i, j :: 0 <= i < j < |admitted| && admitted[i] == admitted[j] ==> j - i > 1000
  }

  lemma {:induction false} InWindow(w: World, i: nat)
    requires CacheOk(w) && i < |w.seen.admitted|
    ensures |w.seen.admitted| - i <= 1000 ==> w.seen.admitted[i] in w.node.cache
  {
    if |w.seen.admitted| - i <= 1000 {
      assert w.node.cache[|w.seen.admitted| - 1 - i] == w.seen.admitted[i];
    }
  }

  lemma {:induction false} Admitted(w: World, m: Message)
    requires CacheOk(w) && FarApart(w.seen.admitted) && m !in w.node.cache
    ensures FarApart(w.seen.admitted + [m])
    ensures CacheOk(World(Remember(w.node, m), w.threads, w.seen.(admitted := w.seen.admitted + [m])))
  {
    var admitted := w.seen.admitted;
    forall i | 0 <= i < |admitted| && admitted[i] == m ensures |admitted| - i > 1000 {
      InWindow(w, i);
    }
  }

  lemma {:induction false} SameCache(w: World, w': World)
    requires w'.node.cache == w.node.cache && w'.seen.admitted == w.seen.admitted
    ensures CacheOk(w) ==> CacheOk(w')
    ensures FarApart(w.seen.admitted) ==> FarApart(w'.seen.admitted)
  {
  }

  lemma {:induction false} CacheAfter(env: Env, w: World, l: Label)
    requires CacheOk(w) && FarApart(w.seen.admitted) && Enabled(env, w, l)
    ensures CacheOk(Take(env, w, l)) && FarApart(Take(env, w, l).seen.admitted)
  {
    hide CacheOk, FarApart, Verified, VerifyBatch, Quorum, VotesFor, VotersOf, Form, LastConfirmed, Accepted, Remember;
    var w' := Take(env, w, l);
    if l.Step? && w.threads[l.i].task.Unseen? && w.threads[l.i].task.msg !in w.node.cache {
      Admitted(w, w.threads[l.i].task.msg);
      SameCache(World(w'.node, w.threads, w'.seen), w');
    } else {
      SameCache(w, w');
    }
  }

  /** The cache is a window on the admitted messages, and none is admitted twice within it. */
  lemma {:induction false} CacheWindow(env: Env, run: seq<Label>)
    requires Legal(env, run)
    ensures CacheOk(After(env, run)) && FarApart(After(env, run).seen.admitted)
  {
    if run == [] {
    } else {
      hide CacheOk, FarApart;
      CacheWindow(env, run[..|run| - 1]);
      CacheAfter(env, After(env, run[..|run| - 1]), run[|run| - 1]);
    }
  }

  /** Admitted, or about to be looked at. */
  ghost predicate LookedAt(w: World, m: Message) {
    m in w.seen.admitted || SomeWaiting(w, m)
  }

  lemma {:induction false} LookedAtAfter(env: Env, w: World, l: Label, m: Message)
    requires OwnTasks(w) && CacheOk(w) && Enabled(env, w, l)
    requires LookedAt(w, m) || l == Deliver(m)
    ensures LookedAt(Take(env, w, l), m)
  {
    hide Ready, Verified, VerifyBatch, Accepted, OwnVote, Form;
    var w' := Take(env, w, l);
    if l == Deliver(m) {
      assert Waiting(w'.threads[|w.threads|].task, m);
    } else if m !in w.seen.admitted {
      var i :| 0 <= i < |w.threads| && Waiting(w.threads[i].task, m);
      if l.Step? && l.i == i {
        if w.threads[i].task.Arrived? && m !in w.node.cache {
          assert Waiting(w'.threads[i].task, m);
        }
      } else {
        assert w'.threads[i] == w.threads[i];
      }
    }
  }

  lemma {:induction false} AdmittedIsDelivered(env: Env, w: World, l: Label, m: Message)
    requires Safe(env, w) && Enabled(env, w, l)
    requires m in w.seen.admitted ==> m in w.seen.delivered
    ensures m in Take(env, w, l).seen.admitted ==> m in Take(env, w, l).seen.delivered
  {
    hide AllHashesOk, PendingOk, ConfirmedOk, Ready, Verified, VerifyBatch, Accepted;
    TakeGrows(env, w, l);
    if l.Step? {
      assert TaskOk(env, w, w.threads[l.i].task);
    }
  }

  lemma {:induction false} AdmittedRun(env: Env, run: seq<Label>, m: Message)
    requires Legal(env, run)
    ensures m in After(env, run).seen.delivered ==> LookedAt(After(env, run), m)
    ensures m in After(env, run).seen.admitted ==> m in After(env, run).seen.delivered
  {
    if run == [] {
    } else {
      var g, l := run[..|run| - 1], run[|run| - 1];
      LiveRun(env, g);
      CacheWindow(env, g);
      AdmittedRun(env, g, m);
      hide CacheOk, FarApart, LookedAt, InHand, AbortsOk, MessagesOk, WithoutMe, OwnTasks;
      if m in After(env, g).seen.delivered || l == Deliver(m) {
        LookedAtAfter(env, After(env, g), l, m);
      }
      AdmittedIsDelivered(env, After(env, g), l, m);
    }
  }

  /**
   When all tasks are done the admitted messages are exactly the delivered ones, and one
   is admitted again only after a thousand others.
   */
  lemma {:induction false} EachAdmitted(env: Env, run: seq<Label>, m: Message)
    requires Legal(env, run) && Quiescent(After(env, run))
    ensures m in After(env, run).seen.admitted <==> m in After(env, run).seen.delivered
    ensures FarApart(After(env, run).seen.admitted)
  {
    hide FarApart;
    AdmittedRun(env, run, m);
    CacheWindow(env, run);
    NothingInFlight(env, After(env, run), m, []);
  }

  // ---- the highest certificate ---------------------------------------------------

  /** The certificate of a confirmation: its hash, its batch's round, its votes in order. */
  ghost predicate CertificateFor(q: Certificate, c: Confirmation) {
    && q.hash == c.hash && q.view == c.batch.round && |q.signatures| == |c.votes|
    && forall i :: 0 <= i < |c.votes| ==>
         q.signatures[i].voter == c.votes[i].voter && q.signatures[i].signature == c.votes[i].signature
  }

  ghost predicate Asking(w: World, q: Certificate) {
    exists i :: 0 <= i < |w.threads| && w.threads[i].task == Requesting(q)
  }

  /** Delivered and accepted, and its batch was known or has been or is being asked for. */
  ghost predicate Adopted(env: Env, w: World, q: Certificate) {
    && CertificateMsg(q) in w.seen.delivered && Accepted(env, q)
    && (Known(env, w.seen, q.hash) || q.hash in w.node.requests || Asking(w, q))
  }

  /** The genesis certificate, one formed here, or one adopted. */
  ghost predicate HighestFrom(env: Env, w: World) {
    var q := w.node.highest;
    || (|q.hash| == 32 && (forall i :: 0 <= i < 32 ==> q.hash[i] == 0) && q.view == 0 && q.signatures == [])
    || (exists k :: 0 <= k < |w.seen.confirmations| && CertificateFor(q, w.seen.confirmations[k]))
    || Adopted(env, w, q)
  }

  /** Only batches of accepted certificates are asked for. */
  ghost predicate RequestsOk(env: Env, w: World) {
    forall h :: h in w.node.requests ==>
      exists q :: CertificateMsg(q) in w.seen.delivered && Accepted(env, q) && q.hash == h && q.view == w.node.requests[h]
  }

  lemma {:induction false} AdoptedStays(env: Env, w: World, l: Label, q: Certificate)
    requires Enabled(env, w, l) && OwnTasks(w) && Adopted(env, w, q)
    ensures Adopted(env, Take(env, w, l), q)
  {
    hide Accepted, Verified, VerifyBatch, Quorum, VotesFor, VotersOf, Form, LastConfirmed, OwnVote;
    var w' := Take(env, w, l);
    TakeGrows(env, w, l);
    if Known(env, w.seen, q.hash) {
      KnownGrows(env, w.seen, w'.seen, q.hash);
    } else if q.hash !in w.node.requests {
      var i :| 0 <= i < |w.threads| && w.threads[i].task == Requesting(q);
      if !(l.Step? && l.i == i) {
        assert w'.threads[i] == w.threads[i];
      }
    }
  }

  lemma {:induction false} NewlyAdopted(env: Env, w: World, i: nat)
    requires Safe(env, w) && i < |w.threads| && w.threads[i].task.Certified?
    requires var q := w.threads[i].task.certificate;
             Accepted(env, q) && q.view > w.node.highest.view
    ensures Adopted(env, Take(env, w, Step(i)), w.threads[i].task.certificate)
  {
    hide Accepted, AllHashesOk, ConfirmedOk;
    var w' := Take(env, w, Step(i));
    var q := w.threads[i].task.certificate;
    assert TaskOk(env, w, w.threads[i].task);
    if q.hash !in w.node.pending {
      assert w'.threads[i].task == Requesting(q);
    }
  }

  lemma {:induction false} ConfirmedHighest(w: World, w': World, h: Hash)
    requires h in w.node.pending && w'.seen.confirmations == w.seen.confirmations + [Confirmed(w.node, h)]
    requires w'.node.highest == Confirm(w.node, h).highest && w'.node.highest != w.node.highest
    ensures exists k :: 0 <= k < |w'.seen.confirmations| && CertificateFor(w'.node.highest, w'.seen.confirmations[k])
  {
    assert CertificateFor(w'.node.highest, w'.seen.confirmations[|w.seen.confirmations|]);
  }

  /** How a step can change the highest certificate. */
  lemma {:induction false} HighestChanges(env: Env, w: World, l: Label)
    requires Enabled(env, w, l) && Take(env, w, l).node.highest != w.node.highest
    ensures || l.AbortSend?
            || (l.Step? && w.threads[l.i].task.Counting? && Ready(env, w.node, w.threads[l.i].task.hash))
            || (l.Step? && w.threads[l.i].task.Certified?
                && Accepted(env, w.threads[l.i].task.certificate)
                && w.threads[l.i].task.certificate.view > w.node.highest.view
                && Take(env, w, l).node.highest == w.threads[l.i].task.certificate)
  {
    hide Accepted, Verified, VerifyBatch, Quorum, VotesFor, VotersOf, LastConfirmed;
  }

  lemma {:induction false} ConfirmationsGrow(env: Env, w: World, l: Label)
    requires Enabled(env, w, l)
    ensures w.seen.confirmations <= Take(env, w, l).seen.confirmations
  {
    hide Accepted, Verified, VerifyBatch, Quorum, VotesFor, VotersOf, LastConfirmed, Form;
  }

  lemma {:induction false} ConfirmedHere(env: Env, w: World, l: Label)
    requires Enabled(env, w, l) && Take(env, w, l).node.highest != w.node.highest
    requires l.AbortSend? || (l.Step? && w.threads[l.i].task.Counting? && Ready(env, w.node, w.threads[l.i].task.hash))
    ensures var w' := Take(env, w, l);
            exists k :: 0 <= k < |w'.seen.confirmations| && CertificateFor(w'.node.highest, w'.seen.confirmations[k])
  {
    hide Quorum, VotesFor, VotersOf, LastConfirmed, Form, CertificateFor;
    ConfirmedHighest(w, Take(env, w, l), w.threads[l.i].task.hash);
  }

  lemma {:induction false} HighestFromAfter(env: Env, w: World, l: Label)
    requires Safe(env, w) && OwnTasks(w) && HighestFrom(env, w) && Enabled(env, w, l)
    ensures HighestFrom(env, Take(env, w, l))
  {
    hide Safe, OwnTasks, Adopted, Take, CertificateFor;
    var w' := Take(env, w, l);
    ConfirmationsGrow(env, w, l);
    if w'.node.highest == w.node.highest {
      if Adopted(env, w, w.node.highest) {
        AdoptedStays(env, w, l, w.node.highest);
      } else if k :| 0 <= k < |w.seen.confirmations| && CertificateFor(w.node.highest, w.seen.confirmations[k]) {
        assert w'.seen.confirmations[k] == w.seen.confirmations[k];
      }
    } else {
      HighestChanges(env, w, l);
      if l.Step? && w.threads[l.i].task.Certified? {
        NewlyAdopted(env, w, l.i);
      } else {
        ConfirmedHere(env, w, l);
      }
    }
  }

  lemma {:induction false} RequestsAfter(env: Env, w: World, l: Label)
    requires Safe(env, w) && RequestsOk(env, w) && Enabled(env, w, l)
    ensures RequestsOk(env, Take(env, w, l))
  {
    hide AllHashesOk, PendingOk, ConfirmedOk, Accepted, Verified, VerifyBatch, Quorum, VotesFor, VotersOf, Form, LastConfirmed;
    var w' := Take(env, w, l);
    TakeGrows(env, w, l);
    if l.Step? {
      assert TaskOk(env, w, w.threads[l.i].task);
    }
    forall h | h in w'.node.requests
      ensures exists q :: CertificateMsg(q) in w'.seen.delivered && Accepted(env, q) && q.hash == h && q.view == w'.node.requests[h]
    {
      if h in w.node.requests && w'.node.requests[h] == w.node.requests[h] {
        var q :| CertificateMsg(q) in w.seen.delivered && Accepted(env, q) && q.hash == h && q.view == w.node.requests[h];
        assert CertificateMsg(q) in w'.seen.delivered;
      } else {
        var q := w.threads[l.i].task.certificate;
        assert CertificateMsg(q) in w'.seen.delivered && Accepted(env, q) && q.hash == h && q.view == w'.node.requests[h];
      }
    }
  }

  lemma {:induction false} ZerosAre(k: nat)
    ensures |Zeros(k)| == k && forall i :: 0 <= i < k ==> Zeros(k)[i] == 0
  {
    if k == 0 {
    } else {
      ZerosAre(k - 1);
    }
  }

  /**
   After any run the highest certificate is the genesis one, the one formed for a
   confirmation, or a delivered and accepted one whose batch is known or asked for; and
   whatever is asked for is the batch of a delivered and accepted certificate.
   */
  lemma {:induction false} HighestCertificate(env: Env, run: seq<Label>)
    requires Legal(env, run)
    ensures HighestFrom(env, After(env, run)) && RequestsOk(env, After(env, run))
    ensures Quiescent(After(env, run)) ==> !Asking(After(env, run), After(env, run).node.highest)
  {
    if run == [] {
      ZerosAre(32);
    } else {
      var g, l := run[..|run| - 1], run[|run| - 1];
      HighestCertificate(env, g);
      LiveRun(env, g);
      hide Safe, InHand, AbortsOk, MessagesOk, WithoutMe, OwnTasks, HighestFrom, RequestsOk;
      HighestFromAfter(env, After(env, g), l);
      RequestsAfter(env, After(env, g), l);
    }
  }
}

/** Checking a quorum certificate, and what two accepted certificates prove. */
module Certificates {
  import opened Bytes
  import opened ConsensusTypes

  function Seen(c: Certificate, k: nat): set<Address>
    requires k <= |c.signatures|
  {
    set i | 0 <= i < k :: c.signatures[i].voter
  }

  /** Position i is its voter's first, and the signature there verifies. */
  predicate CountsAt(env: Env, c: Certificate, i: nat)
    requires i < |c.signatures|
  {
    && c.signatures[i].voter !in Seen(c, i)
    && VerifyVote(env, c.signatures[i].voter, c.view, c.hash, c.signatures[i].signature)
  }

  function SignersUpTo(env: Env, c: Certificate, k: nat): set<Address>
    requires k <= |c.signatures|
  {
    set i | 0 <= i < k && CountsAt(env, c, i) :: c.signatures[i].voter
  }

  /** Validators counted by the check: those whose first listed signature verifies. */
  function Signers(env: Env, c: Certificate): set<Address> {
    SignersUpTo(env, c, |c.signatures|)
  }

  predicate Accepted(env: Env, c: Certificate) {
    |Signers(env, c)| >= Quorum(env)
  }

  lemma {:induction false} OneMoreSeen(env: Env, c: Certificate, k: nat)
    requires k < |c.signatures|
    ensures Seen(c, k + 1) == Seen(c, k) + {c.signatures[k].voter}
    ensures SignersUpTo(env, c, k) <= Seen(c, k)
  {
    hide CountsAt;
  }

  lemma {:induction false} OneMoreSigner(env: Env, c: Certificate, k: nat)
    requires k < |c.signatures|
    ensures SignersUpTo(env, c, k + 1)
            == SignersUpTo(env, c, k) + if CountsAt(env, c, k) then {c.signatures[k].voter} else {}
  {
  }

  lemma {:induction false} OneMoreCounted(env: Env, c: Certificate, k: nat)
    requires k < |c.signatures|
    ensures Seen(c, k + 1) == Seen(c, k) + {c.signatures[k].voter}
    ensures |SignersUpTo(env, c, k + 1)| == |SignersUpTo(env, c, k)| + if CountsAt(env, c, k) then 1 else 0
  {
    hide VerifyVote, SignersUpTo;
    OneMoreSeen(env, c, k);
    OneMoreSigner(env, c, k);
  }

  /** The receiving check: a counter and a set of voters already met. */
  method VerifyCertificate(env: Env, c: Certificate) returns (ok: bool)
    ensures ok <==> Accepted(env, c)
    ensures ok <==> 3 * |Signers(env, c)| > 2 * |env.book|
  {
    var validCount := 0;
    var uniqueVoters: set<Address> := {};
    for i := 0 to |c.signatures|
      invariant uniqueVoters == Seen(c, i)
      invariant validCount == |SignersUpTo(env, c, i)|
    {
      OneMoreCounted(env, c, i);
      var e := c.signatures[i];
      if e.voter !in uniqueVoters {
        uniqueVoters := uniqueVoters + {e.voter};
        if VerifyVote(env, e.voter, c.view, c.hash, e.signature) {
          validCount := validCount + 1;
        }
      }
    }
    ok := validCount >= Quorum(env);
    QuorumIsTwoThirds(env, validCount);
  }

  /** A validator is counted exactly when its first listed signature is a valid one. */
  lemma {:induction false} SignersAre(env: Env, c: Certificate, a: Address)
    ensures a in Signers(env, c) <==>
              exists i :: 0 <= i < |c.signatures| && c.signatures[i].voter == a
                && VerifyVote(env, a, c.view, c.hash, c.signatures[i].signature)
                && forall j :: 0 <= j < i ==> c.signatures[j].voter != a
  {
    hide VerifyVote;
    if i :| 0 <= i < |c.signatures| && c.signatures[i].voter == a
            && VerifyVote(env, a, c.view, c.hash, c.signatures[i].signature)
            && forall j :: 0 <= j < i ==> c.signatures[j].voter != a
    {
      assert CountsAt(env, c, i);
    }
    if a in Signers(env, c) {
      var i :| 0 <= i < |c.signatures| && CountsAt(env, c, i) && c.signatures[i].voter == a;
      assert forall j :: 0 <= j < i ==> c.signatures[j].voter in Seen(c, i);
    }
  }

  // ---- accountability ----------------------------------------------------------

  /** A valid signature of this validator on the certificate's view and batch. */
  ghost predicate Signed(env: Env, c: Certificate, a: Address) {
    exists i :: 0 <= i < |c.signatures| && c.signatures[i].voter == a
      && VerifyVote(env, a, c.view, c.hash, c.signatures[i].signature)
  }

  lemma {:induction false} SignersAreValidators(env: Env, c: Certificate)
    ensures Signers(env, c) <= env.book.Keys
    ensures forall a :: a in Signers(env, c) ==> Signed(env, c, a)
  {
  }

  lemma {:induction false} SubsetSize<T>(a: set<T>, b: set<T>)
    requires a <= b
    ensures |a| <= |b|
  {
    assert b == a + (b - a);
    assert |b| == |a| + |b - a|;
  }

  lemma {:induction false} Overlap<T>(a: set<T>, b: set<T>, all: set<T>)
    requires a <= all && b <= all
    ensures |a * b| >= |a| + |b| - |all|
  {
    assert a + b <= all;
    SubsetSize(a + b, all);
    assert |a + b| + |a * b| == |a| + |b|;
  }

  /** Twice the quorum leaves more than a third in common, for every number of validators. */
  lemma {:induction false} QuorumArithmetic(n: nat)
    requires n >= 1
    ensures 2 * (n * 2 / 3 + 1) - n >= (n - 1) / 3 + 1
  {
  }

  /** Conflicting certificates of one view convict at least (n - 1) / 3 + 1 validators. */
  lemma {:induction false} Accountability(env: Env, c: Certificate, d: Certificate)
    returns (guilty: set<Address>)
    requires |env.book| >= 1
    requires Accepted(env, c) && Accepted(env, d)
    requires c.view == d.view && c.hash != d.hash
    ensures guilty <= env.book.Keys
    ensures |guilty| >= (|env.book| - 1) / 3 + 1
    ensures forall a :: a in guilty ==> Signed(env, c, a) && Signed(env, d, a)
  {
    SignersAreValidators(env, c);
    SignersAreValidators(env, d);
    guilty := Signers(env, c) * Signers(env, d);
    Overlap(Signers(env, c), Signers(env, d), env.book.Keys);
    QuorumArithmetic(|env.book|);
    assert |env.book.Keys| == |env.book|;
  }

  /** With an empty address book no certificate is ever accepted. */
  lemma {:induction false} EmptyBookAcceptsNothing(env: Env, c: Certificate)
    requires |env.book| == 0
    ensures !Accepted(env, c)
  {
  }

  // ---- certificates formed locally ---------------------------------------------

  /** The certificate built from the recorded votes, under the batch's own round. */
  function Form(hash: Hash, view: u64, votes: seq<Vote>): Certificate {
    Certificate(hash, view, seq(|votes|, i requires 0 <= i < |votes| => Endorsement(votes[i].voter, votes[i].signature)))
  }

  predicate DistinctVoters(votes: seq<Vote>) {
    forall i, j :: 0 <= i < j < |votes| ==> votes[i].voter != votes[j].voter
  }

  function VotersOf(votes: seq<Vote>): set<Address> {
    set i | 0 <= i < |votes| :: votes[i].voter
  }

  /** Votes whose signature verifies under the given round. */
  function GoodVotes(env: Env, hash: Hash, view: u64, votes: seq<Vote>): set<Address> {
    set i | 0 <= i < |votes| && VerifyVote(env, votes[i].voter, view, hash, votes[i].signature) :: votes[i].voter
  }

  lemma {:induction false} DistinctCount(votes: seq<Vote>)
    requires DistinctVoters(votes)
    ensures |VotersOf(votes)| == |votes|
  {
    if votes == [] {
    } else {
      var n := |votes| - 1;
      DistinctCount(votes[..n]);
      assert VotersOf(votes) == VotersOf(votes[..n]) + {votes[n].voter};
      assert votes[n].voter !in VotersOf(votes[..n]);
    }
  }

  /**
   A certificate formed from distinct voters passes the check exactly when a quorum of
   its signatures verifies under the batch's round.
   */
  lemma {:induction false} FormedAccepted(env: Env, hash: Hash, view: u64, votes: seq<Vote>)
    requires DistinctVoters(votes)
    ensures Signers(env, Form(hash, view, votes)) == GoodVotes(env, hash, view, votes)
    ensures Accepted(env, Form(hash, view, votes)) <==> 3 * |GoodVotes(env, hash, view, votes)| > 2 * |env.book|
  {
    hide VerifyVote;
    QuorumIsTwoThirds(env, |GoodVotes(env, hash, view, votes)|);
    var c := Form(hash, view, votes);
    forall a ensures a in Signers(env, c) <==> a in GoodVotes(env, hash, view, votes) {
      if a in GoodVotes(env, hash, view, votes) {
        var i :| 0 <= i < |votes| && VerifyVote(env, votes[i].voter, view, hash, votes[i].signature) && votes[i].voter == a;
        assert CountsAt(env, c, i);
      }
      if a in Signers(env, c) {
        var i :| 0 <= i < |c.signatures| && CountsAt(env, c, i) && c.signatures[i].voter == a;
        assert VerifyVote(env, votes[i].voter, view, hash, votes[i].signature);
      }
    }
  }

  /** Voters whose recorded vote names the given round. */
  function RoundVoters(round: u64, votes: seq<Vote>): set<Address> {
    set i | 0 <= i < |votes| && votes[i].round == round :: votes[i].voter
  }

  /** A verified vote's signature is good under another round exactly when it is the same round. */
  lemma {:induction false} GoodUnderOwnRound(env: Env, v: Vote, round: u64)
    requires BindingSignatures(env) && Verified(env, v)
    ensures VerifyVote(env, v.voter, round, v.hash, v.signature) <==> v.round == round
  {
    if VerifyVote(env, v.voter, round, v.hash, v.signature) {
      var key := env.book[v.voter].publicKey.value;
      var a, b, tail := BigEndian(v.round, 8), BigEndian(round, 8), v.hash + key;
      assert CanonicalBytes(v.round, v.hash, key) == a + tail && CanonicalBytes(round, v.hash, key) == b + tail;
      assert a == b;
      CanonicalBytesInjective(v.round, v.hash, key, round, v.hash, key);
    }
  }

  lemma {:induction false} GoodByRound(env: Env, hash: Hash, view: u64, votes: seq<Vote>)
    requires BindingSignatures(env)
    requires forall i :: 0 <= i < |votes| ==> Verified(env, votes[i]) && votes[i].hash == hash
    ensures GoodVotes(env, hash, view, votes) == RoundVoters(view, votes)
  {
    hide VerifyVote;
    forall i | 0 <= i < |votes|
      ensures VerifyVote(env, votes[i].voter, view, hash, votes[i].signature) <==> votes[i].round == view
    {
      GoodUnderOwnRound(env, votes[i], view);
    }
  }

  /** If every vote verifies and names the batch's round, every peer accepts the certificate. */
  lemma {:induction false} ProducerVerifierAgree(env: Env, hash: Hash, view: u64, votes: seq<Vote>)
    requires DistinctVoters(votes) && |votes| >= Quorum(env)
    requires forall i :: 0 <= i < |votes| ==> Verified(env, votes[i]) && votes[i].hash == hash && votes[i].round == view
    ensures Accepted(env, Form(hash, view, votes))
  {
    FormedAccepted(env, hash, view, votes);
    DistinctCount(votes);
    assert GoodVotes(env, hash, view, votes) == VotersOf(votes);
  }
}

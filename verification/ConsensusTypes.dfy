/** Messages and parameters of one sequencer node. */
module ConsensusTypes {
  import opened Bytes

  type Address(==, !new)

  type Hash = seq<byte>
  type Key = seq<byte>
  type Signature = seq<byte>

  const PUBLIC_KEY_SIZE: nat := 1312
  const SIGNATURE_SIZE: nat := 2420

  datatype Endorsement = Endorsement(voter: Address, signature: Signature)

  datatype Certificate = Certificate(hash: Hash, view: u64, signatures: seq<Endorsement>)

  datatype Header = Header(
    index: u64, prevHash: Hash, timestamp: u64, payloadsRoot: Hash, authority: Address,
    vrfOutput: seq<byte>, vrfProof: seq<byte>, signature: Signature)

  /** A proposed batch; pending and confirmed batches carry the same fields. */
  datatype Batch = Batch(header: Header, payloads: seq<seq<byte>>, justify: Certificate, round: u64)

  datatype Vote = Vote(round: u64, hash: Hash, voter: Address, signature: Signature)

  datatype Message =
    | ProposalMsg(batch: Batch)
    | VoteMsg(vote: Vote)
    | CertificateMsg(certificate: Certificate)

  datatype Identity = Identity(publicKey: Option<Key>, vrfKey: Option<Key>)

  /** What stays fixed for the life of a node: its identity, the address book and the cryptography. */
  datatype Env = Env(
    me: Address,
    myKey: Key,
    book: map<Address, Identity>,
    verify: (Key, seq<byte>, Signature) -> bool,
    sign: seq<byte> -> Signature,
    proves: (Key, Key, Header) -> bool,
    digest: Header -> Hash)

  /** Round as eight big-endian bytes. */
  function BigEndian(n: nat, k: nat): (s: seq<byte>)
    ensures |s| == k
  {
    if k == 0 then [] else BigEndian(n / 256, k - 1) + [n % 256]
  }

  /** The bytes a vote signs. */
  function CanonicalBytes(round: u64, hash: Hash, key: Key): seq<byte> {
    BigEndian(round, 8) + hash + key
  }

  predicate HasKey(env: Env, a: Address) {
    && a in env.book && env.book[a].publicKey.Some?
    && |env.book[a].publicKey.value| == PUBLIC_KEY_SIZE
  }

  predicate VerifyVote(env: Env, voter: Address, round: u64, hash: Hash, signature: Signature) {
    && HasKey(env, voter)
    && var key := env.book[voter].publicKey.value;
       env.verify(key, CanonicalBytes(round, hash, key), signature)
  }

  predicate VerifyBatch(env: Env, header: Header) {
    && HasKey(env, header.authority) && env.book[header.authority].vrfKey.Some?
    && env.proves(env.book[header.authority].publicKey.value, env.book[header.authority].vrfKey.value, header)
  }

  predicate Verified(env: Env, v: Vote) {
    VerifyVote(env, v.voter, v.round, v.hash, v.signature)
  }

  /** The vote this node casts. */
  function OwnVote(env: Env, round: u64, hash: Hash): Vote {
    Vote(round, hash, env.me, env.sign(CanonicalBytes(round, hash, env.myKey)))
  }

  /** No signature is good under one key for two messages that differ in their first eight bytes only. */
  ghost predicate BindingSignatures(env: Env) {
    forall key, a: seq<byte>, b: seq<byte>, tail: seq<byte>, s ::
      |a| == |b| == 8 && env.verify(key, a + tail, s) && env.verify(key, b + tail, s) ==> a == b
  }

  /** This node is in the address book under the key it signs with. */
  ghost predicate SignsAsListed(env: Env) {
    && HasKey(env, env.me) && env.book[env.me].publicKey.value == env.myKey
    && forall m :: env.verify(env.myKey, m, env.sign(m))
  }

  function Quorum(env: Env): (q: nat)
    ensures q >= 1
  {
    if |env.book| == 0 then 1 else |env.book| * 2 / 3 + 1
  }

  /** A quorum is more than two thirds of the address book, and one vote if it is empty. */
  lemma {:induction false} QuorumIsTwoThirds(env: Env, votes: nat)
    ensures votes >= Quorum(env) <==> 3 * votes > 2 * |env.book|
  {
  }

  // ---- what the checks come down to ----------------------------------------------

  /** The number that bytes spell, most significant first. */
  function BigEndianValue(s: seq<byte>): nat {
    if s == [] then 0 else 256 * BigEndianValue(s[..|s| - 1]) + s[|s| - 1]
  }

  /** Eight bytes that spell the round, then the hash, then the voter's key. */
  ghost predicate VoteBytes(m: seq<byte>, round: u64, hash: Hash, key: Key) {
    && |m| == 8 + |hash| + |key|
    && BigEndianValue(m[..8]) == round
    && (forall i :: 0 <= i < |hash| ==> m[8 + i] == hash[i])
    && (forall i :: 0 <= i < |key| ==> m[8 + |hash| + i] == key[i])
  }

  lemma {:induction false} BigEndianSpells(n: nat, k: nat)
    requires n < Pow256(k)
    ensures BigEndianValue(BigEndian(n, k)) == n
  {
    if k == 0 {
    } else {
      BigEndianSpells(n / 256, k - 1);
      assert BigEndian(n, k)[..k - 1] == BigEndian(n / 256, k - 1);
    }
  }

  lemma {:induction false} SameValueSameBytes(a: seq<byte>, b: seq<byte>)
    requires |a| == |b| && BigEndianValue(a) == BigEndianValue(b)
    ensures a == b
  {
    if a == [] {
    } else {
      var n := |a| - 1;
      SameValueSameBytes(a[..n], b[..n]);
      assert a == a[..n] + [a[n]] && b == b[..n] + [b[n]];
    }
  }

  /** The signed bytes by position: these, and no others. */
  lemma {:induction false} CanonicalBytesAre(round: u64, hash: Hash, key: Key, m: seq<byte>)
    ensures m == CanonicalBytes(round, hash, key) <==> VoteBytes(m, round, hash, key)
  {
    var c := CanonicalBytes(round, hash, key);
    Widths();
    BigEndianSpells(round, 8);
    assert c[..8] == BigEndian(round, 8);
    if VoteBytes(m, round, hash, key) {
      SameValueSameBytes(m[..8], c[..8]);
      forall i | 0 <= i < |m| ensures m[i] == c[i] {
        if i < 8 {
          assert m[i] == m[..8][i];
        } else if i < 8 + |hash| {
          assert m[8 + (i - 8)] == hash[i - 8];
        } else {
          assert m[8 + |hash| + (i - 8 - |hash|)] == key[i - 8 - |hash|];
        }
      }
    }
  }

  /**
   A vote is valid exactly when its voter is listed with a key of 1312 bytes under which
   the signature is good for the bytes of that round, hash and key.
   */
  lemma {:induction false} VerifyVoteMeans(env: Env, voter: Address, round: u64, hash: Hash, signature: Signature)
    ensures VerifyVote(env, voter, round, hash, signature) <==>
              && voter in env.book && env.book[voter].publicKey.Some?
              && var key := env.book[voter].publicKey.value;
              && |key| == 1312
              && exists m :: VoteBytes(m, round, hash, key) && env.verify(key, m, signature)
  {
    if voter in env.book && env.book[voter].publicKey.Some? {
      var key := env.book[voter].publicKey.value;
      forall m ensures m == CanonicalBytes(round, hash, key) <==> VoteBytes(m, round, hash, key) {
        CanonicalBytesAre(round, hash, key, m);
      }
    }
  }

  /** The node's own vote names round, hash and address, and signs the bytes with its own key in them. */
  lemma {:induction false} OwnVoteMeans(env: Env, round: u64, hash: Hash, m: seq<byte>)
    requires VoteBytes(m, round, hash, env.myKey)
    ensures OwnVote(env, round, hash) == Vote(round, hash, env.me, env.sign(m))
  {
    CanonicalBytesAre(round, hash, env.myKey, m);
  }

  /**
   A header is valid exactly when its authority is listed with a key of 1312 bytes and a
   VRF key, under which signature and VRF proof are good.
   */
  lemma {:induction false} VerifyBatchMeans(env: Env, header: Header)
    ensures VerifyBatch(env, header) <==>
              && header.authority in env.book
              && env.book[header.authority].publicKey.Some? && |env.book[header.authority].publicKey.value| == 1312
              && env.book[header.authority].vrfKey.Some?
              && env.proves(env.book[header.authority].publicKey.value, env.book[header.authority].vrfKey.value, header)
  {
  }

  // ---- signing bytes are unambiguous -------------------------------------------

  lemma {:induction false} BigEndianInjective(m: nat, n: nat, k: nat)
    requires m < Pow256(k) && n < Pow256(k)
    requires BigEndian(m, k) == BigEndian(n, k)
    ensures m == n
  {
    if k == 0 {
    } else {
      var a, b := BigEndian(m, k), BigEndian(n, k);
      assert a[..k - 1] == BigEndian(m / 256, k - 1) && b[..k - 1] == BigEndian(n / 256, k - 1);
      assert a[k - 1] == m % 256 && b[k - 1] == n % 256;
      BigEndianInjective(m / 256, n / 256, k - 1);
    }
  }

  /** For keys of the fixed size, the signed bytes determine round, hash and key. */
  lemma {:induction false} CanonicalBytesInjective(r1: u64, h1: Hash, k1: Key, r2: u64, h2: Hash, k2: Key)
    requires |k1| == PUBLIC_KEY_SIZE && |k2| == PUBLIC_KEY_SIZE
    requires CanonicalBytes(r1, h1, k1) == CanonicalBytes(r2, h2, k2)
    ensures r1 == r2 && h1 == h2 && k1 == k2
  {
    var a, b := CanonicalBytes(r1, h1, k1), CanonicalBytes(r2, h2, k2);
    assert a[..8] == BigEndian(r1, 8) && b[..8] == BigEndian(r2, 8);
    Widths();
    BigEndianInjective(r1, r2, 8);
    assert |h1| == |h2|;
    assert a[8..8 + |h1|] == h1 && b[8..8 + |h2|] == h2;
    assert a[8 + |h1|..] == k1 && b[8 + |h2|..] == k2;
  }

  // ---- the assumptions on signatures can be met ----------------------------------

  /** The first eight bytes of a message in a field of a signature's size. */
  function Stamp(m: seq<byte>): (s: Signature)
    ensures |s| == SIGNATURE_SIZE
    ensures |m| >= 8 ==> s[..8] == m[..8]
  {
    if |m| < 8 then seq(SIGNATURE_SIZE, _ => 0) else m[..8] + seq(SIGNATURE_SIZE - 8, _ => 0)
  }

  /** Signatures of the fixed size can bind, with the node's key listed and its own signatures good. */
  lemma {:induction false} FixedSizeCanBind(env: Env) returns (e: Env)
    requires |env.myKey| == PUBLIC_KEY_SIZE
    ensures e.me == env.me && BindingSignatures(e) && SignsAsListed(e)
    ensures forall m :: |e.sign(m)| == SIGNATURE_SIZE
  {
    e := env.(book := env.book[env.me := Identity(Some(env.myKey), None)],
              verify := (key: Key, m: seq<byte>, s: Signature) => s == Stamp(m),
              sign := (m: seq<byte>) => Stamp(m));
    forall key, a: seq<byte>, b: seq<byte>, tail: seq<byte>, s
      | |a| == |b| == 8 && e.verify(key, a + tail, s) && e.verify(key, b + tail, s)
      ensures a == b
    {
      assert a == (a + tail)[..8] == s[..8] == (b + tail)[..8] == b;
    }
  }
}

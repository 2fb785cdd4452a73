/**
 One sequencer node.  Every task runs as a chain of sections, each under one lock; a
 section is one function on the node's state, and tasks interleave between sections.
 */
module NodeSteps {
  import opened Bytes
  import opened ConsensusTypes
  import opened Certificates

  const MAX_CONFIRMED_BATCHES: nat := 256
  const CACHE_CAPACITY: nat := 1000

  datatype Node = Node(
    pending: map<Hash, Batch>,
    votes: map<Hash, seq<Vote>>,
    processed: set<Hash>,
    confirmed: seq<Batch>,
    highest: Certificate,
    requests: map<Hash, u64>,
    cache: seq<Message>)

  function Zeros(k: nat): Hash {
    if k == 0 then [] else [0] + Zeros(k - 1)
  }

  /** `QuorumCertificate::genesis_qc`. */
  const GENESIS := Certificate(Zeros(32), 0, [])

  const INITIAL := Node(map[], map[], {}, [], GENESIS, map[], [])

  function VotesFor(n: Node, h: Hash): seq<Vote> {
    if h in n.votes then n.votes[h] else []
  }

  /** `entry(hash).or_default().push(vote)`: no check for an earlier vote. */
  function Push(n: Node, v: Vote): Node {
    n.(votes := n.votes[v.hash := VotesFor(n, v.hash) + [v]])
  }

  /** A received vote is recorded unless its voter already has one. */
  function RecordVote(n: Node, v: Vote): Node {
    if v.voter in VotersOf(VotesFor(n, v.hash)) then n else Push(n, v)
  }

  /** Least recently used goes first when the cache is full. */
  function Remember(n: Node, m: Message): Node {
    n.(cache := [m] + (if |n.cache| < CACHE_CAPACITY then n.cache else n.cache[..CACHE_CAPACITY - 1]))
  }

  predicate Ready(env: Env, n: Node, h: Hash) {
    h !in n.processed && |VotesFor(n, h)| >= Quorum(env) && h in n.pending
  }

  /** Confirmation, up to the broadcast of the certificate. */
  function Confirm(n: Node, h: Hash): Node
    requires h in n.pending
  {
    var b := n.pending[h];
    n.(processed := n.processed + {h},
       confirmed := n.confirmed + [b],
       highest := if b.round > n.highest.view then Form(h, b.round, VotesFor(n, h)) else n.highest)
  }

  function LastConfirmed(batches: seq<Batch>): seq<Batch> {
    if |batches| > MAX_CONFIRMED_BATCHES then batches[|batches| - MAX_CONFIRMED_BATCHES..] else batches
  }

  function PruneStale(n: Node): Node {
    n.(votes := n.votes - n.processed, confirmed := LastConfirmed(n.confirmed))
  }

  /** Where a task is: the section it will run next. */
  datatype Task =
    | Arrived(msg: Message)
    | Unseen(msg: Message)
    | Proposed(batch: Batch)
    | Accepting(hash: Hash, round: u64)
    | Casting(hash: Hash)
    | Received(vote: Vote)
    | Recording(vote: Vote)
    | Certified(certificate: Certificate)
    | Requesting(certificate: Certificate)
    | Endorsing(hash: Hash, round: u64)
    | Counting(hash: Hash)
    | Clearing
    | Sweeping(done: set<Hash>)
    | Finished

  datatype Move = Move(node: Node, task: Task)

  function Dispatch(m: Message): Task {
    match m
    case ProposalMsg(b) => Proposed(b)
    case VoteMsg(v) => Received(v)
    case CertificateMsg(c) => Certified(c)
  }

  /** Run one section. */
  function Next(env: Env, n: Node, t: Task): Move {
    match t
    case Arrived(m) => Move(n, if m in n.cache then Finished else Unseen(m))
    case Unseen(m) => if m in n.cache then Move(n, Finished) else Move(Remember(n, m), Dispatch(m))
    case Proposed(b) =>
      var h := env.digest(b.header);
      if !VerifyBatch(env, b.header) || h in n.pending then Move(n, Finished)
      else Move(n.(pending := n.pending[h := b]), Accepting(h, b.round))
    case Accepting(h, round) => Move(Push(n, OwnVote(env, round, h)), Casting(h))
    case Casting(h) => Move(n, Counting(h))
    case Received(v) => Move(n, if v.hash in n.processed then Finished else Recording(v))
    case Recording(v) => if Verified(env, v) then Move(RecordVote(n, v), Counting(v.hash)) else Move(n, Finished)
    case Certified(c) =>
      if Accepted(env, c) && c.view > n.highest.view
      then Move(n.(highest := c), if c.hash in n.pending then Finished else Requesting(c))
      else Move(n, Finished)
    case Requesting(c) => Move(n.(requests := n.requests[c.hash := c.view]), Finished)
    case Endorsing(h, round) => Move(Push(n, OwnVote(env, round, h)), Counting(h))
    case Counting(h) => if Ready(env, n, h) then Move(PruneStale(Confirm(n, h)), Clearing) else Move(n, Finished)
    case Clearing => Move(n, Sweeping(n.processed))
    case Sweeping(done) => Move(n.(pending := n.pending - done), Finished)
    case Finished => Move(n, Finished)
  }

  /** Sections a task has ahead of it, at most. */
  function Rank(t: Task): nat {
    match t
    case Arrived(_) => 10
    case Unseen(_) => 9
    case Proposed(_) => 8
    case Accepting(_, _) => 7
    case Casting(_) => 6
    case Received(_) => 6
    case Recording(_) => 5
    case Endorsing(_, _) => 5
    case Counting(_) => 4
    case Clearing => 3
    case Sweeping(_) => 2
    case Certified(_) => 2
    case Requesting(_) => 1
    case Finished => 0
  }

  /** A task run to its end with nobody in between. */
  function Alone(env: Env, n: Node, t: Task): Node
    decreases Rank(t)
  {
    if t.Finished? then n else
      var m := Next(env, n, t);
      Alone(env, m.node, m.task)
  }

  /** One section first, then the rest. */
  lemma {:induction false} AloneStep(env: Env, n: Node, t: Task)
    ensures t.Finished? ==> Alone(env, n, t) == n
    ensures Alone(env, n, t) == Alone(env, Next(env, n, t).node, Next(env, n, t).task)
  {
  }

  lemma {:induction false} CountsAlone(env: Env, n: Node, h: Hash)
    ensures Alone(env, n, Counting(h))
            == if Ready(env, n, h) then Alone(env, PruneStale(Confirm(n, h)), Clearing) else n
  {
    hide Alone, Ready, Confirm, PruneStale;
    AloneStep(env, n, Counting(h));
    AloneStep(env, n, Finished);
  }

  lemma {:induction false} ArrivesAlone(env: Env, n: Node, m: Message)
    ensures Alone(env, n, Arrived(m)) == if m in n.cache then n else Alone(env, Remember(n, m), Dispatch(m))
  {
    hide Alone, Remember;
    AloneStep(env, n, Arrived(m));
    AloneStep(env, n, Unseen(m));
    AloneStep(env, n, Finished);
  }

  // ---- interleavings -----------------------------------------------------------

  /** `own` marks the node's own proposer task, the only one that can be aborted. */
  datatype Thread = Thread(own: bool, task: Task)

  datatype Confirmation = Confirmation(hash: Hash, batch: Batch, votes: seq<Vote>)

  /**
   What an observer of the run has recorded: messages delivered, those that got past the
   duplicate check in order, batches this node made, hashes it has sent a vote for, confirmations in order, views of accepted
   certificates, and confirmations since the last prune whose own prune was skipped.
   Two sets record what aborts of the proposer task did.  A hash is unendorsed if the
   abort came before the own vote was pushed.  It is stalled if the abort took away the
   last task that would have counted a quorum already there; a further valid vote for
   it ends that.
   */
  datatype Observed = Observed(
    delivered: set<Message>,
    admitted: seq<Message>,
    made: set<Batch>,
    released: set<Hash>,
    confirmations: seq<Confirmation>,
    accepted: seq<u64>,
    unendorsed: set<Hash>,
    stalled: set<Hash>,
    unpruned: nat)

  datatype World = World(node: Node, threads: seq<Thread>, seen: Observed)

  const START := World(INITIAL, [], Observed({}, [], {}, {}, [], [], {}, {}, 0))

  datatype Label =
    | Deliver(msg: Message)
    | Propose(batch: Batch)
    | Step(i: nat)
    | Abort(i: nat)
    | AbortSend(i: nat)

  /** Some delivered, validly signed proposal has this hash. */
  ghost predicate Offered(env: Env, delivered: set<Message>, h: Hash) {
    exists b :: ProposalMsg(b) in delivered && VerifyBatch(env, b.header) && env.digest(b.header) == h
  }

  /** A batch with this hash was made here. */
  ghost predicate Made(env: Env, made: set<Batch>, h: Hash) {
    exists b :: b in made && env.digest(b.header) == h
  }

  /**
   What the outside may do.  A validly signed vote under this node's own address is one
   this node sent; a batch this node makes is new; only its proposer task is aborted.
   */
  ghost predicate Enabled(env: Env, w: World, l: Label) {
    match l
    case Deliver(m) => m.VoteMsg? && m.vote.voter == env.me && Verified(env, m.vote) ==> m.vote.hash in w.seen.released
    case Propose(b) =>
      var h := env.digest(b.header);
      !Made(env, w.seen.made, h) && !Offered(env, w.seen.delivered, h)
    case Step(i) => i < |w.threads|
    case Abort(i) => i < |w.threads| && w.threads[i].own && !w.threads[i].task.Finished?
    case AbortSend(i) =>
      && i < |w.threads| && w.threads[i].own && w.threads[i].task.Counting?
      && Ready(env, w.node, w.threads[i].task.hash)
  }

  function Confirmed(n: Node, h: Hash): Confirmation
    requires h in n.pending
  {
    Confirmation(h, n.pending[h], VotesFor(n, h))
  }

  /** What the observer notes when a section runs. */
  function Note(env: Env, n: Node, t: Task, o: Observed): Observed {
    match t
    case Unseen(m) => if m in n.cache then o else o.(admitted := o.admitted + [m])
    case Casting(h) => o.(released := o.released + {h})
    case Counting(h) =>
      if Ready(env, n, h) then
        o.(confirmations := o.confirmations + [Confirmed(n, h)], released := o.released + {h}, unpruned := 0)
      else o
    case Certified(c) => if Accepted(env, c) then o.(accepted := o.accepted + [c.view]) else o
    case Recording(v) => if Verified(env, v) then o.(stalled := o.stalled - {v.hash}) else o
    case _ => o
  }

  /** About to push this node's own vote, unchecked. */
  predicate Owes(t: Task, h: Hash) {
    (t.Accepting? || t.Endorsing?) && t.hash == h
  }

  /** This task still has to run the counting section for h. */
  predicate WillCount(t: Task, h: Hash) {
    Owes(t, h) || t == Casting(h) || t == Counting(h)
  }

  /** Aborting task i takes away the only count of a hash that is ready. */
  ghost predicate Stalls(env: Env, w: World, i: nat, h: Hash)
    requires i < |w.threads|
  {
    && Ready(env, w.node, h) && WillCount(w.threads[i].task, h)
    && forall j :: 0 <= j < |w.threads| && j != i ==> !WillCount(w.threads[j].task, h)
  }

  /** What the observer notes when an own task is aborted between sections. */
  ghost function NoteAbort(env: Env, w: World, i: nat): Observed
    requires i < |w.threads|
  {
    var t := w.threads[i].task;
    if !(t.Endorsing? || t.Counting?) then w.seen
    else
      w.seen.(
        unendorsed := w.seen.unendorsed + (if t.Endorsing? && t.hash !in w.node.processed then {t.hash} else {}),
        stalled := w.seen.stalled + (if Stalls(env, w, i, t.hash) then {t.hash} else {}))
  }

  ghost function Take(env: Env, w: World, l: Label): World
    requires Enabled(env, w, l)
  {
    match l
    case Deliver(m) =>
      World(w.node, w.threads + [Thread(false, Arrived(m))], w.seen.(delivered := w.seen.delivered + {m}))
    case Propose(b) =>
      var h := env.digest(b.header);
      World(w.node.(pending := w.node.pending[h := b]), w.threads + [Thread(true, Endorsing(h, b.round))],
            w.seen.(made := w.seen.made + {b}))
    case Step(i) =>
      var t := w.threads[i].task;
      var m := Next(env, w.node, t);
      World(m.node, w.threads[i := w.threads[i].(task := m.task)], Note(env, w.node, t, w.seen))
    case Abort(i) =>
      World(w.node, w.threads[i := w.threads[i].(task := Finished)], NoteAbort(env, w, i))
    case AbortSend(i) =>
      var h := w.threads[i].task.hash;
      World(Confirm(w.node, h), w.threads[i := w.threads[i].(task := Finished)],
            w.seen.(confirmations := w.seen.confirmations + [Confirmed(w.node, h)],
                    released := w.seen.released + {h}, unpruned := w.seen.unpruned + 1))
  }

  ghost predicate Legal(env: Env, run: seq<Label>)
    decreases |run|, 0
  {
    run == [] || (Legal(env, run[..|run| - 1]) && Enabled(env, After(env, run[..|run| - 1]), run[|run| - 1]))
  }

  /** The world after a run. */
  ghost function After(env: Env, run: seq<Label>): World
    requires Legal(env, run)
    decreases |run|, 1
  {
    if run == [] then START else Take(env, After(env, run[..|run| - 1]), run[|run| - 1])
  }
}

/** The round and step driver. */
module Pacemaker {
  import opened Bytes
  import opened ConsensusTypes
  import opened NodeSteps
  import opened Confirmations
  import opened Delivery

  datatype Clock = Clock(round: u64, step: u64)

  /** Release-build addition on u64. */
  function Inc(x: u64): u64 {
    (x + 1) % U64_LIMIT
  }

  /** This tick starts a new step or round. */
  predicate Advances(c: Clock, highest: u64, timedOut: bool) {
    highest >= c.round || timedOut
  }

  /** One driver tick, given the highest certificate view and whether the step timed out. */
  function Tick(c: Clock, highest: u64, timedOut: bool, committee: u64): Clock {
    if highest >= c.round then Clock(Inc(highest), 0)
    else if timedOut then
      if Inc(c.step) >= committee then Clock(Inc(c.round), 0) else Clock(c.round, Inc(c.step))
    else c
  }

  predicate Earlier(c: Clock, d: Clock) {
    c.round < d.round || (c.round == d.round && c.step < d.step)
  }

  function Proposers(committee: u64): (k: u64)
    ensures k >= 1
  {
    if committee == 0 then 1 else committee
  }

  predicate InStep(c: Clock, committee: u64) {
    c.step < Proposers(committee)
  }

  /** The tick leaves the last round a u64 can name. */
  predicate WrapsRound(c: Clock, highest: u64, committee: u64) {
    if highest >= c.round then highest == U64_LIMIT - 1
    else c.round == U64_LIMIT - 1 && Inc(c.step) >= committee
  }

  /** Steps stay within the committee, and an advance moves strictly forward unless the round wraps. */
  lemma {:induction false} TickMovesForward(c: Clock, highest: u64, timedOut: bool, committee: u64)
    requires InStep(c, committee)
    ensures InStep(Tick(c, highest, timedOut, committee), committee)
    ensures Advances(c, highest, timedOut) ==>
              (Earlier(c, Tick(c, highest, timedOut, committee)) <==> !WrapsRound(c, highest, committee))
    ensures !Advances(c, highest, timedOut) ==> Tick(c, highest, timedOut, committee) == c
  {
  }

  // ---- one tick in plain numbers -------------------------------------------------

  /** A round ends when it is certified, or when its last proposer times out. */
  predicate EndsRound(c: Clock, highest: u64, timedOut: bool, committee: u64) {
    highest >= c.round || (timedOut && c.step + 1 >= Proposers(committee))
  }

  /**
   A round that does not end keeps its number, and a timeout moves it one step on.  One
   that ends is followed, at step 0, by the smallest round past both it and the view
   read; past the last round a u64 can name, by round 0.
   */
  lemma {:induction false} TickPlainly(c: Clock, highest: u64, timedOut: bool, committee: u64)
    requires InStep(c, committee)
    ensures var d := Tick(c, highest, timedOut, committee);
            if EndsRound(c, highest, timedOut, committee) then
              && d.step == 0
              && (c.round < U64_LIMIT - 1 && highest < U64_LIMIT - 1 ==>
                    && d.round > c.round && d.round > highest
                    && (d.round - 1 == c.round || d.round - 1 == highest))
              && (c.round == U64_LIMIT - 1 || highest == U64_LIMIT - 1 ==> d.round == 0)
            else
              d.round == c.round && d.step == c.step + if timedOut then 1 else 0
  {
  }

  // ---- runs of the driver beside the node --------------------------------------

  /** One tick per element: the highest view it read and whether the step had timed out. */
  datatype Reading = Reading(highest: u64, timedOut: bool)

  function DriveFrom(c: Clock, readings: seq<Reading>, committee: u64): Clock {
    if readings == [] then c
    else
      var last := readings[|readings| - 1];
      Tick(DriveFrom(c, readings[..|readings| - 1], committee), last.highest, last.timedOut, committee)
  }

  function Drive(readings: seq<Reading>, committee: u64): Clock {
    DriveFrom(Clock(0, 0), readings, committee)
  }

  /** Timeouts only, with no certificate for the given round or later. */
  ghost predicate AllTimeOuts(readings: seq<Reading>, round: u64) {
    forall i :: 0 <= i < |readings| ==> readings[i].timedOut && readings[i].highest < round
  }

  lemma {:induction false} TimeOutsWithinRound(c: Clock, readings: seq<Reading>, committee: u64)
    requires InStep(c, committee) && AllTimeOuts(readings, c.round)
    requires c.step + |readings| < Proposers(committee)
    ensures DriveFrom(c, readings, committee) == Clock(c.round, c.step + |readings|)
  {
    if readings == [] {
    } else {
      TimeOutsWithinRound(c, readings[..|readings| - 1], committee);
    }
  }

  /** The round goes up with the timeout of the last proposer left, not before. */
  lemma {:induction false} TimeOutsRaiseRound(c: Clock, readings: seq<Reading>, committee: u64)
    requires InStep(c, committee)
    requires AllTimeOuts(readings, c.round)
    requires |readings| == Proposers(committee) - c.step
    ensures 1 <= |readings| <= Proposers(committee)
    ensures DriveFrom(c, readings, committee) == Clock(Inc(c.round), 0)
    ensures forall j :: 0 <= j < |readings| ==> DriveFrom(c, readings[..j], committee).round == c.round
  {
    var k := |readings|;
    TimeOutsWithinRound(c, readings[..k - 1], committee);
    forall j | 0 <= j < k ensures DriveFrom(c, readings[..j], committee).round == c.round {
      TimeOutsWithinRound(c, readings[..j], committee);
    }
  }

  ghost predicate NeverWraps(readings: seq<Reading>, committee: u64) {
    forall k :: 0 <= k < |readings| && Advances(Drive(readings[..k], committee), readings[k].highest, readings[k].timedOut)
      ==> !WrapsRound(Drive(readings[..k], committee), readings[k].highest, committee)
  }

  lemma {:induction false} NeverWrapsPrefix(readings: seq<Reading>, committee: u64)
    requires readings != [] && NeverWraps(readings, committee)
    ensures NeverWraps(readings[..|readings| - 1], committee)
    ensures var n := |readings| - 1;
            Advances(Drive(readings[..n], committee), readings[n].highest, readings[n].timedOut)
            ==> !WrapsRound(Drive(readings[..n], committee), readings[n].highest, committee)
  {
    hide Drive, WrapsRound, Advances;
    var n := |readings| - 1;
    var g := readings[..n];
    forall k | 0 <= k < |g| && Advances(Drive(g[..k], committee), g[k].highest, g[k].timedOut)
      ensures !WrapsRound(Drive(g[..k], committee), g[k].highest, committee)
    {
      assert g[..k] == readings[..k] && g[k] == readings[k];
    }
  }

  /** Over any run of ticks the clock never runs backwards, and the step is always one of the committee's. */
  lemma {:induction false} DriverMonotone(readings: seq<Reading>, committee: u64, k: nat)
    requires k <= |readings| && NeverWraps(readings, committee)
    ensures InStep(Drive(readings, committee), committee)
    ensures var c, d := Drive(readings[..k], committee), Drive(readings, committee);
            c == d || Earlier(c, d)
    decreases |readings|
  {
    if readings == [] {
      assert readings[..k] == [];
    } else {
      var n := |readings| - 1;
      var g := readings[..n];
      assert forall i :: 0 <= i <= n ==> g[..i] == readings[..i];
      assert forall i :: 0 <= i < n ==> g[i] == readings[i];
      NeverWrapsPrefix(readings, committee);
      DriverMonotone(g, committee, if k <= n then k else n);
      TickMovesForward(Drive(g, committee), readings[n].highest, readings[n].timedOut, committee);
      assert readings[..|readings|] == readings;
    }
  }

  /** The tick that entered the current round: the number of ticks up to it, 0 for the first round. */
  function Entered(readings: seq<Reading>, committee: u64): (k: nat)
    ensures k <= |readings|
  {
    if readings == [] then 0
    else
      var n := |readings| - 1;
      if EndsRound(Drive(readings[..n], committee), readings[n].highest, readings[n].timedOut, committee) then n + 1
      else Entered(readings[..n], committee)
  }

  function TimeOuts(readings: seq<Reading>): nat {
    if readings == [] then 0
    else TimeOuts(readings[..|readings| - 1]) + if readings[|readings| - 1].timedOut then 1 else 0
  }

  lemma {:induction false} TimeOutsSnoc(readings: seq<Reading>, k: nat)
    requires k < |readings|
    ensures TimeOuts(readings[k..])
            == TimeOuts(readings[..|readings| - 1][k..]) + if readings[|readings| - 1].timedOut then 1 else 0
  {
    assert readings[k..][..|readings| - 1 - k] == readings[..|readings| - 1][k..];
  }

  /**
   Over any run of ticks, wraps or not: the round stays what it was when it was entered,
   at step 0, and the step is the number of timeouts since.
   */
  lemma {:induction false} StepCountsTimeOuts(readings: seq<Reading>, committee: u64)
    ensures var c, k := Drive(readings, committee), Entered(readings, committee);
            && InStep(c, committee)
            && Drive(readings[..k], committee) == Clock(c.round, 0)
            && c.step == TimeOuts(readings[k..])
  {
    if readings == [] {
    } else {
      var n := |readings| - 1;
      var g := readings[..n];
      var k := Entered(readings, committee);
      StepCountsTimeOuts(g, committee);
      TickPlainly(Drive(g, committee), readings[n].highest, readings[n].timedOut, committee);
      if k == n + 1 {
        assert readings[..k] == readings && readings[k..] == [];
      } else {
        assert g[..k] == readings[..k];
        TimeOutsSnoc(readings, k);
      }
    }
  }

  /** Each step of the current round up to this one has had its turn since the round was entered. */
  lemma {:induction false} EveryProposerHasItsTurn(readings: seq<Reading>, committee: u64, step: u64) returns (k: nat)
    requires step <= Drive(readings, committee).step
    ensures Entered(readings, committee) <= k <= |readings|
    ensures Drive(readings[..k], committee) == Clock(Drive(readings, committee).round, step)
  {
    StepCountsTimeOuts(readings, committee);
    if step == Drive(readings, committee).step {
      k := |readings|;
      assert readings[..k] == readings;
    } else {
      var n := |readings| - 1;
      StepCountsTimeOuts(readings[..n], committee);
      TickPlainly(Drive(readings[..n], committee), readings[n].highest, readings[n].timedOut, committee);
      k := EveryProposerHasItsTurn(readings[..n], committee, step);
      assert readings[..n][..k] == readings[..k];
    }
  }

  /** Everything confirmed or accepted so far is of an earlier round. */
  ghost predicate RoundsBelow(o: Observed, round: u64) {
    && (forall k :: 0 <= k < |o.confirmations| ==> o.confirmations[k].batch.round < round)
    && (forall v :: v in o.accepted ==> v < round)
  }

  /** The highest view is above everything seen, so it decides whether a round is. */
  lemma {:induction false} BelowByView(env: Env, run: seq<Label>, round: u64)
    requires Legal(env, run) && round > 0
    ensures RoundsBelow(After(env, run).seen, round) <==> round > After(env, run).node.highest.view
  {
    hide Legal, After;
    HighestView(env, run);
  }

  /**
   A tick reads the highest view at one point of a node's run and writes the clock at a
   later one.  The round it writes is past the view it read exactly when it does not
   wrap, and then past everything confirmed or accepted up to the read; and past what
   has come in until the write exactly when it is past the highest view at that point.
   */
  lemma {:induction false} TickPassesCertificates(
    env: Env, read: seq<Label>, write: seq<Label>, c: Clock, timedOut: bool, committee: u64)
    requires Legal(env, read) && Legal(env, write) && read <= write
    ensures var w, w' := After(env, read), After(env, write);
            var highest := w.node.highest.view;
            var round := Tick(c, highest, timedOut, committee).round;
            var wraps := Advances(c, highest, timedOut) && WrapsRound(c, highest, committee);
            && (round > highest <==> !wraps)
            && (!wraps ==> RoundsBelow(w.seen, round))
            && highest <= w'.node.highest.view
            && (!wraps ==> (RoundsBelow(w'.seen, round) <==> round > w'.node.highest.view))
  {
    hide Legal, After, RoundsBelow;
    ViewMonotone(env, read, write);
    var highest := After(env, read).node.highest.view;
    var round := Tick(c, highest, timedOut, committee).round;
    if round > highest {
      BelowByView(env, read, round);
      BelowByView(env, write, round);
    }
  }
}

/** The rotary-encoder step decoder of src/encoder_pcnt.cpp: each poll turns
    one raw signed pulse-counter reading into whole UI steps, rejects EMI
    spikes, rate-limits what it emits, filters fast single-step reversals,
    and adds the result to the shared step accumulator. */
module Encoder {
  import opened Units

  const COUNTS_PER_DETENT: int := 6
  const DIR_INVERT: bool := false
  const DIR_LOCK_MS: int := 10
  const EMI_SPIKE_THRESHOLD: int := 16
  const MAX_EMIT: int := 3

  /** The four module statics the poll updates. */
  datatype State = State(accum: int, backlog: int, lastDir: int, lastStepMs: u32)

  /** The state `encoderPcntBegin` leaves behind. */
  const Reset: State := State(0, 0, 0, 0)

  /** Whole detents in a count sum and the remainder that stays in the
      accumulator: the quotient truncated toward zero, the remainder
      carrying the sign of the sum. */
  function Detents(sum: int): (r: (int, int))
    ensures sum == COUNTS_PER_DETENT * r.0 + r.1
    ensures -COUNTS_PER_DETENT < r.1 < COUNTS_PER_DETENT
    ensures sum >= 0 ==> r.1 >= 0
    ensures sum <= 0 ==> r.1 <= 0
  {
    if sum >= 0 then (sum / COUNTS_PER_DETENT, sum % COUNTS_PER_DETENT)
    else (-((-sum) / COUNTS_PER_DETENT), -((-sum) % COUNTS_PER_DETENT))
  }

  /** The four facts of `Detents` determine its result. */
  lemma {:induction false} DetentsUnique(sum: int, q: int, rem: int)
    requires sum == COUNTS_PER_DETENT * q + rem
    requires -COUNTS_PER_DETENT < rem < COUNTS_PER_DETENT
    requires sum >= 0 ==> rem >= 0
    requires sum <= 0 ==> rem <= 0
    ensures Detents(sum) == (q, rem)
  {
    var (q', rem') := Detents(sum);
    assert COUNTS_PER_DETENT * (q - q') == rem' - rem;
  }

  /** The two loops that move whole detents out of the accumulator
      (`s_encDetentAccum`), counting them in `steps`. */
  method ExtractDetents(sum: int) returns (steps: int, acc: int)
    ensures (steps, acc) == Detents(sum)
  {
    acc := sum;
    steps := 0;
    while acc >= COUNTS_PER_DETENT
      invariant sum == COUNTS_PER_DETENT * steps + acc
      invariant sum >= 0 ==> acc >= 0
      invariant sum < COUNTS_PER_DETENT ==> acc == sum
      decreases acc
    {
      steps := steps + 1;
      acc := acc - COUNTS_PER_DETENT;
    }
    while acc <= -COUNTS_PER_DETENT
      invariant sum == COUNTS_PER_DETENT * steps + acc
      invariant acc < COUNTS_PER_DETENT
      invariant sum >= 0 ==> acc >= 0
      invariant sum <= 0 ==> acc <= 0
      decreases -acc
    {
      steps := steps - 1;
      acc := acc + COUNTS_PER_DETENT;
    }
    DetentsUnique(sum, steps, acc);
  }

  /** The rate limit: the backlog clamped to [-MAX_EMIT, MAX_EMIT]. */
  function ClampEmit(backlog: int): (e: int)
    ensures Abs(e) <= MAX_EMIT
    ensures Sign(e) == Sign(backlog)
    ensures Abs(e) == if Abs(backlog) < MAX_EMIT then Abs(backlog) else MAX_EMIT
  {
    if backlog > MAX_EMIT then MAX_EMIT
    else if backlog < -MAX_EMIT then -MAX_EMIT
    else backlog
  }

  /** The bounce filter's test: a single-step emission that reverses the
      last emitted direction within the lock window. */
  predicate Bounce(s: State, emit: int, nowMs: u32)
    ensures Bounce(s, emit, nowMs) ==> emit == 1 || emit == -1
    ensures Elapsed(nowMs, s.lastStepMs) >= DIR_LOCK_MS ==> !Bounce(s, emit, nowMs)
    ensures emit == s.lastDir ==> !Bounce(s, emit, nowMs)
  {
    && DIR_LOCK_MS > 0
    && s.lastDir != 0
    && Sign(emit) != s.lastDir
    && Elapsed(nowMs, s.lastStepMs) < DIR_LOCK_MS
    && Abs(emit) == 1
  }

  /** The counts a reading contributes: none for a zero reading or a spike. */
  function AcceptedCounts(counter: int): int {
    if counter == 0 || Abs(counter) > EMI_SPIKE_THRESHOLD then 0
    else if DIR_INVERT then -counter else counter
  }

  /** What one poll leaves behind: the statics, the hardware counter and
      the amount added to the shared accumulator. */
  datatype Outcome = Outcome(state: State, counter: int, emitted: int)

  /** The part of a poll after an accepted reading `delta`: detents,
      backlog, clamp and bounce filter. Returns the new statics and the
      amount emitted. */
  function Resolved(s: State, delta: int, nowMs: u32): (r: (State, int))
    ensures COUNTS_PER_DETENT * (r.0.backlog + r.1) + r.0.accum
              == COUNTS_PER_DETENT * s.backlog + s.accum + delta
    ensures -COUNTS_PER_DETENT < r.0.accum < COUNTS_PER_DETENT
    ensures Abs(r.1) <= MAX_EMIT
  {
    var (steps, rem) := Detents(s.accum + delta);
    var backlog := s.backlog + steps;
    var emit := ClampEmit(backlog);
    if emit == 0 || Bounce(s, emit, nowMs) then
      (s.(accum := rem, backlog := backlog), 0)
    else
      (State(rem, backlog - emit, Sign(emit), nowMs), emit)
  }

  /** One `encoderPcntPoll` with valid destination references, reading
      `counter` from the hardware and `nowMs` from the clock. */
  function PollSpec(s: State, counter: int, running: bool, nowMs: u32): (o: Outcome)
    ensures o.counter == 0
    ensures Abs(o.emitted) <= MAX_EMIT
    ensures !running ==> o == Outcome(s.(accum := 0, backlog := 0), 0, 0)
    ensures running && AcceptedCounts(counter) == 0 && counter != 0 ==> o == Outcome(s, 0, 0)
    ensures running && counter == 0 ==> o == Outcome(s, 0, 0)
    ensures running && counter != 0 && Abs(counter) <= EMI_SPIKE_THRESHOLD ==>
              -COUNTS_PER_DETENT < o.state.accum < COUNTS_PER_DETENT
    ensures running ==>
      COUNTS_PER_DETENT * (o.state.backlog + o.emitted) + o.state.accum
        == COUNTS_PER_DETENT * s.backlog + s.accum + AcceptedCounts(counter)
    ensures o.emitted != 0 ==> o.state.lastDir == Sign(o.emitted) && o.state.lastStepMs == nowMs
    ensures o.emitted == 0 ==> o.state.lastDir == s.lastDir && o.state.lastStepMs == s.lastStepMs
  {
    if !running then
      Outcome(s.(accum := 0, backlog := 0), 0, 0)
    else if counter == 0 || Abs(counter) > EMI_SPIKE_THRESHOLD then
      Outcome(s, 0, 0)
    else
      var r := Resolved(s, if DIR_INVERT then -counter else counter, nowMs);
      Outcome(r.0, 0, r.1)
  }

  /** A zero reading changes nothing: a pending backlog drains only on
      polls that see motion. */
  lemma {:induction false} ZeroReadingKeepsBacklog(s: State, nowMs: u32)
    ensures PollSpec(s, 0, true, nowMs) == Outcome(s, 0, 0)
  {
  }

  /** A reading above the spike threshold clears the counter and touches
      nothing else. */
  lemma {:induction false} SpikeIsDiscarded(s: State, counter: int, nowMs: u32)
    requires Abs(counter) > EMI_SPIKE_THRESHOLD
    ensures PollSpec(s, counter, true, nowMs) == Outcome(s, 0, 0)
  {
  }

  /** The bounce filter zeroes the emission exactly when its four
      conditions hold, and then keeps the step pending in the backlog. */
  lemma {:induction false} BounceFilter(s: State, counter: int, nowMs: u32)
    requires counter != 0 && Abs(counter) <= EMI_SPIKE_THRESHOLD
    ensures var backlog := s.backlog + Detents(s.accum + counter).0;
            var emit := ClampEmit(backlog);
            var o := PollSpec(s, counter, true, nowMs);
            && (emit != 0 ==> (o.emitted == 0 <==> Bounce(s, emit, nowMs)))
            && (o.emitted == 0 ==> o.state.backlog == backlog)
            && (o.emitted != 0 ==> o.emitted == emit && o.state.backlog == backlog - emit)
  {
  }

  /** Once the lock window has elapsed, a reversal is emitted. */
  lemma {:induction false} ReversalAfterWindow(s: State, counter: int, nowMs: u32)
    requires counter != 0 && Abs(counter) <= EMI_SPIKE_THRESHOLD
    requires Elapsed(nowMs, s.lastStepMs) >= DIR_LOCK_MS
    ensures PollSpec(s, counter, true, nowMs).emitted
            == ClampEmit(s.backlog + Detents(s.accum + counter).0)
  {
  }

  /** One running poll: the reading and the clock. */
  datatype Reading = Reading(counter: int, nowMs: u32)

  /** Polls with the application running, in order: the final statics and
      the amounts emitted by each poll. */
  function Run(s: State, rs: seq<Reading>): (r: (State, seq<int>))
    ensures |r.1| == |rs|
    decreases |rs|
  {
    if rs == [] then (s, [])
    else
      var o := PollSpec(s, rs[0].counter, true, rs[0].nowMs);
      var rest := Run(o.state, rs[1..]);
      (rest.0, [o.emitted] + rest.1)
  }

  function Sum(xs: seq<int>): int
    decreases |xs|
  {
    if xs == [] then 0 else xs[0] + Sum(xs[1..])
  }

  function TotalCounts(rs: seq<Reading>): int
    decreases |rs|
  {
    if rs == [] then 0 else AcceptedCounts(rs[0].counter) + TotalCounts(rs[1..])
  }

  /** Conservation across any sequence of running polls: every accepted
      count ends up in the detent remainder, the backlog, or the shared
      accumulator. */
  lemma {:induction false} RunConserves(s: State, rs: seq<Reading>)
    ensures var r := Run(s, rs);
            COUNTS_PER_DETENT * (r.0.backlog + Sum(r.1)) + r.0.accum
              == COUNTS_PER_DETENT * s.backlog + s.accum + TotalCounts(rs)
    decreases |rs|
  {
    if rs != [] {
      var o := PollSpec(s, rs[0].counter, true, rs[0].nowMs);
      RunConserves(o.state, rs[1..]);
      var rest := Run(o.state, rs[1..]);
      assert Run(s, rs).1 == [o.emitted] + rest.1;
      assert Sum([o.emitted] + rest.1) == o.emitted + Sum(rest.1);
    }
  }

  /** Every poll of a run emits at most MAX_EMIT steps either way. */
  lemma {:induction false} RunEmitsBounded(s: State, rs: seq<Reading>)
    ensures forall i :: 0 <= i < |rs| ==> Abs(Run(s, rs).1[i]) <= MAX_EMIT
    decreases |rs|
  {
    if rs != [] {
      var o := PollSpec(s, rs[0].counter, true, rs[0].nowMs);
      RunEmitsBounded(o.state, rs[1..]);
      var e := Run(s, rs).1;
      assert e == [o.emitted] + Run(o.state, rs[1..]).1;
      forall i | 0 <= i < |rs| ensures Abs(e[i]) <= MAX_EMIT {
        if i > 0 {
          assert e[i] == Run(o.state, rs[1..]).1[i - 1];
        }
      }
    }
  }

  /** Raw deltas +6, +3, +3 emit 1, 0, 1: the second +3 completes the
      detent the first one started. */
  lemma {:induction false} SixThreeThree()
    ensures Run(Reset, [Reading(6, 100), Reading(3, 120), Reading(3, 140)]).1 == [1, 0, 1]
  {
    var o1 := PollSpec(Reset, 6, true, 100);
    assert o1 == Outcome(State(0, 0, 1, 100), 0, 1);
    var o2 := PollSpec(o1.state, 3, true, 120);
    assert o2 == Outcome(State(3, 0, 1, 100), 0, 0);
    var o3 := PollSpec(o2.state, 3, true, 140);
    assert o3 == Outcome(State(0, 0, 1, 140), 0, 1);
  }

  /** The decoder's statics, the hardware pulse counter (a signed 16-bit
      register) and the poll that drives them. */
  class Decoder {
    var counter: int
    var accum: int
    var backlog: int
    var lastDir: int
    var lastStepMs: u32

    function Model(): State
      reads this
    {
      State(accum, backlog, lastDir, lastStepMs)
    }

    constructor ()
      ensures Model() == Reset && counter == 0
    {
      counter, accum, backlog, lastDir, lastStepMs := 0, 0, 0, 0, 0;
    }

    /** `encoderPcntBegin`: clear the counter and reset every static. */
    method Begin()
      modifies this
      ensures Model() == Reset && counter == 0
    {
      counter := 0;
      accum := 0;
      backlog := 0;
      lastDir := 0;
      lastStepMs := 0;
    }

    /** The pulse counter hardware counting `n` signed quadrature edges. */
    method Count(n: int)
      modifies this`counter
      ensures counter == old(counter) + n
    {
      counter := counter + n;
    }

    /** Detent extraction, backlog, clamp and bounce filter of
      `encoderPcntPoll` for an accepted reading. */
    method ResolveDelta(delta: int, nowMs: u32) returns (emit: int)
      modifies this`accum, this`backlog, this`lastDir, this`lastStepMs
      ensures (Model(), emit) == Resolved(old(Model()), delta, nowMs)
    {
      var steps, rem := ExtractDetents(accum + delta);
      accum := rem;

      if steps != 0 {
        backlog := backlog + steps;
      }

      emit := backlog;
      if emit > MAX_EMIT {
        emit := MAX_EMIT;
      }
      if emit < -MAX_EMIT {
        emit := -MAX_EMIT;
      }
      assert emit == ClampEmit(backlog);

      if emit != 0 {
        var dir := if emit > 0 then 1 else -1;
        assert dir == Sign(emit);
        if DIR_LOCK_MS > 0 && lastDir != 0 && dir != lastDir
           && Elapsed(nowMs, lastStepMs) < DIR_LOCK_MS && Abs(emit) == 1 {
          emit := 0;
        } else {
          lastDir := dir;
          lastStepMs := nowMs;
        }
      }

      if emit != 0 {
        backlog := backlog - emit;
      }
    }

    /** `encoderPcntPoll`. A missing accumulator or lock makes it a no-op. */
    method Poll(running: bool, cell: StepAccumulator?, haveMux: bool, nowMs: u32)
      modifies this, cell
      ensures cell == null || !haveMux ==> unchanged(this) && (cell != null ==> unchanged(cell))
      ensures cell != null && haveMux ==>
        var o := PollSpec(old(Model()), old(counter), running, nowMs);
        && Model() == o.state
        && counter == o.counter
        && cell.value == old(cell.value) + o.emitted
    {
      if cell == null || !haveMux {
        return;
      }

      if !running {
        var tmp := counter;
        if tmp != 0 {
          counter := 0;
        }
        accum := 0;
        backlog := 0;
        return;
      }

      var cnt := counter;
      if cnt == 0 {
        return;
      }
      if Abs(cnt) > EMI_SPIKE_THRESHOLD {
        counter := 0;
        return;
      }
      counter := 0;

      var delta := if DIR_INVERT then -cnt else cnt;
      var emit := ResolveDelta(delta, nowMs);
      if emit != 0 {
        cell.value := cell.value + emit;
      }
    }
  }
}

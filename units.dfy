/** Machine-width integers, wraparound-safe time differences and the shared
    step accumulator used by every loop that reads the rotary encoder. */
module Units {

  const U32_MOD: int := 0x1_0000_0000

  /** An unsigned 32-bit value (uint32_t, and unsigned long on the ESP32). */
  type u32 = x: int | 0 <= x < 0x1_0000_0000

  /** An unsigned 8-bit value (uint8_t). */
  type byte = x: int | 0 <= x < 256

  function Abs(x: int): (r: nat)
    ensures r == x || r == -x
  {
    if x < 0 then -x else x
  }

  /** The direction of a nonzero step count: 1 or -1 (0 for 0). */
  function Sign(x: int): (r: int)
    ensures r * x == Abs(x)
    ensures -1 <= r <= 1 && (r == 0 <==> x == 0)
  {
    if x > 0 then 1 else if x < 0 then -1 else 0
  }

  /** `(uint32_t)(now - since)`: the forward distance from `since` to `now`
      on a clock that wraps at 2^32. */
  function Elapsed(now: u32, since: u32): (d: u32)
    ensures (since + d) % U32_MOD == now
  {
    (now - since) % U32_MOD
  }

  lemma {:induction false} ElapsedNoWrap(now: u32, since: u32)
    requires since <= now
    ensures Elapsed(now, since) == now - since
  {
  }

  lemma {:induction false} ElapsedAcrossWrap(now: u32, since: u32)
    requires now < since
    ensures Elapsed(now, since) == U32_MOD - since + now
  {
  }

  /** The `volatile int` step cell shared between the encoder poll, which
      adds to it, and the input loops, which read and zero it. Each access
      happens inside a critical section and is modelled as atomic. */
  class StepAccumulator {
    var value: int

    constructor ()
      ensures value == 0
    {
      value := 0;
    }

    /** Read-and-clear, as done by every consumer of the cell. */
    method Drain() returns (steps: int)
      modifies this
      ensures steps == old(value) && value == 0
    {
      steps := value;
      value := 0;
    }
  }
}

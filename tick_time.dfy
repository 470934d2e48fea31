/**
  The width of the stored edge time in gblink.c.

  `gblink_shift_in` reads the microsecond timer as a 64-bit value but stores it in
  the record's `time` field, declared as `TickType_t`, a 32-bit type in the
  ESP-IDF FreeRTOS port. The next edge then subtracts the truncated value from a
  full 64-bit reading. This module models that code as written and shows the
  consequence; the rest of the model stores the full 64-bit time.
*/
module TickTime {
  import opened Wrappers
  import opened GbLink

  const TickModulus: int := 0x1_0000_0000

  /** `time = curr_time` into a 32-bit field: only the low 32 bits survive. */
  function StoreTick(now: U64): (r: U64)
    ensures r < TickModulus
    ensures now < TickModulus ==> r == now
    ensures now >= TickModulus ==> r <= now - TickModulus
  {
    now % TickModulus
  }

  /** `gblink_shift_in` as written: the same step, with the new time stored truncated. */
  function ShiftInAsWritten(s: State, level: bool, now: U64): (r: (State, Option<bv8>))
    ensures r.0.time == StoreTick(now) && r.0.time < TickModulus
    // the staleness test, the shifting and the delivery are those of the intended step
    ensures r.0.(time := now) == ShiftInStep(s, level, now).0
    ensures r.1 == ShiftInStep(s, level, now).1
  {
    var (t, d) := ShiftInStep(s, level, now);
    (t.(time := StoreTick(now)), d)
  }

  /**
    Every rising edge whose previous edge came at or after 2^32 microseconds is
    judged stale by the code as written, however short the gap: the counter
    restarts at 1 on every such edge, so from the second edge after the timer
    passes 2^32 microseconds no byte is completed.
  */
  lemma AsWrittenEveryEdgeStale(s: State, level: bool, prev: U64, now: U64)
    requires s.time == StoreTick(prev)
    requires TickModulus <= prev <= now
    ensures Stale(now, s.time, s.timeoutUs)
    ensures var (t, d) := ShiftInAsWritten(s, level, now);
      t.shift == 1 && d.None? && t.time == StoreTick(now)
  {
    assert Elapsed(now, s.time) >= TickModulus;
  }

  /** A concrete case: two edges 5 microseconds apart, just after the timer passed 2^32. */
  lemma AsWrittenSpuriousTimeout(s: State, level: bool)
    requires s.time == StoreTick(0x1_0000_0005) && s.timeoutUs == DefaultTimeoutUs
    ensures !Stale(0x1_0000_000A, 0x1_0000_0005, DefaultTimeoutUs)
    ensures ShiftInAsWritten(s, level, 0x1_0000_000A).0.shift == 1
  {
    AsWrittenEveryEdgeStale(s, level, 0x1_0000_0005, 0x1_0000_000A);
  }

  /**
    With the full 64-bit time stored, an edge that follows the previous one within
    the timeout never drops the partial byte, whatever the uptime.
  */
  lemma WideTimeKeepsPartialByte(s: State, level: bool, now: U64)
    requires s.time <= now && now - s.time <= s.timeoutUs
    ensures !Stale(now, s.time, s.timeoutUs)
    ensures ShiftInStep(s, level, now) == Sample(s.(time := now), level)
    ensures ShiftInStep(s, level, now).0.time == now
  {
  }
}

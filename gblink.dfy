/**
  The bit/byte shift engine of the link-cable driver (gblink.c).

  `State` is the value held by one `struct gblink`, restricted to the fields the
  engine reads or writes; the step functions say what one call does to it, and
  the class `Link` is the record itself, whose methods update its fields in place
  and are specified by those step functions.
*/
module GbLink {
  import opened Wrappers

  /** `uint8_t`, `uint32_t` and `uint64_t` as ranges of mathematical integers. */
  type U8 = x: int | 0 <= x < 0x100
  type U32 = x: int | 0 <= x < 0x1_0000_0000
  type U64 = x: int | 0 <= x < 0x1_0000_0000_0000_0000

  const TwoTo64: int := 0x1_0000_0000_0000_0000

  /** Which side drives the clock line (an enumeration of gblink.h). */
  datatype ClkSource = ClkExternal | ClkInternal

  /** The link speed tag; it is stored and never read by the engine. */
  datatype Speed = Spd8192Hz | Spd16384Hz | Spd262144Hz | Spd524288Hz

  /** The staleness threshold and speed that allocation installs. */
  const DefaultTimeoutUs: U32 := 200
  const DefaultSpeed: Speed := Spd8192Hz

  /** The bits per byte; the shift counter wraps back to 0 when it reaches it. */
  const BitsPerByte: U8 := 8

  /** `x++` on a `uint8_t`: 255 wraps around to 0. */
  function Inc8(x: U8): (r: U8)
    ensures r == (x + 1) % 0x100
  {
    if x == 0xFF then 0 else x + 1
  }

  /** The fields of `struct gblink` that the engine reads or writes. */
  datatype State = State(
    input: bv8,         // `in`: inbound shift accumulator
    output: bv8,        // `out`: register being shifted out, MSB first
    outBuf: bv8,        // `out_buf`: the pending outbound byte
    outBufValid: bool,  // `out_buf_valid`: the pending slot is occupied
    shift: U8,          // `shift`: bits shifted in since the last byte boundary
    nobyte: bv8,        // `nobyte`: idle byte sent when nothing is pending
    source: ClkSource,
    speed: Speed,
    time: U64,          // timestamp of the last rising edge
    timeoutUs: U32      // `bitclk_timeout_us`
  )

  /** The invariant at rest: the bit counter is in 0..7 between edges. */
  predicate AtRest(s: State) {
    s.shift < BitsPerByte
  }

  /** Bit `k` of a byte, counting from the least significant bit. */
  predicate BitAt(b: bv8, k: nat)
    requires k < 8
  {
    (b >> k) & 1 == 1
  }

  /** The sampled pin level as the value or-ed into the accumulator. */
  function LevelBit(level: bool): bv8 {
    if level then 1 else 0
  }

  /** `curr_time - time` computed in unsigned 64-bit arithmetic. */
  function Elapsed(now: U64, last: U64): (r: U64)
    ensures r == (now - last) % TwoTo64
  {
    if now >= last then now - last else TwoTo64 - (last - now)
  }

  /** The staleness test of a rising edge at `now` after one at `last`. */
  predicate Stale(now: U64, last: U64, timeoutUs: U32)
  {
    Elapsed(now, last) > timeoutUs
  }

  /**
    `in <<= 1; in |= level` on an 8-bit accumulator. With `level` false it is the
    plain `out <<= 1` of the outbound register, so the shift-out path uses it too
    and shares the bit-level facts proved about it.
  */
  function ShiftBitIn(acc: bv8, level: bool): bv8 {
    (acc << 1) | LevelBit(level)
  }

  /** The timeout check that opens every rising edge: drop a stale partial byte, record the time. */
  function Resync(s: State, now: U64): (r: State)
    ensures r.time == now
    ensures Stale(now, s.time, s.timeoutUs) ==> r.input == 0 && r.shift == 0
    ensures !Stale(now, s.time, s.timeoutUs) ==> r.input == s.input && r.shift == s.shift
    ensures r.output == s.output && r.outBuf == s.outBuf && r.outBufValid == s.outBufValid &&
      r.nobyte == s.nobyte && r.source == s.source && r.speed == s.speed && r.timeoutUs == s.timeoutUs
  {
    var t := if Stale(now, s.time, s.timeoutUs) then s.(input := 0, shift := 0) else s;
    t.(time := now)
  }

  /** The byte-boundary promotion: the pending byte if there is one, else the idle byte. */
  function Promote(s: State): (r: State)
    ensures r.output == (if s.outBufValid then s.outBuf else s.nobyte)
    // the slot is always left empty, and nothing else changes
    ensures r == s.(output := r.output, outBufValid := false)
  {
    if s.outBufValid then s.(output := s.outBuf, outBufValid := false)
    else s.(output := s.nobyte)
  }

  /**
    The part of a rising edge after the timeout check: shift the sampled `level`
    in and, on the eighth bit, promote the next outbound byte and deliver the
    completed one.
  */
  function Sample(t: State, level: bool): (r: (State, Option<bv8>))
    ensures r.0.input == ShiftBitIn(t.input, level)
    // a byte is delivered exactly when the eighth bit of the current byte arrives
    ensures r.1.Some? <==> t.shift == 7
    ensures r.1.None? ==> r.0.shift == (t.shift + 1) % 0x100 && r.0.output == t.output && r.0.outBufValid == t.outBufValid
    ensures r.1.Some? ==>
      r.1.value == r.0.input && r.0.shift == 0 && !r.0.outBufValid &&
      r.0.output == (if t.outBufValid then t.outBuf else t.nobyte)
    ensures r.0.outBuf == t.outBuf && r.0.nobyte == t.nobyte && r.0.source == t.source &&
      r.0.speed == t.speed && r.0.time == t.time && r.0.timeoutUs == t.timeoutUs
  {
    var acc := ShiftBitIn(t.input, level);
    var count := Inc8(t.shift);
    if count == BitsPerByte then
      (Promote(t.(input := acc, shift := 0)), Some(acc))
    else
      (t.(input := acc, shift := count), None)
  }

  /**
    `gblink_shift_in`: a rising edge that samples `level` at time `now`. The second
    component is the byte handed to the completion callback, if one was completed.
  */
  function ShiftInStep(s: State, level: bool, now: U64): (r: (State, Option<bv8>))
    ensures AtRest(s) ==> AtRest(r.0)
    ensures r.0.time == now
    // after an idle gap the partial byte is dropped and the new bit starts a fresh one
    ensures Stale(now, s.time, s.timeoutUs) ==> r == (s.(input := LevelBit(level), shift := 1, time := now), None)
    ensures !Stale(now, s.time, s.timeoutUs) ==> r == Sample(s.(time := now), level)
  {
    Sample(Resync(s, now), level)
  }

  /** `gblink_shift_out`: a falling edge; the second component is the level driven on the data-out pin. */
  function ShiftOutStep(s: State): (r: (State, bool))
    ensures r.1 == BitAt(s.output, 7)
    ensures r.0.output == ShiftBitIn(s.output, false)
    ensures r.0 == s.(output := r.0.output)
  {
    (s.(output := s.output << 1), s.output & 0x80 != 0)
  }

  /** `gblink_transfer`: submit the next outbound byte. */
  function TransferStep(s: State, val: bv8): (r: State)
    // between bytes the value is loaded at once and the slot is emptied
    ensures s.shift == 0 ==> r.output == val && !r.outBufValid && r.outBuf == s.outBuf
    // mid-byte the byte being clocked out is untouched and the value waits in the slot
    ensures s.shift != 0 ==> r.output == s.output && r.outBufValid && r.outBuf == val
    // and it is the value the next byte boundary promotes
    ensures s.shift != 0 ==> Promote(r).output == val
    ensures r.input == s.input && r.shift == s.shift && r.nobyte == s.nobyte && r.time == s.time &&
      r.timeoutUs == s.timeoutUs && r.source == s.source && r.speed == s.speed
  {
    if s.shift == 0 then s.(output := val, outBufValid := false)
    else s.(outBuf := val, outBufValid := true)
  }

  /** What one clock interrupt did: a shift-in (and maybe a byte) or a shift-out (and the level driven). */
  datatype IsrEffect = ShiftedIn(delivered: Option<bv8>) | ShiftedOut(driven: bool)

  /** `gblink_clk_isr`: the clock level sampled at entry selects the edge. */
  function IsrStep(s: State, clkHigh: bool, serin: bool, now: U64): (r: (State, IsrEffect))
    ensures clkHigh ==> r.1.ShiftedIn? && (r.0, r.1.delivered) == ShiftInStep(s, serin, now)
    ensures !clkHigh ==> r.1.ShiftedOut? && (r.0, r.1.driven) == ShiftOutStep(s)
  {
    if clkHigh then
      var (t, d) := ShiftInStep(s, serin, now);
      (t, ShiftedIn(d))
    else
      var (t, b) := ShiftOutStep(s);
      (t, ShiftedOut(b))
  }

  /**
    The `struct gblink` record itself. Pins, the callback and its context are not
    fields here: pin levels and the current time are parameters, and the completed
    byte is returned instead of being passed to the callback.
  */
  class Link {
    var input: bv8
    var output: bv8
    var outBuf: bv8
    var outBufValid: bool
    var shift: U8
    var nobyte: bv8
    var source: ClkSource
    var speed: Speed
    var time: U64
    var timeoutUs: U32

    /** The record's fields as a value. */
    function Snapshot(): State
      reads this
    {
      State(input, output, outBuf, outBufValid, shift, nobyte, source, speed, time, timeoutUs)
    }

    /**
      `gblink_alloc`: only the clock source, speed, timeout and time are set; the
      accumulator, registers, pending slot, counter and idle byte are left as the
      allocator found them.
    */
    constructor Alloc(source: ClkSource, now: U64)
      ensures this.source == source && speed == DefaultSpeed
      ensures timeoutUs == DefaultTimeoutUs && time == now
    {
      this.source := source;
      speed := DefaultSpeed;
      timeoutUs := DefaultTimeoutUs;
      time := now;
    }

    /** `gblink_clk_source_set`: a role change also abandons any partial byte. */
    method ClkSourceSet(src: ClkSource)
      modifies this
      ensures Snapshot() == old(Snapshot()).(source := src, shift := 0)
      ensures AtRest(Snapshot())
    {
      source := src;
      shift := 0;
    }

    /** `gblink_speed_set` */
    method SpeedSet(spd: Speed)
      modifies this
      ensures Snapshot() == old(Snapshot()).(speed := spd)
    {
      speed := spd;
    }

    /** `gblink_timeout_set` */
    method TimeoutSet(us: U32)
      modifies this
      ensures Snapshot() == old(Snapshot()).(timeoutUs := us)
    {
      timeoutUs := us;
    }

    /** `gblink_nobyte_set` */
    method NobyteSet(val: bv8)
      modifies this
      ensures Snapshot() == old(Snapshot()).(nobyte := val)
    {
      nobyte := val;
    }

    /** `gblink_transfer` */
    method Transfer(val: bv8)
      modifies this
      ensures Snapshot() == TransferStep(old(Snapshot()), val)
      ensures old(shift) != 0 ==> output == old(output)
    {
      if shift == 0 {
        output := val;
        outBufValid := false;
      } else {
        outBuf := val;
        outBufValid := true;
      }
    }

    /** `gblink_shift_in`: `level` is the data-in pin, `now` the timer reading. */
    method ShiftIn(level: bool, now: U64) returns (delivered: Option<bv8>)
      modifies this
      ensures (Snapshot(), delivered) == ShiftInStep(old(Snapshot()), level, now)
      ensures AtRest(old(Snapshot())) ==> AtRest(Snapshot())
    {
      if Stale(now, time, timeoutUs) {
        input := 0;
        shift := 0;
      }
      time := now;

      input := ShiftBitIn(input, level);
      shift := Inc8(shift);
      delivered := None;
      if shift == BitsPerByte {
        shift := 0;
        // the next outbound byte is set up before the completed byte is handed out
        if outBufValid {
          output := outBuf;
          outBufValid := false;
        } else {
          output := nobyte;
        }
        delivered := Some(input);
      }
    }

    /** `gblink_shift_out`: returns the level driven on the data-out pin. */
    method ShiftOut() returns (level: bool)
      modifies this
      ensures (Snapshot(), level) == ShiftOutStep(old(Snapshot()))
    {
      level := output & 0x80 != 0;
      output := output << 1;
    }

    /** `gblink_clk_isr`: `clkHigh` is the clock level sampled at entry. */
    method ClkIsr(clkHigh: bool, serin: bool, now: U64) returns (effect: IsrEffect)
      modifies this
      ensures (Snapshot(), effect) == IsrStep(old(Snapshot()), clkHigh, serin, now)
    {
      if clkHigh {
        var d := ShiftIn(serin, now);
        effect := ShiftedIn(d);
      } else {
        var b := ShiftOut();
        effect := ShiftedOut(b);
      }
    }
  }
}

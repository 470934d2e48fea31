/**
  Sequences of clock edges fed to the engine of gblink.c, and what they add up
  to: eight rising edges assemble one byte MSB first, eight falling edges send
  one, and eight full clock periods exchange a byte in each direction.
*/
module GbLinkRuns {
  import opened Wrappers
  import opened GbLink

  /** One clock interrupt: a rising edge samples the data-in pin at a time; a falling edge does not. */
  datatype Edge = Rise(serin: bool, now: U64) | Fall

  /** The state after a run of edges, the bytes delivered and the levels driven, in order. */
  datatype Trace = Trace(final: State, received: seq<bv8>, driven: seq<bool>)

  /** The clock interrupt applied to each edge in turn. */
  function Run(s: State, edges: seq<Edge>): Trace
    decreases |edges|
  {
    if edges == [] then Trace(s, [], [])
    else
      var (t, effect) := match edges[0]
        case Rise(serin, now) => IsrStep(s, true, serin, now)
        case Fall => IsrStep(s, false, false, 0);
      var rest := Run(t, edges[1..]);
      var received := if effect.ShiftedIn? && effect.delivered.Some? then [effect.delivered.value] else [];
      var driven := if effect.ShiftedOut? then [effect.driven] else [];
      Trace(rest.final, received + rest.received, driven + rest.driven)
  }

  /** Rising edges sampling `bits` at `times`. */
  function Rises(bits: seq<bool>, times: seq<U64>): seq<Edge>
    requires |bits| == |times|
  {
    if bits == [] then [] else [Rise(bits[0], times[0])] + Rises(bits[1..], times[1..])
  }

  /** `n` falling edges. */
  function Falls(n: nat): seq<Edge> {
    if n == 0 then [] else [Fall] + Falls(n - 1)
  }

  /** Full clock periods: each falls (a bit goes out) and then rises (a bit comes in). */
  function Cycles(bits: seq<bool>, times: seq<U64>): seq<Edge>
    requires |bits| == |times|
  {
    if bits == [] then [] else [Fall, Rise(bits[0], times[0])] + Cycles(bits[1..], times[1..])
  }

  /** Every rising edge at `times` follows the previous one (the first follows `last`) within the timeout. */
  predicate Prompt(last: U64, timeoutUs: U32, times: seq<U64>)
    decreases |times|
  {
    times == [] || (!Stale(times[0], last, timeoutUs) && Prompt(times[0], timeoutUs, times[1..]))
  }

  /** The time of the last edge in `times`, or `last` if there is none. */
  function LastTime(last: U64, times: seq<U64>): U64 {
    if times == [] then last else times[|times| - 1]
  }

  /** The accumulator after shifting `bits` into `acc`, first bit first. */
  function Shifted(acc: bv8, bits: seq<bool>): bv8
    decreases |bits|
  {
    if bits == [] then acc else Shifted(ShiftBitIn(acc, bits[0]), bits[1..])
  }

  /** The byte whose bits, most significant first, are `bits`. */
  function Pack(bits: seq<bool>): bv8 {
    Shifted(0, bits)
  }

  /** The bits of a byte, most significant first. */
  function Unpack(b: bv8): seq<bool> {
    seq(8, i requires 0 <= i < 8 => BitAt(b, 7 - i))
  }

  /** The levels `n` shift-outs drive, starting from register `o`. */
  function Emitted(o: bv8, n: nat): seq<bool>
    decreases n
  {
    if n == 0 then [] else [BitAt(o, 7)] + Emitted(ShiftBitIn(o, false), n - 1)
  }

  // ----- Timing -----

  /** An edge is stale exactly when the gap since the previous one, taken modulo 2^64, exceeds the timeout. */
  lemma StaleIsWrappedGap(now: U64, last: U64, timeoutUs: U32)
    ensures Stale(now, last, timeoutUs) <==> (now - last) % TwoTo64 > timeoutUs
  {
  }

  // ----- Bit-level facts -----

  lemma ShiftBitInAt(acc: bv8, level: bool, k: nat)
    requires k < 8
    ensures BitAt(ShiftBitIn(acc, level), k) == if k == 0 then level else BitAt(acc, k - 1)
  {
    var r := ShiftBitIn(acc, level);
    if k > 0 {
      assert (r >> k) & 1 == ((r >> 1) >> (k - 1)) & 1;
    }
  }

  /** Two bytes that agree on every bit are equal. */
  lemma BitsDetermineByte(a: bv8, b: bv8)
    requires forall k :: 0 <= k < 8 ==> BitAt(a, k) == BitAt(b, k)
    ensures a == b
  {
    assert BitAt(a, 0) == BitAt(b, 0) && BitAt(a, 1) == BitAt(b, 1);
    assert BitAt(a, 2) == BitAt(b, 2) && BitAt(a, 3) == BitAt(b, 3);
    assert BitAt(a, 4) == BitAt(b, 4) && BitAt(a, 5) == BitAt(b, 5);
    assert BitAt(a, 6) == BitAt(b, 6) && BitAt(a, 7) == BitAt(b, 7);
  }

  /** After shifting in `bits`, the last bit is bit 0 and the older contents sit above them. */
  lemma {:induction false} ShiftedAt(acc: bv8, bits: seq<bool>, k: nat)
    requires |bits| <= 8 && k < 8
    ensures BitAt(Shifted(acc, bits), k) ==
      if k < |bits| then bits[|bits| - 1 - k] else BitAt(acc, k - |bits|)
    decreases |bits|
  {
    if bits != [] {
      var acc' := ShiftBitIn(acc, bits[0]);
      ShiftedAt(acc', bits[1..], k);
      if k >= |bits| - 1 {
        ShiftBitInAt(acc, bits[0], k - (|bits| - 1));
      }
    }
  }

  /** Eight shifted-in bits push out whatever the accumulator held. */
  lemma ShiftedForgets(acc: bv8, bits: seq<bool>)
    requires |bits| == 8
    ensures Shifted(acc, bits) == Pack(bits)
  {
    forall k | 0 <= k < 8
      ensures BitAt(Shifted(acc, bits), k) == BitAt(Pack(bits), k)
    {
      ShiftedAt(acc, bits, k);
      ShiftedAt(0, bits, k);
    }
    BitsDetermineByte(Shifted(acc, bits), Pack(bits));
  }

  /** Packing eight bits MSB first and reading them back gives the same bits. */
  lemma UnpackPack(bits: seq<bool>)
    requires |bits| == 8
    ensures Unpack(Pack(bits)) == bits
  {
    forall i | 0 <= i < 8
      ensures Unpack(Pack(bits))[i] == bits[i]
    {
      ShiftedAt(0, bits, 7 - i);
    }
  }

  /** Reading a byte's bits MSB first and packing them gives the byte back. */
  lemma PackUnpack(b: bv8)
    ensures Pack(Unpack(b)) == b
  {
    forall k | 0 <= k < 8
      ensures BitAt(Pack(Unpack(b)), k) == BitAt(b, k)
    {
      ShiftedAt(0, Unpack(b), k);
    }
    BitsDetermineByte(Pack(Unpack(b)), b);
  }

  /** Shifting a byte left by one moves every bit one place towards the MSB. */
  lemma UnpackShiftLeft(o: bv8, m: nat)
    requires m <= 7
    ensures Unpack(ShiftBitIn(o, false))[..m] == Unpack(o)[1..m + 1]
  {
    forall j: nat | j < 7
      ensures BitAt(o, j) == BitAt(ShiftBitIn(o, false), j + 1)
    {
      ShiftBitInAt(o, false, j + 1);
    }
  }

  lemma {:induction false} PromptPrefix(last: U64, timeoutUs: U32, times: seq<U64>, k: nat)
    requires k <= |times| && Prompt(last, timeoutUs, times)
    ensures Prompt(last, timeoutUs, times[..k])
    decreases k
  {
    if k > 0 {
      PromptPrefix(times[0], timeoutUs, times[1..], k - 1);
      assert times[..k][1..] == times[1..][..k - 1];
    }
  }

  // ----- Runs of edges -----

  /** A run that starts with a rising edge: a shift-in, then the rest of the run. */
  lemma RunRiseFirst(s: State, b: bool, t: U64, rest: seq<Edge>)
    ensures var (u, d) := ShiftInStep(s, b, t);
      var tr := Run(u, rest);
      Run(s, [Rise(b, t)] + rest) == Trace(tr.final, (if d.Some? then [d.value] else []) + tr.received, tr.driven)
  {
    assert ([Rise(b, t)] + rest)[1..] == rest;
  }

  /** A run that starts with a falling edge: a shift-out, then the rest of the run. */
  lemma RunFallFirst(s: State, rest: seq<Edge>)
    ensures var (u, level) := ShiftOutStep(s);
      var tr := Run(u, rest);
      Run(s, [Fall] + rest) == Trace(tr.final, tr.received, [level] + tr.driven)
  {
    assert ([Fall] + rest)[1..] == rest;
  }

  /** A prompt rising edge inside a byte only accumulates the bit. */
  lemma RiseWithinByte(s: State, b: bool, now: U64)
    requires s.shift < 7 && !Stale(now, s.time, s.timeoutUs)
    ensures ShiftInStep(s, b, now) ==
      (s.(input := ShiftBitIn(s.input, b), shift := s.shift + 1, time := now), None)
  {
  }

  /** A prompt rising edge that completes a byte promotes the next outbound byte and delivers the byte. */
  lemma RiseAtBoundary(s: State, b: bool, now: U64)
    requires s.shift == 7 && !Stale(now, s.time, s.timeoutUs)
    ensures ShiftInStep(s, b, now) ==
      (Promote(s.(input := ShiftBitIn(s.input, b), shift := 0, time := now)), Some(ShiftBitIn(s.input, b)))
  {
  }

  /** A run that starts with a prompt rising edge inside a byte continues from the accumulated state. */
  lemma RunRiseWithinByte(s: State, b: bool, now: U64, rest: seq<Edge>)
    requires s.shift < 7 && !Stale(now, s.time, s.timeoutUs)
    ensures Run(s, [Rise(b, now)] + rest) ==
      Run(s.(input := ShiftBitIn(s.input, b), shift := s.shift + 1, time := now), rest)
  {
    RiseWithinByte(s, b, now);
    RunRiseFirst(s, b, now, rest);
  }

  /** The run of the single rising edge that completes a byte. */
  lemma RiseCompletesByte(s: State, b: bool, now: U64)
    requires s.shift == 7 && !Stale(now, s.time, s.timeoutUs)
    ensures Run(s, Rises([b], [now])) == Trace(
      Promote(s.(input := Shifted(s.input, [b]), shift := 0, time := LastTime(s.time, [now]))),
      [Shifted(s.input, [b])], [])
  {
    RiseAtBoundary(s, b, now);
    RunRiseFirst(s, b, now, []);
    assert Rises([b], [now]) == [Rise(b, now)] + [];
    assert Shifted(s.input, [b]) == ShiftBitIn(s.input, b);
  }

  /** The bit counter stays in 0..7 whatever edges arrive. */
  lemma {:induction false} RunKeepsAtRest(s: State, edges: seq<Edge>)
    requires AtRest(s)
    ensures AtRest(Run(s, edges).final)
    decreases |edges|
  {
    if edges != [] {
      var (t, _) := match edges[0]
        case Rise(serin, now) => IsrStep(s, true, serin, now)
        case Fall => IsrStep(s, false, false, 0);
      RunKeepsAtRest(t, edges[1..]);
    }
  }

  /** Rising edges that stay within the current byte only accumulate bits. */
  lemma {:induction false} RisesWithinByte(s: State, bits: seq<bool>, times: seq<U64>)
    requires |bits| == |times| && s.shift + |bits| <= 7
    requires Prompt(s.time, s.timeoutUs, times)
    ensures var tr := Run(s, Rises(bits, times));
      tr.received == [] && tr.driven == [] &&
      tr.final.shift == s.shift + |bits| &&
      tr.final == s.(input := Shifted(s.input, bits), shift := tr.final.shift, time := LastTime(s.time, times))
    decreases |bits|
  {
    if bits != [] {
      var t := s.(input := ShiftBitIn(s.input, bits[0]), shift := s.shift + 1, time := times[0]);
      RunRiseWithinByte(s, bits[0], times[0], Rises(bits[1..], times[1..]));
      RisesWithinByte(t, bits[1..], times[1..]);
      assert Shifted(t.input, bits[1..]) == Shifted(s.input, bits);
      assert LastTime(t.time, times[1..]) == LastTime(s.time, times);
    }
  }

  /** The rising edge that completes a byte promotes the next outbound byte and delivers the accumulator. */
  lemma {:induction false} RisesToBoundary(s: State, bits: seq<bool>, times: seq<U64>)
    requires |bits| == |times| && 1 <= |bits| && s.shift + |bits| == 8
    requires Prompt(s.time, s.timeoutUs, times)
    ensures Run(s, Rises(bits, times)) == Trace(
      Promote(s.(input := Shifted(s.input, bits), shift := 0, time := LastTime(s.time, times))),
      [Shifted(s.input, bits)], [])
    decreases |bits|
  {
    if |bits| == 1 {
      assert bits == [bits[0]] && times == [times[0]];
      RiseCompletesByte(s, bits[0], times[0]);
    } else {
      var t := s.(input := ShiftBitIn(s.input, bits[0]), shift := s.shift + 1, time := times[0]);
      RunRiseWithinByte(s, bits[0], times[0], Rises(bits[1..], times[1..]));
      RisesToBoundary(t, bits[1..], times[1..]);
      assert Shifted(t.input, bits[1..]) == Shifted(s.input, bits);
      assert LastTime(t.time, times[1..]) == LastTime(s.time, times);
    }
  }

  /**
    From a byte boundary, eight prompt rising edges deliver exactly one byte, the
    sampled bits MSB first, and leave the counter at 0; the first seven deliver none.
  */
  lemma ReceiveByte(s: State, bits: seq<bool>, times: seq<U64>)
    requires s.shift == 0 && |bits| == 8 && |times| == 8
    requires Prompt(s.time, s.timeoutUs, times)
    ensures var tr := Run(s, Rises(bits, times));
      tr.received == [Pack(bits)] && Unpack(tr.received[0]) == bits && tr.driven == [] &&
      tr.final.shift == 0 && !tr.final.outBufValid &&
      tr.final.output == (if s.outBufValid then s.outBuf else s.nobyte)
    ensures forall k :: 0 <= k < 8 ==> Run(s, Rises(bits[..k], times[..k])).received == []
  {
    RisesToBoundary(s, bits, times);
    ShiftedForgets(s.input, bits);
    UnpackPack(bits);
    forall k | 0 <= k < 8
      ensures Run(s, Rises(bits[..k], times[..k])).received == []
    {
      PromptPrefix(s.time, s.timeoutUs, times, k);
      RisesWithinByte(s, bits[..k], times[..k]);
    }
  }

  /**
    An idle gap longer than the timeout before the first of eight rising edges
    discards whatever partial byte was held: the byte delivered is made of the
    eight new bits only.
  */
  lemma ResyncDropsPartialByte(s: State, bits: seq<bool>, times: seq<U64>)
    requires |bits| == 8 && |times| == 8
    requires Stale(times[0], s.time, s.timeoutUs)
    requires Prompt(times[0], s.timeoutUs, times[1..])
    ensures var tr := Run(s, Rises(bits, times));
      tr.received == [Pack(bits)] && tr.final.shift == 0
  {
    var t := ShiftInStep(s, bits[0], times[0]).0;
    assert t.input == ShiftBitIn(0, bits[0]) && t.shift == 1;
    RisesToBoundary(t, bits[1..], times[1..]);
  }

  /** `n` zero bits. */
  function Zeros(n: nat): seq<bool> {
    seq(n, i => false)
  }

  /**
    `n` falling edges drive the register's top `n` bits, MSB first, shift it up by
    `n` places with zeros entering at the bottom, and touch nothing else.
  */
  lemma {:induction false} FallsShiftOut(s: State, n: nat)
    requires n <= 8
    ensures Run(s, Falls(n)) == Trace(s.(output := Shifted(s.output, Zeros(n))), [], Emitted(s.output, n))
    decreases n
  {
    if n > 0 {
      var o := s.output;
      var t := s.(output := ShiftBitIn(o, false));
      assert ShiftOutStep(s) == (t, BitAt(o, 7));
      RunFallFirst(s, Falls(n - 1));
      FallsShiftOut(t, n - 1);
      assert Zeros(n)[1..] == Zeros(n - 1);
    }
  }

  /** What the shift-outs drive is the register's bits, MSB first. */
  lemma {:induction false} EmittedIsUnpack(o: bv8, n: nat)
    requires n <= 8
    ensures Emitted(o, n) == Unpack(o)[..n]
    decreases n
  {
    if n > 0 {
      EmittedIsUnpack(ShiftBitIn(o, false), n - 1);
      UnpackShiftLeft(o, n - 1);
    }
  }

  /** Eight shift-outs drive the whole register, MSB first. */
  lemma EmittedByte(o: bv8)
    ensures Emitted(o, 8) == Unpack(o)
  {
    EmittedIsUnpack(o, 8);
    assert Unpack(o)[..8] == Unpack(o);
  }

  /** Eight falling edges send the outbound register MSB first, and deliver nothing. */
  lemma SendByte(s: State)
    ensures Run(s, Falls(8)).driven == Unpack(s.output)
    ensures Run(s, Falls(8)).received == []
  {
    FallsShiftOut(s, 8);
    EmittedByte(s.output);
  }

  /** After eight falling edges the register is 0 and nothing else has changed. */
  lemma SendByteClearsRegister(s: State)
    ensures Run(s, Falls(8)).final == s.(output := 0)
  {
    FallsShiftOut(s, 8);
    ShiftedForgets(s.output, Zeros(8));
    PackZeros();
  }

  lemma PackZeros()
    ensures Pack(Zeros(8)) == 0
  {
    forall k | 0 <= k < 8
      ensures BitAt(Pack(Zeros(8)), k) == BitAt(0, k)
    {
      ShiftedAt(0, Zeros(8), k);
    }
    BitsDetermineByte(Pack(Zeros(8)), 0);
  }

  /** One clock period inside a byte: a bit goes out, a bit comes in, nothing is delivered. */
  lemma CycleWithinByte(s: State, b: bool, now: U64, rest: seq<Edge>)
    requires s.shift < 7 && !Stale(now, s.time, s.timeoutUs)
    ensures var t := s.(output := ShiftBitIn(s.output, false), input := ShiftBitIn(s.input, b),
                        shift := s.shift + 1, time := now);
      var tr := Run(t, rest);
      Run(s, [Fall, Rise(b, now)] + rest) == Trace(tr.final, tr.received, [BitAt(s.output, 7)] + tr.driven)
  {
    var u := s.(output := ShiftBitIn(s.output, false));
    assert ShiftOutStep(s) == (u, BitAt(s.output, 7));
    assert [Fall, Rise(b, now)] + rest == [Fall] + ([Rise(b, now)] + rest);
    RunFallFirst(s, [Rise(b, now)] + rest);
    RunRiseFirst(u, b, now, rest);
    RiseWithinByte(u, b, now);
  }

  /** The clock period that completes a byte: the last bit goes out, the byte is delivered. */
  lemma CycleAtBoundary(s: State, b: bool, now: U64)
    requires s.shift == 7 && !Stale(now, s.time, s.timeoutUs)
    ensures Run(s, [Fall, Rise(b, now)]) == Trace(
      Promote(s.(input := ShiftBitIn(s.input, b), shift := 0, time := now)),
      [ShiftBitIn(s.input, b)], [BitAt(s.output, 7)])
  {
    var u := s.(output := ShiftBitIn(s.output, false));
    assert ShiftOutStep(s) == (u, BitAt(s.output, 7));
    assert [Fall, Rise(b, now)] == [Fall] + ([Rise(b, now)] + []);
    RunFallFirst(s, [Rise(b, now)]);
    RunRiseFirst(u, b, now, []);
    RiseAtBoundary(u, b, now);
    var t := s.(input := ShiftBitIn(s.input, b), shift := 0, time := now);
    assert Promote(t.(output := u.output)) == Promote(t);
  }

  /** Full clock periods up to the byte boundary: one bit out and one bit in per period. */
  lemma {:induction false} CyclesToBoundary(s: State, bits: seq<bool>, times: seq<U64>)
    requires |bits| == |times| && 1 <= |bits| && s.shift + |bits| == 8
    requires Prompt(s.time, s.timeoutUs, times)
    ensures Run(s, Cycles(bits, times)) == Trace(
      Promote(s.(input := Shifted(s.input, bits), shift := 0, time := LastTime(s.time, times))),
      [Shifted(s.input, bits)], Emitted(s.output, |bits|))
    decreases |bits|
  {
    if |bits| == 1 {
      assert Cycles(bits, times) == [Fall, Rise(bits[0], times[0])];
      CycleAtBoundary(s, bits[0], times[0]);
    } else {
      var rest := Cycles(bits[1..], times[1..]);
      assert Cycles(bits, times) == [Fall, Rise(bits[0], times[0])] + rest;
      CycleWithinByte(s, bits[0], times[0], rest);
      var t := s.(output := ShiftBitIn(s.output, false), input := ShiftBitIn(s.input, bits[0]),
                  shift := s.shift + 1, time := times[0]);
      assert Prompt(t.time, t.timeoutUs, times[1..]);
      CyclesToBoundary(t, bits[1..], times[1..]);
      assert Shifted(t.input, bits[1..]) == Shifted(s.input, bits);
      assert LastTime(t.time, times[1..]) == LastTime(s.time, times);
      var p := t.(input := Shifted(s.input, bits), shift := 0, time := LastTime(s.time, times));
      assert Promote(p) == Promote(s.(input := Shifted(s.input, bits), shift := 0, time := LastTime(s.time, times)));
    }
  }

  /**
    Eight full clock periods from a byte boundary exchange one byte each way: the
    outbound register goes out MSB first, the sampled bits come back as one byte,
    and the next outbound byte is the pending one if there was one, else the idle byte.
  */
  lemma ExchangeByte(s: State, bits: seq<bool>, times: seq<U64>)
    requires s.shift == 0 && |bits| == 8 && |times| == 8
    requires Prompt(s.time, s.timeoutUs, times)
    ensures var tr := Run(s, Cycles(bits, times));
      tr.driven == Unpack(s.output) && tr.received == [Pack(bits)] &&
      tr.final.shift == 0 && !tr.final.outBufValid &&
      tr.final.output == (if s.outBufValid then s.outBuf else s.nobyte)
  {
    CyclesToBoundary(s, bits, times);
    EmittedByte(s.output);
    ShiftedForgets(s.input, bits);
  }

  // ----- Submitting outbound bytes -----

  /** Of two submissions without a byte boundary between them, only the second survives. */
  lemma TransferLastWriterWins(s: State, a: bv8, b: bv8)
    ensures TransferStep(TransferStep(s, a), b) == TransferStep(s, b)
  {
  }

  /** A byte submitted between bytes is the one the next eight falling edges send, MSB first. */
  lemma SubmitBetweenBytes(s: State, v: bv8, bits: seq<bool>, times: seq<U64>)
    requires s.shift == 0 && |bits| == 8 && |times| == 8
    requires Prompt(s.time, s.timeoutUs, times)
    ensures Run(TransferStep(s, v), [Fall]).driven == [BitAt(v, 7)]
    ensures Run(TransferStep(s, v), Cycles(bits, times)).driven == Unpack(v)
  {
    ExchangeByte(TransferStep(s, v), bits, times);
  }

  /**
    A byte submitted mid-byte leaves the byte being clocked out alone and becomes
    the outbound register at the next boundary.
  */
  lemma SubmitMidByte(s: State, v: bv8, bits: seq<bool>, times: seq<U64>)
    requires AtRest(s) && s.shift != 0 && |bits| == |times| && s.shift + |bits| == 8
    requires Prompt(s.time, s.timeoutUs, times)
    ensures var before := Run(s, Cycles(bits, times));
      var after := Run(TransferStep(s, v), Cycles(bits, times));
      after.driven == before.driven && after.received == before.received &&
      after.final.output == v && !after.final.outBufValid
  {
    CyclesToBoundary(s, bits, times);
    CyclesToBoundary(TransferStep(s, v), bits, times);
  }

  /** Two mid-byte submissions: the second value is the one sent after the boundary, the first is lost. */
  lemma TwoSubmitsMidByte(s: State, a: bv8, b: bv8, bits: seq<bool>, times: seq<U64>)
    requires AtRest(s) && s.shift != 0 && |bits| == |times| && s.shift + |bits| == 8
    requires Prompt(s.time, s.timeoutUs, times)
    ensures Run(TransferStep(TransferStep(s, a), b), Cycles(bits, times)).final.output == b
  {
    TransferLastWriterWins(s, a, b);
    SubmitMidByte(s, b, bits, times);
  }

  /**
    A worked example: idle byte 0xFF, timeout 200 us, rising
    edges sampling 1,0,1,0,1,0,1,0 within the timeout and nothing submitted. The byte
    delivered is 0xAA and the next outbound byte is the idle byte; a 0x3C submitted
    from the completion callback is then sent as 0,0,1,1,1,1,0,0.
  */
  lemma IdleByteScenario(s: State, times: seq<U64>)
    requires s.shift == 0 && !s.outBufValid && s.nobyte == 0xFF && s.timeoutUs == DefaultTimeoutUs
    requires |times| == 8 && Prompt(s.time, s.timeoutUs, times)
    ensures var tr := Run(s, Rises([true, false, true, false, true, false, true, false], times));
      tr.received == [0xAA] && tr.final.output == 0xFF &&
      Run(TransferStep(tr.final, 0x3C), Falls(8)).driven == [false, false, true, true, true, true, false, false]
  {
    var bits := [true, false, true, false, true, false, true, false];
    ReceiveByte(s, bits, times);
    PackAlternating();
    var tr := Run(s, Rises(bits, times));
    var u := TransferStep(tr.final, 0x3C);
    assert u.output == 0x3C;
    SendByte(u);
    UnpackSubmitted();
  }

  lemma UnpackSubmitted()
    ensures Unpack(0x3C) == [false, false, true, true, true, true, false, false]
  {
  }

  lemma PackAlternating()
    ensures Pack([true, false, true, false, true, false, true, false]) == 0xAA
  {
    assert Unpack(0xAA) == [true, false, true, false, true, false, true, false];
    PackUnpack(0xAA);
  }
}

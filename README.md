# gblink shift engine in Dafny

A model of the bit/byte shift engine of the ESP32 link-cable driver `gblink.c`. The driver
serves a handheld-console link cable: one clock line plus a data-in line and a data-out line.
Every clock edge raises one interrupt. On a rising edge the driver samples data-in into an 8-bit
accumulator, counts the bit and, on the eighth bit, hands the completed byte to a callback. On a
falling edge it drives the most significant bit of its outbound register and shifts that register
left. Bytes travel MSB first, with no framing; an idle gap longer than a timeout (200 us by
default) resynchronises the receiver by discarding a partial byte. Application code submits the
next outbound byte with `gblink_transfer`: it takes effect at once between bytes, and mid-byte it
waits in a one-slot buffer until the next byte boundary. When nothing was submitted, the idle
byte (`nobyte`) goes out.

Files:

- `wrappers.dfy`: the `Option` type used for "a byte was completed, or not".
- `gblink.dfy` (module `GbLink`): `State`, the fields of `struct gblink` that the engine uses, as a
  value. It also holds the step functions that specify each operation (`ShiftInStep`, `Sample`,
  `ShiftOutStep`, `TransferStep`, `IsrStep`) and the class `Link`, the record itself. The
  methods of `Link` update its fields in place and are proved equal to the step functions.
- `gblink_runs.dfy` (module `GbLinkRuns`): runs of clock edges fed through the interrupt handler,
  MSB-first packing (`Pack`) and unpacking (`Unpack`) of bytes, and the lemmas about several
  edges: receiving, sending and exchanging a byte, resynchronisation, and submitting bytes.
- `tick_time.dfy` (module `TickTime`): the stored edge time as the code declares it, 32 bits
  wide, and what follows from that (see Findings).

Modelling choices:

- Bytes are `bv8`, so `in <<= 1` and `out <<= 1` drop the top bit as `uint8_t` does.
- The bit counter is an integer in 0..255, and `Inc8` wraps 255 to 0. The record is not zeroed
  on allocation, so the counter may start at any value.
- Times are 64-bit; `Elapsed` is the unsigned 64-bit difference.
- The sampled data-in and clock levels and the timer reading are parameters. The level driven on
  data-out and the completed byte are results. The completed byte is returned instead of being
  passed to the callback. The promotion happens before the byte is handed out. So a
  `Transfer` called after `ShiftIn` returns acts like one made from inside the callback.
- `Link.Alloc` assigns only the fields `gblink_alloc` assigns: source, speed, timeout and time.
  The accumulator, both outbound registers, the pending flag, the counter and the idle byte are
  left arbitrary, because `malloc` does not zero them. Lemmas that need a byte boundary require
  `shift == 0` explicitly.
- `gblink.h` is not part of this model. Its clock-source enumeration is modelled as
  `ClkExternal | ClkInternal`. Its speed enumeration is modelled as the four link-cable rates;
  only the 8192 Hz one is named in `gblink.c`.

## Model

| member | source | states |
|---|---|---|
| `GbLink.Inc8` | gblink.c:112 | `shift++` on a `uint8_t` is the increment modulo 256 |
| `GbLink.Elapsed` | gblink.c:104 | `curr_time - time` is the difference modulo 2^64, so a reading below the stored time wraps to a large gap |
| `GbLinkRuns.StaleIsWrappedGap` | gblink.c:104 | an edge is stale exactly when that wrapped difference exceeds the timeout |
| `GbLinkRuns.ShiftBitInAt` | gblink.c:110-111 | shifting a sampled level into the accumulator makes it bit 0, moves each old bit k to k+1 and loses the old bit 7 |
| `GbLink.Resync` | gblink.c:102-108 | the edge time is always recorded; a stale edge clears the accumulator and the counter, and a prompt one keeps them; nothing else changes |
| `GbLink.Promote` | gblink.c:126-131 | the outbound register becomes the pending byte if the slot is full, else the idle byte; the slot is left empty and nothing else changes |
| `GbLink.Sample` | gblink.c:110-133 | after the timeout check, the sampled bit enters at the least significant place; a byte is delivered exactly when the counter was 7; then the counter returns to 0 and the byte equals the accumulator; the outbound register becomes the pending byte if the slot was full, else the idle byte; the slot is left empty; with no boundary the counter goes up by one and the register and slot are unchanged; the pending byte, idle byte, configuration and time are never touched |
| `GbLink.ShiftInStep` | gblink.c:100-134 | a rising edge keeps the counter in 0..7 and records the edge time whether or not the timeout fired; after a gap longer than the timeout the partial byte is dropped, so the accumulator holds only the new bit, the counter is 1, nothing is delivered and nothing else changes; otherwise it is `Sample` on the state with the new time |
| `GbLink.ShiftOutStep` | gblink.c:136-140 | a falling edge drives bit 7 of the outbound register and shifts it up by one with a 0 entering at the bottom; every other field is unchanged |
| `GbLink.TransferStep` | gblink.c:62-92 | between bytes (counter 0) the value becomes the outbound register at once and the slot is marked empty; mid-byte the register being clocked out is unchanged, the value waits in the slot, and it is what the next boundary promotes; the accumulator, counter, idle byte, time and configuration are unchanged |
| `GbLink.IsrStep` | gblink.c:142-152 | with the clock high the interrupt does exactly a shift-in; with it low, exactly a shift-out |
| `GbLink.Link.Alloc` | gblink.c:154-173 | allocation sets the clock source given, the 8192 Hz speed, the 200 us timeout and the current time, and nothing else |
| `GbLink.Link.ClkSourceSet` | gblink.c:39-45 | sets the clock source and forces the counter to 0, so a partial byte is abandoned; nothing else changes |
| `GbLink.Link.SpeedSet` | gblink.c:47-52 | changes only the speed |
| `GbLink.Link.TimeoutSet` | gblink.c:54-60 | changes only the timeout |
| `GbLink.Link.NobyteSet` | gblink.c:94-98 | changes only the idle byte |
| `GbLink.Link.Transfer` | gblink.c:62-92 | updates the record exactly as `TransferStep`; mid-byte the register being sent is untouched |
| `GbLink.Link.ShiftIn` | gblink.c:100-134 | updates the record and returns the completed byte exactly as `ShiftInStep`; keeps the counter in 0..7 |
| `GbLink.Link.ShiftOut` | gblink.c:136-140 | updates the record and returns the driven level exactly as `ShiftOutStep` |
| `GbLink.Link.ClkIsr` | gblink.c:142-152 | updates the record and reports the effect exactly as `IsrStep` |
| `GbLinkRuns.RiseWithinByte` | gblink.c:102-117 | a prompt rising edge with the counter below 7 only shifts the bit in, counts it and records the time |
| `GbLinkRuns.RiseAtBoundary` | gblink.c:110-132 | a prompt rising edge with the counter at 7 resets it, promotes the next outbound byte and delivers the accumulator |
| `GbLinkRuns.RunKeepsAtRest` | gblink.c:112-117 | over any sequence of clock edges, a counter in 0..7 stays in 0..7 |
| `GbLinkRuns.RisesWithinByte` | gblink.c:110-117 | prompt rising edges that stay inside a byte deliver nothing, count the bits and shift them into the accumulator in order |
| `GbLinkRuns.RisesToBoundary` | gblink.c:110-132 | prompt rising edges that reach the eighth bit deliver exactly one byte, the accumulated bits, and leave the counter at 0 with the next outbound byte promoted |
| `GbLinkRuns.ShiftedForgets` | gblink.c:110-111 | eight shifted-in bits push out everything the accumulator held before |
| `GbLinkRuns.UnpackPack` | gblink.c:110-111 | packing eight bits MSB first and reading them back MSB first returns them |
| `GbLinkRuns.PackUnpack` | gblink.c:138-139 | reading a byte MSB first and packing the bits returns the byte |
| `GbLinkRuns.ReceiveByte` | gblink.c:100-134 | from counter 0, eight rising edges inside the timeout deliver exactly one byte, whose bits MSB first are the sampled bits; the counter ends at 0 and the next outbound byte is the pending one, else the idle byte; the first seven edges deliver nothing |
| `GbLinkRuns.ResyncDropsPartialByte` | gblink.c:102-108 | if the first of eight rising edges comes after a gap longer than the timeout, whatever partial byte was held is discarded; the byte delivered consists of the eight new bits only |
| `GbLinkRuns.FallsShiftOut` | gblink.c:136-140 | up to eight falling edges drive the top bits of the outbound register in order, deliver nothing and change only that register |
| `GbLinkRuns.EmittedIsUnpack` | gblink.c:138-139 | the levels driven by `n` shift-outs are the register's first `n` bits, MSB first |
| `GbLinkRuns.EmittedByte` | gblink.c:138-139 | eight shift-outs drive the register's bits, MSB first |
| `GbLinkRuns.SendByte` | gblink.c:136-140 | eight falling edges send the outbound register MSB first and deliver nothing |
| `GbLinkRuns.SendByteClearsRegister` | gblink.c:139 | after eight falling edges the register is 0 and no other field has changed |
| `GbLinkRuns.CycleWithinByte` | gblink.c:142-152 | one clock period inside a byte sends one bit and receives one bit, and delivers nothing |
| `GbLinkRuns.CycleAtBoundary` | gblink.c:116-132 | the clock period that completes a byte sends its last bit, delivers the byte and promotes the next outbound byte |
| `GbLinkRuns.CyclesToBoundary` | gblink.c:142-152 | full clock periods up to the byte boundary send the register's top bits and deliver the accumulated byte once |
| `GbLinkRuns.ExchangeByte` | gblink.c:100-152 | eight full clock periods from counter 0 exchange a byte in each direction: the outbound register goes out MSB first and the sampled bits come back as one byte; the counter ends at 0 and the next outbound byte is the pending one, else the idle byte |
| `GbLinkRuns.TransferLastWriterWins` | gblink.c:81-91 | two submissions in a row have the effect of the second alone |
| `GbLinkRuns.SubmitBetweenBytes` | gblink.c:85-87 | a byte submitted at counter 0 is what the next falling edge starts sending (its bit 7), and the next eight clock periods send it whole |
| `GbLinkRuns.SubmitMidByte` | gblink.c:88-91 | a byte submitted mid-byte changes neither the bits sent nor the byte received before the boundary, and becomes the outbound register at the boundary |
| `GbLinkRuns.TwoSubmitsMidByte` | gblink.c:81-91 | of two mid-byte submissions, the second is the byte sent after the boundary; the first is lost |
| `GbLinkRuns.IdleByteScenario` | gblink.c:126-132 | with idle byte 0xFF and nothing submitted, edges sampling 1,0,1,0,1,0,1,0 deliver 0xAA and leave 0xFF as the next outbound byte; 0x3C submitted afterwards is sent as 0,0,1,1,1,1,0,0 |
| `TickTime.StoreTick` | gblink.c:28 | storing the 64-bit timer reading in the 32-bit `time` field keeps it below 2^32, unchanged below 2^32 and at least 2^32 smaller above |
| `TickTime.ShiftInAsWritten` | gblink.c:100-134 | `gblink_shift_in` with `time` 32 bits wide, as declared at gblink.c:28: the stored time is the reading truncated below 2^32; the staleness test, the shifting and the delivery are those of `ShiftInStep` |
| `TickTime.AsWrittenEveryEdgeStale` | gblink.c:102-108 | with the time stored 32 bits wide, every rising edge whose previous edge came at or after 2^32 us of uptime is stale however short the gap: the counter restarts at 1 and no byte is delivered, so from the second edge after the timer passes 2^32 us no byte is completed |
| `TickTime.AsWrittenSpuriousTimeout` | gblink.c:102-108 | two edges 5 us apart, just after 2^32 us, are not stale by the intended rule but reset the byte as written |
| `TickTime.WideTimeKeepsPartialByte` | gblink.c:102-108 | with the full 64-bit time stored, an edge within the timeout of the previous one never drops the partial byte, at any uptime |

## Left out

- Pin configuration, interrupt service installation, handler registration and removal,
  `gpio_reset_pin` and logging in `gblink_alloc` and `gblink_free` (gblink.c:176-237). These are
  calls into the GPIO driver. The pins' levels are parameters and results instead.
- `gblink_free` and the memory of the record: `malloc`, `free`, and the first allocation in
  `gblink_alloc`, which is overwritten by the second and leaked.
- The callback and its context pointer. The completed byte is returned, and what the callback
  does with it is outside the model.
- `esp_timer_get_time`: the timer reading is a parameter. Nothing assumes it is monotonic; a
  reading below the stored time is treated as the unsigned 64-bit subtraction treats it.
- The `mode` field and the `packet_done` semaphore, which the engine never reads, and the speed's
  effect, which the engine never uses (it is stored only).
- Concurrency between the interrupt and `gblink_transfer`. A comment asks for interrupts to be
  disabled around the check of `shift`, but the code does not disable them. Every operation is
  modelled as atomic, in the order the caller applies them.
- GbLink.ShiftInStep: stores the full 64-bit time where the code stores it in a 32-bit
  `TickType_t`; the code as written is modelled separately in `TickTime` (see Findings).
- GbLink.Link.ShiftIn: stores the full 64-bit time (gblink.c:108), as `ShiftInStep` does.
- GbLink.Link.Alloc: stores the full 64-bit time at allocation (gblink.c:169), where the code
  truncates it into the 32-bit `TickType_t` field.

## Findings

| source | as written | input that shows it | evidently intended | confidence | as-written member | corrected member |
|---|---|---|---|---|---|---|
| gblink.c:28, 102-108 | `time` is a `TickType_t`, 32 bits wide in the ESP-IDF FreeRTOS port. It stores the 64-bit `esp_timer_get_time()` reading truncated. The next edge subtracts that truncated value from a full reading. | uptime past 2^32 us (about 71.6 minutes): edges at 0x1_0000_0005 us and 0x1_0000_000A us, 5 us apart, with the 200 us timeout | the gap between consecutive edges is compared with the timeout, so a prompt edge keeps the partial byte at any uptime | medium, not executed; depends on `TickType_t` being 32 bits wide | `TickTime.AsWrittenEveryEdgeStale` | `TickTime.WideTimeKeepsPartialByte` |

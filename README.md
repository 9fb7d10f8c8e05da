# Syma S107 virtual remote control, modelled in Dafny

The system flies a Syma S107 infrared helicopter from a desktop. It has two
programs joined by a serial link:

- **The host** (`syma_virtual_rc.py`) runs a 20 Hz loop. Each tick it:
  - steps the throttle and trim counters from the keyboard;
  - moves an on-screen joystick with the mouse;
  - derives yaw and pitch from the joystick;
  - queues the command `[yaw, pitch, throttle, trim]` whenever some value changed since the last queued command;
  - reads one byte from the receiver. When that byte is the ACK (129) and a command is pending, it pops the oldest command and writes its four bytes.

  On a close request it writes the failsafe command (63, 63, 0, 63) and stops.
- **The receiver** (`syma_driver.c`) is an Arduino sketch. Each pass of its loop:
  - takes a new command when four serial bytes are available, otherwise keeps the last one;
  - sends the command as an infrared packet: a header, 32 bits most significant first, then a footer;
  - waits out the rest of a 100 ms slot;
  - writes one ACK.

The host produces commands faster than the receiver consumes them. The ACK
works as a credit byte.

Files:

- `protocol.dfy` (module `Protocol`): the wire format. It has the command
  datatype, the ACK and failsafe constants, and the byte stream of a sequence
  of commands with its frame-by-frame decoding.
- `virtual_rc.dfy` (module `VirtualRc`): the host loop, on two levels.
  - Pure functions specify one tick (`Step`) and a run of ticks (`Run`),
    built from the counter, joystick, sampling, change-gate and consumer
    steps.
  - The class `Session` holds the loop's mutable variables as fields. Its
    `Tick` method performs one pass of the loop body and is proved to follow
    `Step`.
  - Lemmas about `Step` and `Run` state the FIFO order, the change gate, the
    ACK discipline, the shutdown write and the range invariants.
- `driver.dfy` (module `Driver`): the receiver.
  - `SendBits` is the bit loop of `sendPacket`, proved to emit the big-endian
    expansion of the four bytes and to count its ones and zeroes.
  - `SendPacket` adds the air-time and delay arithmetic.
  - The class `Receiver` models `loop` over the held `command` array, the
    serial input and output, and a trace of the packets sent.
- `link.dfy` (module `Link`): the two programs together. It shows that an
  ordinary host command overflows the receiver's 16-bit air-time arithmetic
  (see Findings).

Modelling choices:

- The cursor's two distance tests are boolean inputs of a tick.
  - `Measured` states them exactly on whole-pixel coordinates.
  - `WellFormed` is what the geometry guarantees.
  - `MeasuredCursorBound` derives the part of `WellFormed` that concerns the cursor from `Measured`.
- The clamped point returned by `limit` is an input, already rounded.
- Bytes on the host side are integers. On the receiver they are `bv8`.
- The sketch returns `100 - total_packet_time / 1000.0` converted to `int`.
  The model computes this exactly as the truncated quotient
  `(100000 - total_packet_time) / 1000` (`Driver.TruncMillis`). The air time
  is 23512 + 400·ones microseconds, so the float never lands on or near a
  whole number, and truncating it gives the same value.

Two details of the code that the model follows as written:

- `pitch = TRANSLATION_FACTOR - (CONTROL_Y - currY)` grows as the stick moves
  down the screen, because screen y grows downward.
- The comment in the sketch puts a bit's carrier burst at 338 us. The
  constants give 12 · 26 = 312 us, and the model uses the constants.

## Model

| member | source | states |
|---|---|---|
| Protocol.FramesOfFlatten | syma_virtual_rc.py:302-306 | Commands written four bytes each (yaw, pitch, throttle, trim) and cut back into 4-byte frames come back unchanged and in order |
| Protocol.FlattenAppend | syma_virtual_rc.py:302-306 | Writing two batches of commands writes their byte streams back to back |
| VirtualRc.StepCounter | syma_virtual_rc.py:185-203 | A clamped counter stays in range. No key leaves it unchanged. The increasing key alone adds 1 up to the maximum; the decreasing key alone subtracts 1 down to the minimum. Both keys leave it unchanged, except at the maximum, where it drops by 1 |
| VirtualRc.StepStick | syma_virtual_rc.py:214-239 | The joystick is active after a tick iff button1 is held and it was active already or the cursor is on the knob. Releasing button1 recentres it. A held button off the knob changes nothing. An active stick follows the cursor, or the clamped point when the cursor is beyond the limit circle |
| VirtualRc.Sample | syma_virtual_rc.py:254-255 | Throttle and trim pass through. A centred stick gives yaw = pitch = 63. In-range controls give a command with every field in 0..127 |
| VirtualRc.Differs | syma_virtual_rc.py:282 | The field-by-field change test holds iff the two commands differ |
| VirtualRc.Gate | syma_virtual_rc.py:282-289 | The snapshot becomes the sample. The queue grows by exactly one, at the tail and with the sample, iff the sample differs from the old snapshot. The old queue is kept as a prefix |
| VirtualRc.TickLedger | syma_virtual_rc.py:282-314 | Per tick, at most one command enters the queue (at the tail) and at most one leaves (from the head). One leaves iff the byte read is 129 and the queue after the gate is non-empty. The bytes written are that command's bytes, then the failsafe on quit. The loop ends iff quit |
| VirtualRc.RepeatedSampleNotQueued | syma_virtual_rc.py:282-289 | A sample equal to the previous tick's is not queued, and the queue does not grow |
| VirtualRc.SteadySamples | syma_virtual_rc.py:282-289 | Over a run of samples that all equal the snapshot, nothing is queued and the queue never grows |
| VirtualRc.FirstTickQueues | syma_virtual_rc.py:153-162 | The snapshot starts at zeros and the trim at 63, so the first tick always queues exactly its own sample |
| VirtualRc.Shutdown | syma_virtual_rc.py:308-314 | On quit, the failsafe bytes 63, 63, 0, 63 are written after any command the same tick's ACK released. The queue is left as the consumer left it. The run ends there |
| VirtualRc.RunLedger | syma_virtual_rc.py:284-302 | FIFO over any run: the pending queue followed by everything queued equals everything written followed by what is still pending |
| VirtualRc.RunOutput | syma_virtual_rc.py:302-313 | The bytes a run writes are the written commands' bytes in order, then the failsafe if the run ended |
| VirtualRc.WrittenIsPrefixOfQueued | syma_virtual_rc.py:173-306 | From the start, the commands written are a prefix of the commands queued. The output holds exactly their bytes, plus the failsafe on quit |
| VirtualRc.FlattenBytes7 | syma_virtual_rc.py:303-306 | In-range commands are written as bytes in 0..127 |
| VirtualRc.MeasuredCursorBound | syma_virtual_rc.py:233-239 | A cursor that is not beyond the limit circle is within 63 pixels of the centre on each axis |
| VirtualRc.StepStickOk | syma_virtual_rc.py:224-239 | A released stick stays centred, and the stick stays within 63 of the centre on each axis |
| VirtualRc.StepInv | syma_virtual_rc.py:185-306 | One tick keeps throttle in 0..127, trim in 0..126, the stick within 63 of the centre on each axis, every queued command in range and every written byte in 0..127 |
| VirtualRc.RunInv | syma_virtual_rc.py:175-317 | The same invariant holds after any run of ticks |
| VirtualRc.ThrottleHeldUp | syma_virtual_rc.py:185-188 | Holding only throttle-up for n ticks gives min(throttle + n, 127) |
| VirtualRc.ThrottleClamps | syma_virtual_rc.py:185-188 | From the start, 200 ticks of throttle-up leave the throttle at 127 |
| VirtualRc.Session.constructor | syma_virtual_rc.py:146-173 | The loop's variables start as the initial host state: throttle 0, trim 63, stick centred and inactive, snapshot (0,0,0,0), empty queue, nothing written |
| VirtualRc.Session.Tick | syma_virtual_rc.py:175-317 | One pass of the loop body moves the session's state exactly as Step does, and preserves the range invariant |
| VirtualRc.Session.PressKeys | syma_virtual_rc.py:185-203 | Throttle and trim are stepped as StepCounter specifies |
| VirtualRc.Session.MoveStick | syma_virtual_rc.py:216-239 | The joystick state moves as StepStick specifies |
| VirtualRc.Session.QueueIfChanged | syma_virtual_rc.py:253-289 | The queue and snapshot move as Gate specifies for the sampled command |
| VirtualRc.Session.ServiceAck | syma_virtual_rc.py:293-306 | On an ACK with commands pending, the head is popped and its four bytes appended to the output; otherwise nothing changes |
| Driver.PackMsbFirst | syma_driver.c:30-31 | Reading a byte's bits most significant first loses nothing: packing them gives the byte back |
| Driver.MsbFirstPack | syma_driver.c:30-31 | Every 8-bit sequence is the bits of exactly one byte |
| Driver.ExpansionAt | syma_driver.c:17-19 | Bit j of byte i, most significant first, is at position 8i + j of the packet's train |
| Driver.MaskTest | syma_driver.c:132-139 | ANDing a byte with mask BIT_k is non-zero iff bit k is set |
| Driver.NextBit | syma_driver.c:192 | The bit tested with byte index i and bit index k is bit 8i + 7 - k of the expansion |
| Driver.BitsTimeCount | syma_driver.c:221-223 | The bits' air time is 312 us per bit plus 688 per one and 288 per zero |
| Driver.TruncMillis | syma_driver.c:226 | The conversion to int truncates toward zero: bounds on both signs |
| Driver.SendBits | syma_driver.c:178-207 | The loop emits the four bytes' big-endian bit expansion, 32 bits in order. ones is its popcount and zeroes the rest |
| Driver.SendPacket | syma_driver.c:162-227 | The train is the expansion of (yaw, pitch, throttle, trim). ones + zeroes = 32. The delay is the whole number of ms left of the 100 ms slot after the air time, and lies in 63..76 |
| Driver.Receiver.constructor | syma_driver.c:150 | The held command starts as {63, 63, 0, 63}, with nothing received or written |
| Driver.Receiver.Receive | syma_driver.c:263 | Arriving bytes join the end of the serial buffer |
| Driver.Receiver.LoopOnce | syma_driver.c:258-275 | All four command bytes are replaced from the oldest four serial bytes iff at least four are available; otherwise the command and the buffer are kept. The packet sent is the command's expansion. The delay obeys SendPacket's slot bound. Exactly one ACK is written per packet |
| Driver.Int16 | syma_driver.c:219-224 | A 16-bit int holds a value in -32768..32767: exactly x when x fits, and otherwise x wrapped modulo 65536 (two's complement) |
| Driver.Int16Overflow | syma_driver.c:219-226 | With 16-bit ints, total_packet_time is exact for fewer than 24 ones. From 24 ones on it wraps to 23512 + 400·ones - 65536, and the delay exceeds the whole 100 ms slot |
| Link.FullThrottleOverflows | syma_driver.c:219-226 | The host's command for a released stick, full throttle and starting trim is (63, 63, 127, 63). It is in range and has 25 one bits and 33512 us of air time. As written the sketch waits 132 ms; the intended delay is 66 ms |

## Left out

- Rendering, fonts, window placement, event polling and the 20 Hz `clock.tick` pacing: user interface and timing. Key, button and quit states are boolean inputs of a tick.
- `distance` and `limit`: floating-point geometry. The two distance tests and the clamped point (already rounded) are inputs. `WellFormed` states what the geometry guarantees of them. The `sign_x`/`sign_y` branches of `limit` are dead for the positive constants.
- The `round` of a float joystick position: the position is an integer in the model.
- Several close events in one poll would write the failsafe once per event. A tick has a single quit flag, so the model writes it once.
- Opening the serial port, baud rate and the non-blocking read: the read is an optional byte per tick. The output is a sequence of written integers.
- `pulse`, `header`, `footer`, `one`, `zero`, `digitalWrite`, `delayMicroseconds` and `delay`: hardware timing. A packet is its bit train, and its air time is computed from the train.
- The infinite loops `while done == False` and `while(1)`: one pass is a method. Runs of passes are `Run` on the host.
- `print` diagnostics.
- `setup` and the pin assignments.
- VirtualRc.Drain: has no contract of its own. Its behaviour is stated by `TickLedger`, and `Session.ServiceAck` is proved equal to it.
- Driver.SendPacket: computes with unbounded integers, which is the evidently intended arithmetic. The 16-bit result is modelled separately by `PacketTimeAsWritten` and `DelayAsWritten`.
- Driver.Receiver.LoopOnce: Arduino's serial receive buffer is 64 bytes. The model's buffer is unbounded.

## Findings

| source | as written | input that shows it | evidently intended | confidence | as-written member | corrected member |
|---|---|---|---|---|---|---|
| syma_driver.c:219-226 | `total_packet_time` is an `int`, 16 bits on the Arduino, and reaches 23512 + 400·ones. For 24 or more one bits it overflows; on AVR it wraps to a negative value, and the returned delay then exceeds 100 ms | command (63, 63, 127, 63): stick released, full throttle, starting trim; 25 one bits, air time 33512, returned delay 132 | delay 66, the whole milliseconds left of the 100 ms slot (63..76 for every packet) | not executed | Link.FullThrottleOverflows | Driver.SendPacket |

/**
 * The host side: the per-tick control pipeline of the virtual remote control.
 *
 * Each tick reads the keys and the cursor, steps the throttle and trim
 * counters, moves the joystick, derives yaw and pitch, queues the command if
 * any value changed since the last queued one, and, when the byte read from
 * the receiver is the ACK, pops the oldest queued command and writes its four
 * bytes. A quit request writes the failsafe command and ends the loop.
 *
 * The pure functions below specify one tick (Step) and a run of ticks (Run);
 * the class Session is the loop's mutable state, and its Tick method is proved
 * to follow Step.
 */
module VirtualRc {
  import opened Protocol

  const CONTROL_RADIUS: int := 83
  const JOYSTICK_RADIUS: int := 20
  const CONTROL_X: int := 550
  const CONTROL_Y: int := 250

  const THROTTLE_MAX: int := 127
  const THROTTLE_MIN: int := 0
  const TRIM_MAX: int := 126
  const TRIM_MIN: int := 0

  const TRANSLATION_FACTOR: int := 63

  /** The stick's centre is kept within this distance of the control's centre. */
  const LIMIT_RADIUS: int := CONTROL_RADIUS - JOYSTICK_RADIUS

  /** The trim value the loop starts from. */
  const INITIAL_TRIM: int := 63

  datatype Option<T> = None | Some(value: T)

  /**
   * What one tick observes. The four key flags and button1 are the key and
   * mouse-button states; (x, y) is the cursor position in whole pixels;
   * onStick and beyond are the two distance tests of the cursor against the
   * control's centre (closer than JOYSTICK_RADIUS; farther than LIMIT_RADIUS);
   * (limitX, limitY) is the point the clamping geometry projects the cursor
   * onto, already rounded the way yaw and pitch round it; inbound is the byte
   * a non-blocking one-byte read returned, if any; quit is a close request.
   */
  datatype TickInput = TickInput(
    throttleUp: bool, throttleDown: bool,
    trimLeft: bool, trimRight: bool,
    button1: bool,
    x: int, y: int,
    onStick: bool, beyond: bool,
    limitX: int, limitY: int,
    inbound: Option<int>,
    quit: bool)

  /**
   * What the geometry guarantees about an input: a cursor that is not beyond
   * the limit circle, and the point it is projected to, are each within
   * LIMIT_RADIUS of the centre on each axis.
   */
  predicate WellFormed(inp: TickInput)
  {
    (!inp.beyond ==> -LIMIT_RADIUS <= inp.x - CONTROL_X <= LIMIT_RADIUS &&
                     -LIMIT_RADIUS <= inp.y - CONTROL_Y <= LIMIT_RADIUS) &&
    -LIMIT_RADIUS <= inp.limitX - CONTROL_X <= LIMIT_RADIUS &&
    -LIMIT_RADIUS <= inp.limitY - CONTROL_Y <= LIMIT_RADIUS
  }

  /** Square of the cursor's distance from the control's centre. */
  function Dist2(x: int, y: int): int
  {
    (CONTROL_X - x) * (CONTROL_X - x) + (CONTROL_Y - y) * (CONTROL_Y - y)
  }

  /**
   * The two distance tests, computed exactly: the cursor's coordinates are
   * whole pixels, so comparing the distance with a whole radius is comparing
   * its square with the radius squared.
   */
  predicate Measured(inp: TickInput)
  {
    (inp.onStick <==> Dist2(inp.x, inp.y) < JOYSTICK_RADIUS * JOYSTICK_RADIUS) &&
    (inp.beyond <==> Dist2(inp.x, inp.y) > LIMIT_RADIUS * LIMIT_RADIUS)
  }

  /**
   * A counter stepped by two keys: the increasing key is applied first and
   * clamped to hi, then the decreasing key, clamped to lo.
   */
  function StepCounter(v: int, inc: bool, dec: bool, lo: int, hi: int): (r: int)
    requires lo < hi
    ensures lo <= v <= hi ==> lo <= r <= hi
    ensures !inc && !dec ==> r == v
    ensures inc && !dec ==> r == (if v < hi then v + 1 else hi)
    ensures !inc && dec ==> r == (if v > lo then v - 1 else lo)
    ensures inc && dec && lo <= v <= hi ==> r == (if v == hi then hi - 1 else v)
  {
    var up := if inc then (if v + 1 > hi then hi else v + 1) else v;
    if dec then (if up - 1 < lo then lo else up - 1) else up
  }

  /** The joystick: whether it follows the cursor, and where its centre is. */
  datatype Stick = Stick(active: bool, x: int, y: int)

  /** The released joystick, back at the control's centre. */
  const CENTRED: Stick := Stick(false, CONTROL_X, CONTROL_Y)

  /**
   * The joystick's state machine: pressing button1 on the knob grabs it,
   * releasing button1 lets it spring back to the centre, and while grabbed it
   * follows the cursor, clamped to the limit circle.
   */
  function StepStick(s: Stick, inp: TickInput): (r: Stick)
    ensures r.active <==> inp.button1 && (s.active || inp.onStick)
    ensures !inp.button1 ==> r == CENTRED
    ensures inp.button1 && !r.active ==> r == s
    ensures r.active && inp.beyond ==> r.x == inp.limitX && r.y == inp.limitY
    ensures r.active && !inp.beyond ==> r.x == inp.x && r.y == inp.y
  {
    var grabbed :=
      if !s.active && inp.button1 then
        (if inp.onStick then s.(active := true) else s)
      else if !inp.button1 then CENTRED
      else s;
    if !grabbed.active then grabbed
    else if inp.beyond then grabbed.(x := inp.limitX, y := inp.limitY)
    else grabbed.(x := inp.x, y := inp.y)
  }

  /** A released stick sits at the centre, and the stick never leaves the limit square. */
  predicate StickOk(s: Stick)
  {
    (!s.active ==> s.x == CONTROL_X && s.y == CONTROL_Y) &&
    -LIMIT_RADIUS <= s.x - CONTROL_X <= LIMIT_RADIUS &&
    -LIMIT_RADIUS <= s.y - CONTROL_Y <= LIMIT_RADIUS
  }

  /** The ranges every command the host produces lies in. */
  predicate InRange(c: Command)
  {
    0 <= c.yaw <= 2 * TRANSLATION_FACTOR &&
    0 <= c.pitch <= 2 * TRANSLATION_FACTOR &&
    THROTTLE_MIN <= c.throttle <= THROTTLE_MAX &&
    TRIM_MIN <= c.trim <= TRIM_MAX
  }

  /**
   * The command for the current controls. Yaw grows as the stick moves left
   * and pitch as it moves down the screen.
   */
  function Sample(s: Stick, throttle: int, trim: int): (c: Command)
    ensures c.throttle == throttle && c.trim == trim
    ensures s.x == CONTROL_X && s.y == CONTROL_Y ==> c.yaw == TRANSLATION_FACTOR && c.pitch == TRANSLATION_FACTOR
    ensures StickOk(s) && THROTTLE_MIN <= throttle <= THROTTLE_MAX && TRIM_MIN <= trim <= TRIM_MAX ==> InRange(c)
  {
    Command((CONTROL_X - s.x) + TRANSLATION_FACTOR, TRANSLATION_FACTOR - (CONTROL_Y - s.y), throttle, trim)
  }

  /** The change test of the gate: some field differs. */
  predicate Differs(a: Command, b: Command)
    ensures Differs(a, b) <==> a != b
  {
    a.yaw != b.yaw || a.pitch != b.pitch || a.throttle != b.throttle || a.trim != b.trim
  }

  /**
   * The change gate: queue c, and make it the snapshot, when it differs from
   * the snapshot of the last queued command. Returns the queue and the snapshot.
   */
  function Gate(queue: seq<Command>, previous: Command, c: Command): (r: (seq<Command>, Command))
    ensures r.1 == c
    ensures |r.0| == (if c != previous then |queue| + 1 else |queue|)
    ensures r.0[..|queue|] == queue
    ensures c != previous ==> r.0[|queue|] == c
  {
    if Differs(c, previous) then (queue + [c], c) else (queue, previous)
  }

  /**
   * The consumer: when the byte read is the ACK and a command is pending, pop
   * the oldest one and write its four bytes. Returns the queue and the output.
   */
  function Drain(queue: seq<Command>, out: seq<int>, inbound: Option<int>): (seq<Command>, seq<int>)
  {
    if inbound == Some(READY_TO_ACCEPT_ACK) && |queue| > 0 then
      (queue[1..], out + Bytes(queue[0]))
    else
      (queue, out)
  }

  /**
   * The loop's whole state: the counters, the joystick, the snapshot of the
   * last queued command, the queue, every byte written so far, and whether
   * the loop has ended.
   */
  datatype Host = Host(
    throttle: int, trim: int, stick: Stick,
    previous: Command, queue: seq<Command>,
    out: seq<int>, done: bool)

  /** The state before the first tick; the snapshot starts at all zeroes. */
  const INITIAL: Host := Host(THROTTLE_MIN, INITIAL_TRIM, CENTRED, Command(0, 0, 0, 0), [], [], false)

  /** The invariant of reachable states. */
  predicate Inv(h: Host)
  {
    THROTTLE_MIN <= h.throttle <= THROTTLE_MAX &&
    TRIM_MIN <= h.trim <= TRIM_MAX &&
    StickOk(h.stick) &&
    AllInRange(h.queue) &&
    AllBytes7(h.out)
  }

  predicate AllInRange(cs: seq<Command>)
  {
    forall i :: 0 <= i < |cs| ==> InRange(cs[i])
  }

  /** Every byte is below 128, so it survives as the same value on the receiving side. */
  predicate AllBytes7(bs: seq<int>)
  {
    forall i :: 0 <= i < |bs| ==> 0 <= bs[i] <= 127
  }

  /** In-range commands are written as bytes below 128. */
  lemma {:induction false} FlattenBytes7(cs: seq<Command>)
    requires AllInRange(cs)
    ensures AllBytes7(Flatten(cs))
  {
    if cs != [] {
      FlattenBytes7(cs[1..]);
    }
  }

  function NextThrottle(h: Host, inp: TickInput): int
  {
    StepCounter(h.throttle, inp.throttleUp, inp.throttleDown, THROTTLE_MIN, THROTTLE_MAX)
  }

  function NextTrim(h: Host, inp: TickInput): int
  {
    StepCounter(h.trim, inp.trimLeft, inp.trimRight, TRIM_MIN, TRIM_MAX)
  }

  /** The command this tick samples. */
  function Sampled(h: Host, inp: TickInput): Command
  {
    Sample(StepStick(h.stick, inp), NextThrottle(h, inp), NextTrim(h, inp))
  }

  /** One tick of the loop. */
  function Step(h: Host, inp: TickInput): Host
  {
    var gated := Gate(h.queue, h.previous, Sampled(h, inp));
    var drained := Drain(gated.0, h.out, inp.inbound);
    Host(NextThrottle(h, inp), NextTrim(h, inp), StepStick(h.stick, inp),
         gated.1, drained.0,
         if inp.quit then drained.1 + Bytes(FAILSAFE) else drained.1,
         inp.quit)
  }

  /** Step assembled from the results of its parts, in the order the loop body computes them. */
  lemma StepFromParts(h: Host, inp: TickInput, throttle: int, trim: int, stick: Stick,
                      gated: (seq<Command>, Command), drained: (seq<Command>, seq<int>), out: seq<int>)
    requires throttle == NextThrottle(h, inp) && trim == NextTrim(h, inp) && stick == StepStick(h.stick, inp)
    requires gated == Gate(h.queue, h.previous, Sample(stick, throttle, trim))
    requires drained == Drain(gated.0, h.out, inp.inbound)
    requires out == if inp.quit then drained.1 + Bytes(FAILSAFE) else drained.1
    ensures Step(h, inp) == Host(throttle, trim, stick, gated.1, drained.0, out, inp.quit)
  {
  }

  /** The ticks of a run, up to and including the one that sees quit. */
  function Run(h: Host, inputs: seq<TickInput>): Host
    decreases |inputs|
  {
    if inputs == [] || h.done then h else Run(Step(h, inputs[0]), inputs[1..])
  }

  // The ledger of one tick: what entered the queue and what left it.

  /** The command queued in this tick, if any. */
  function Appended(h: Host, inp: TickInput): seq<Command>
  {
    var c := Sampled(h, inp);
    if c != h.previous then [c] else []
  }

  /** The command popped and written in this tick, if any. */
  function Popped(h: Host, inp: TickInput): seq<Command>
  {
    var pending := h.queue + Appended(h, inp);
    if inp.inbound == Some(READY_TO_ACCEPT_ACK) && pending != [] then [pending[0]] else []
  }

  /** Every command queued during a run, in order. */
  function RunAppended(h: Host, inputs: seq<TickInput>): seq<Command>
    decreases |inputs|
  {
    if inputs == [] || h.done then [] else Appended(h, inputs[0]) + RunAppended(Step(h, inputs[0]), inputs[1..])
  }

  /** Every command written during a run, in order. */
  function RunPopped(h: Host, inputs: seq<TickInput>): seq<Command>
    decreases |inputs|
  {
    if inputs == [] || h.done then [] else Popped(h, inputs[0]) + RunPopped(Step(h, inputs[0]), inputs[1..])
  }

  /**
   * One tick: at most one command enters the queue at the tail and at most
   * one leaves at the head; one leaves exactly when the byte read is the ACK
   * and the queue (after the gate) is not empty; the bytes written are those
   * of the command that left, then the failsafe command on quit.
   */
  lemma TickLedger(h: Host, inp: TickInput)
    ensures |Appended(h, inp)| <= 1 && |Popped(h, inp)| <= 1
    ensures |Popped(h, inp)| == 1 <==> inp.inbound == Some(READY_TO_ACCEPT_ACK) && h.queue + Appended(h, inp) != []
    ensures h.queue + Appended(h, inp) == Popped(h, inp) + Step(h, inp).queue
    ensures Step(h, inp).out == h.out + Flatten(Popped(h, inp)) + (if inp.quit then Bytes(FAILSAFE) else [])
    ensures Step(h, inp).done == inp.quit
  {
    var c := Sampled(h, inp);
    GateDrainLedger(h.queue, h.previous, c, h.out, inp.inbound);
  }

  /**
   * The gate followed by the consumer, on plain sequences: the queue with the
   * arrival (if any) is the popped command (if any) followed by the new queue,
   * and the output gains exactly the popped command's bytes.
   */
  lemma GateDrainLedger(queue: seq<Command>, previous: Command, c: Command, out: seq<int>, inbound: Option<int>)
    ensures var a := if c != previous then [c] else [];
            var pending := queue + a;
            var p := if inbound == Some(READY_TO_ACCEPT_ACK) && pending != [] then [pending[0]] else [];
            var d := Drain(Gate(queue, previous, c).0, out, inbound);
            pending == p + d.0 && d.1 == out + Flatten(p)
  {
    var a := if c != previous then [c] else [];
    var pending := queue + a;
    assert Gate(queue, previous, c).0 == pending;
    if inbound == Some(READY_TO_ACCEPT_ACK) && pending != [] {
      assert Flatten([pending[0]]) == Bytes(pending[0]) + Flatten([]);
      assert pending == [pending[0]] + pending[1..];
    }
  }

  /** After the gate the snapshot is the sampled command, so a repeated sample is not queued again. */
  lemma RepeatedSampleNotQueued(h: Host, inp1: TickInput, inp2: TickInput)
    requires Sampled(Step(h, inp1), inp2) == Sampled(h, inp1)
    ensures Appended(Step(h, inp1), inp2) == []
    ensures |Step(Step(h, inp1), inp2).queue| <= |Step(h, inp1).queue|
  {
    TickLedger(Step(h, inp1), inp2);
  }

  /** The snapshot starts at zero and the trim at 63, so the first tick always queues its command. */
  lemma FirstTickQueues(inp: TickInput)
    ensures Appended(INITIAL, inp) == [Sampled(INITIAL, inp)]
    ensures Step(INITIAL, inp).previous == Sampled(INITIAL, inp)
  {
    assert Sampled(INITIAL, inp).trim != 0;
  }

  /** A run stops at the tick that sees quit: nothing is queued or written after it. */
  lemma {:induction false} RunAfterDone(h: Host, inputs: seq<TickInput>)
    requires h.done
    ensures Run(h, inputs) == h && RunAppended(h, inputs) == [] && RunPopped(h, inputs) == []
  {
  }

  /**
   * Quit: the failsafe bytes are the last ones written, after any command
   * the same tick's ACK released; the queue is left as the consumer left it,
   * and no later tick runs.
   */
  lemma Shutdown(h: Host, inputs: seq<TickInput>)
    requires inputs != [] && !h.done && inputs[0].quit
    ensures Run(h, inputs) == Step(h, inputs[0])
    ensures Run(h, inputs).done
    ensures Run(h, inputs).out == h.out + Flatten(Popped(h, inputs[0])) + Bytes(FAILSAFE)
    ensures h.queue + Appended(h, inputs[0]) == Popped(h, inputs[0]) + Run(h, inputs).queue
  {
    TickLedger(h, inputs[0]);
    RunAfterDone(Step(h, inputs[0]), inputs[1..]);
  }

  /**
   * FIFO over a run: the commands queued, after those already pending, are
   * the commands written followed by those still pending.
   */
  lemma {:induction false} RunLedger(h: Host, inputs: seq<TickInput>)
    ensures h.queue + RunAppended(h, inputs) == RunPopped(h, inputs) + Run(h, inputs).queue
    decreases |inputs|
  {
    if inputs == [] || h.done {
    } else {
      var inp, rest := inputs[0], inputs[1..];
      var h1 := Step(h, inp);
      TickLedger(h, inp);
      assert RunAppended(h, inputs) == Appended(h, inp) + RunAppended(h1, rest);
      assert RunPopped(h, inputs) == Popped(h, inp) + RunPopped(h1, rest);
      assert Run(h, inputs) == Run(h1, rest);
      if inp.quit {
        RunAfterDone(h1, rest);
      } else {
        RunLedger(h1, rest);
      }
      Regroup(h.queue, Appended(h, inp), RunAppended(h1, rest),
              Popped(h, inp), h1.queue, RunPopped(h1, rest), Run(h1, rest).queue);
    }
  }

  /**
   * The bytes a run writes are the written commands in order, then the
   * failsafe command if the run ended with quit.
   */
  lemma {:induction false} RunOutput(h: Host, inputs: seq<TickInput>)
    ensures Run(h, inputs).out ==
            h.out + Flatten(RunPopped(h, inputs)) + (if Run(h, inputs).done && !h.done then Bytes(FAILSAFE) else [])
    decreases |inputs|
  {
    if inputs == [] || h.done {
      assert RunPopped(h, inputs) == [];
    } else {
      var inp := inputs[0];
      var h1 := Step(h, inp);
      var p := Popped(h, inp);
      TickLedger(h, inp);
      if inp.quit {
        RunAfterDone(h1, inputs[1..]);
        assert RunPopped(h, inputs) == p + [];
      } else {
        RunOutput(h1, inputs[1..]);
        var rp := RunPopped(h1, inputs[1..]);
        var tail := if Run(h1, inputs[1..]).done then Bytes(FAILSAFE) else [];
        assert RunPopped(h, inputs) == p + rp;
        FlattenAppend(p, rp);
        assert Run(h, inputs) == Run(h1, inputs[1..]);
        Append3(h.out, Flatten(p), Flatten(rp), tail, h1.out, Run(h1, inputs[1..]).out);
      }
    }
  }

  /** Chaining two stretches of output. */
  lemma Append3<T>(o: seq<T>, x: seq<T>, y: seq<T>, t: seq<T>, o1: seq<T>, r: seq<T>)
    requires o1 == o + x + [] && r == o1 + y + t
    ensures r == o + (x + y) + t
  {
    assert o + x + [] == o + x;
  }

  /** Chaining two ledgers: what went in, after what was there, is what came out followed by what is left. */
  lemma Regroup<T>(q: seq<T>, a: seq<T>, ra: seq<T>, p: seq<T>, q1: seq<T>, rp: seq<T>, qf: seq<T>)
    requires q + a == p + q1 && q1 + ra == rp + qf
    ensures q + (a + ra) == (p + rp) + qf
  {
    calc {
      q + (a + ra);
      (q + a) + ra;
      (p + q1) + ra;
      p + (q1 + ra);
      p + (rp + qf);
      (p + rp) + qf;
    }
  }

  /** From the start, the commands written are a prefix of the commands queued, and nothing else is written but the failsafe. */
  lemma WrittenIsPrefixOfQueued(inputs: seq<TickInput>)
    ensures RunPopped(INITIAL, inputs) <= RunAppended(INITIAL, inputs)
    ensures Run(INITIAL, inputs).out ==
            Flatten(RunPopped(INITIAL, inputs)) + (if Run(INITIAL, inputs).done then Bytes(FAILSAFE) else [])
  {
    RunLedger(INITIAL, inputs);
    RunOutput(INITIAL, inputs);
    assert [] + RunAppended(INITIAL, inputs) == RunAppended(INITIAL, inputs);
    assert [] + Flatten(RunPopped(INITIAL, inputs)) == Flatten(RunPopped(INITIAL, inputs));
  }

  /** A coordinate offset whose square fits under LIMIT_RADIUS squared is at most LIMIT_RADIUS. */
  lemma SquareBound(d: int, e: int)
    requires d * d + e * e <= LIMIT_RADIUS * LIMIT_RADIUS
    ensures -LIMIT_RADIUS <= d <= LIMIT_RADIUS
  {
    assert e * e >= 0;
  }

  /**
   * Exact distance tests give what the model assumes of the geometry: a
   * cursor that is not beyond the limit circle is within LIMIT_RADIUS of the
   * centre on each axis.
   */
  lemma MeasuredCursorBound(inp: TickInput)
    requires Measured(inp) && !inp.beyond
    ensures -LIMIT_RADIUS <= inp.x - CONTROL_X <= LIMIT_RADIUS
    ensures -LIMIT_RADIUS <= inp.y - CONTROL_Y <= LIMIT_RADIUS
  {
    SquareBound(CONTROL_X - inp.x, CONTROL_Y - inp.y);
    SquareBound(CONTROL_Y - inp.y, CONTROL_X - inp.x);
  }

  /** The joystick invariant survives every tick. */
  lemma StepStickOk(s: Stick, inp: TickInput)
    requires StickOk(s) && WellFormed(inp)
    ensures StickOk(StepStick(s, inp))
  {
  }

  /** Every tick keeps the counters in range, the stick within LIMIT_RADIUS of the centre on each axis, and every byte written below 128. */
  lemma StepInv(h: Host, inp: TickInput)
    requires Inv(h) && WellFormed(inp)
    ensures Inv(Step(h, inp))
  {
    StepStickOk(h.stick, inp);
    var c := Sampled(h, inp);
    assert InRange(c);
    var h1 := Step(h, inp);
    assert THROTTLE_MIN <= h1.throttle <= THROTTLE_MAX && TRIM_MIN <= h1.trim <= TRIM_MAX && StickOk(h1.stick);
    StepQueueInRange(h, inp);
  }

  /** What passes through the queue and onto the wire is in range. */
  lemma StepQueueInRange(h: Host, inp: TickInput)
    requires AllInRange(h.queue) && AllBytes7(h.out) && InRange(Sampled(h, inp))
    ensures AllInRange(Step(h, inp).queue) && AllBytes7(Step(h, inp).out)
  {
    TickLedger(h, inp);
    var h1 := Step(h, inp);
    var c := Sampled(h, inp);
    var a := Appended(h, inp);
    assert a == [] || a == [c];
    SmallInRange(c);
    var tail := if inp.quit then Bytes(FAILSAFE) else [];
    SmallInRange(FAILSAFE);
    LedgerInRange(h.queue, a, Popped(h, inp), h1.queue, h.out, tail, h1.out);
  }

  /** A single in-range command is in range, and the failsafe's bytes are below 128. */
  lemma SmallInRange(c: Command)
    requires InRange(c)
    ensures AllInRange([c]) && AllBytes7(Bytes(FAILSAFE))
  {
  }

  /**
   * A ledger step over in-range values: if the queue and the arrivals are in
   * range, so are what is left and what is written.
   */
  lemma LedgerInRange(q: seq<Command>, a: seq<Command>, p: seq<Command>, q1: seq<Command>,
                      o: seq<int>, tail: seq<int>, o1: seq<int>)
    requires q + a == p + q1 && o1 == o + Flatten(p) + tail
    requires AllInRange(q) && AllInRange(a) && AllBytes7(o) && AllBytes7(tail)
    ensures AllInRange(q1) && AllBytes7(o1)
  {
    InRangeSplit(q, a);
    InRangeSplit(p, q1);
    FlattenBytes7(p);
    Bytes7Split(o, Flatten(p));
    Bytes7Split(o + Flatten(p), tail);
  }

  lemma InRangeSplit(a: seq<Command>, b: seq<Command>)
    ensures AllInRange(a + b) <==> AllInRange(a) && AllInRange(b)
  {
    if AllInRange(a + b) {
      assert forall i :: 0 <= i < |a| ==> a[i] == (a + b)[i];
      assert forall i :: 0 <= i < |b| ==> b[i] == (a + b)[|a| + i];
    }
  }

  lemma Bytes7Split(a: seq<int>, b: seq<int>)
    ensures AllBytes7(a + b) <==> AllBytes7(a) && AllBytes7(b)
  {
    if AllBytes7(a + b) {
      assert forall i :: 0 <= i < |a| ==> a[i] == (a + b)[i];
      assert forall i :: 0 <= i < |b| ==> b[i] == (a + b)[|a| + i];
    }
  }

  /** StepInv as an implication, so that Session.Tick can use it without a case split. */
  lemma StepKeepsInv(h: Host, inp: TickInput)
    ensures Inv(h) && WellFormed(inp) ==> Inv(Step(h, inp))
  {
    if Inv(h) && WellFormed(inp) {
      StepInv(h, inp);
    }
  }

  /** Writing a command's fields one byte at a time writes its frame. */
  lemma AppendBytes(out: seq<int>, c: Command)
    ensures out + [c.yaw] + [c.pitch] + [c.throttle] + [c.trim] == out + Bytes(c)
  {
  }

  /** The invariant holds after any run of well-formed ticks. */
  lemma {:induction false} RunInv(h: Host, inputs: seq<TickInput>)
    requires Inv(h)
    requires forall i :: 0 <= i < |inputs| ==> WellFormed(inputs[i])
    ensures Inv(Run(h, inputs))
    decreases |inputs|
  {
    if inputs != [] && !h.done {
      StepInv(h, inputs[0]);
      RunInv(Step(h, inputs[0]), inputs[1..]);
    }
  }

  /** Holding only the throttle-up key for n ticks raises the throttle by n, up to THROTTLE_MAX. */
  lemma {:induction false} ThrottleHeldUp(h: Host, inputs: seq<TickInput>)
    requires !h.done && THROTTLE_MIN <= h.throttle <= THROTTLE_MAX
    requires forall i :: 0 <= i < |inputs| ==> inputs[i].throttleUp && !inputs[i].throttleDown && !inputs[i].quit
    ensures Run(h, inputs).throttle == if h.throttle + |inputs| < THROTTLE_MAX then h.throttle + |inputs| else THROTTLE_MAX
    decreases |inputs|
  {
    if inputs != [] {
      ThrottleHeldUp(Step(h, inputs[0]), inputs[1..]);
    }
  }

  /** From the start, 200 ticks of throttle-up leave the throttle at 127, not 200. */
  lemma ThrottleClamps(inputs: seq<TickInput>)
    requires |inputs| == 200
    requires forall i :: 0 <= i < |inputs| ==> inputs[i].throttleUp && !inputs[i].throttleDown && !inputs[i].quit
    ensures Run(INITIAL, inputs).throttle == 127
  {
    ThrottleHeldUp(INITIAL, inputs);
  }

  /**
   * Samples that keep repeating the last queued command never grow the
   * queue: nothing is queued, and the queue can only shrink.
   */
  lemma {:induction false} SteadySamples(h: Host, inputs: seq<TickInput>)
    requires forall k :: 0 <= k < |inputs| ==> Sampled(Run(h, inputs[..k]), inputs[k]) == h.previous
    ensures RunAppended(h, inputs) == []
    ensures |Run(h, inputs).queue| <= |h.queue|
    decreases |inputs|
  {
    RunLedger(h, inputs);
    if inputs != [] && !h.done {
      var h1 := Step(h, inputs[0]);
      assert inputs[..0] == [];
      assert Appended(h, inputs[0]) == [];
      forall k | 0 <= k < |inputs[1..]|
        ensures Sampled(Run(h1, inputs[1..][..k]), inputs[1..][k]) == h1.previous
      {
        assert inputs[..k + 1] == [inputs[0]] + inputs[1..][..k];
        assert Run(h, inputs[..k + 1]) == Run(h1, inputs[1..][..k]);
      }
      SteadySamples(h1, inputs[1..]);
    }
  }

  /** The loop's mutable state, one field per variable the loop reassigns. */
  class Session {
    var throttle: int
    var trim: int
    var controlActive: bool
    var currX: int
    var currY: int
    var previousYaw: int
    var previousPitch: int
    var previousThrottle: int
    var previousTrim: int
    var commandValues: seq<Command>
    /** Every byte written to the serial connection so far. */
    var written: seq<int>
    var done: bool

    /** The abstract value of this session. */
    function State(): Host
      reads this
    {
      Host(throttle, trim, Stick(controlActive, currX, currY),
           Command(previousYaw, previousPitch, previousThrottle, previousTrim),
           commandValues, written, done)
    }

    ghost predicate Valid()
      reads this
    {
      Inv(State())
    }

    constructor ()
      ensures State() == INITIAL && Valid()
    {
      throttle, trim := THROTTLE_MIN, INITIAL_TRIM;
      controlActive := false;
      currX, currY := CONTROL_X, CONTROL_Y;
      previousYaw, previousPitch, previousThrottle, previousTrim := 0, 0, 0, 0;
      commandValues := [];
      written := [];
      done := false;
    }

    /** The snapshot of the last queued command. */
    function Previous(): Command
      reads this
    {
      Command(previousYaw, previousPitch, previousThrottle, previousTrim)
    }

    /** One pass of the loop body. */
    method Tick(inp: TickInput)
      requires !done
      modifies this
      ensures State() == Step(old(State()), inp)
      ensures old(Valid()) && WellFormed(inp) ==> Valid()
    {
      ghost var h := State();
      PressKeys(inp);
      ghost var throttle1, trim1 := throttle, trim;
      assert throttle1 == NextThrottle(h, inp) && trim1 == NextTrim(h, inp);
      MoveStick(inp);
      ghost var stick1 := Stick(controlActive, currX, currY);
      assert stick1 == StepStick(h.stick, inp);
      QueueIfChanged();
      ghost var gated := (commandValues, Previous());
      assert gated == Gate(h.queue, h.previous, Sample(stick1, throttle1, trim1));
      ServiceAck(inp.inbound);
      ghost var drained := (commandValues, written);
      assert drained == Drain(gated.0, h.out, inp.inbound);
      if inp.quit {
        written := written + [ZERO_YAW];
        written := written + [ZERO_PITCH];
        written := written + [ZERO_THROTTLE];
        written := written + [ZERO_TRIM];
        done := true;
        AppendBytes(drained.1, FAILSAFE);
      }
      assert State() == Host(throttle1, trim1, stick1, gated.1, drained.0, written, inp.quit);
      StepFromParts(h, inp, throttle1, trim1, stick1, gated, drained, written);
      StepKeepsInv(h, inp);
    }

    /** The throttle and trim keys, each step clamped at once. */
    method PressKeys(inp: TickInput)
      modifies this`throttle, this`trim
      ensures throttle == StepCounter(old(throttle), inp.throttleUp, inp.throttleDown, THROTTLE_MIN, THROTTLE_MAX)
      ensures trim == StepCounter(old(trim), inp.trimLeft, inp.trimRight, TRIM_MIN, TRIM_MAX)
    {
      if inp.throttleUp {
        throttle := throttle + 1;
        if throttle > THROTTLE_MAX { throttle := THROTTLE_MAX; }
      }
      if inp.throttleDown {
        throttle := throttle - 1;
        if throttle < THROTTLE_MIN { throttle := THROTTLE_MIN; }
      }
      if inp.trimLeft {
        trim := trim + 1;
        if trim > TRIM_MAX { trim := TRIM_MAX; }
      }
      if inp.trimRight {
        trim := trim - 1;
        if trim < TRIM_MIN { trim := TRIM_MIN; }
      }
    }

    /** The joystick: grab, release and follow. */
    method MoveStick(inp: TickInput)
      modifies this`controlActive, this`currX, this`currY
      ensures Stick(controlActive, currX, currY) == StepStick(old(Stick(controlActive, currX, currY)), inp)
    {
      if !controlActive && inp.button1 {
        if inp.onStick { controlActive := true; }
      } else if !inp.button1 {
        controlActive := false;
        currX, currY := CONTROL_X, CONTROL_Y;
      }
      if controlActive {
        if inp.beyond {
          currX, currY := inp.limitX, inp.limitY;
        } else {
          currX, currY := inp.x, inp.y;
        }
      }
    }

    /** Derives yaw and pitch and queues the command if any value changed. */
    method QueueIfChanged()
      modifies this`commandValues, this`previousYaw, this`previousPitch, this`previousThrottle, this`previousTrim
      ensures (commandValues, Previous()) ==
              Gate(old(commandValues), old(Previous()), Sample(Stick(controlActive, currX, currY), throttle, trim))
    {
      var yaw := (CONTROL_X - currX) + TRANSLATION_FACTOR;
      var pitch := TRANSLATION_FACTOR - (CONTROL_Y - currY);
      if yaw != previousYaw || pitch != previousPitch || throttle != previousThrottle || trim != previousTrim {
        commandValues := commandValues + [Command(yaw, pitch, throttle, trim)];
        previousYaw, previousPitch, previousThrottle, previousTrim := yaw, pitch, throttle, trim;
      }
    }

    /** The one-byte read: on an ACK with commands pending, pop the oldest and write it. */
    method ServiceAck(data: Option<int>)
      modifies this`commandValues, this`written
      ensures (commandValues, written) == Drain(old(commandValues), old(written), data)
    {
      if data == Some(READY_TO_ACCEPT_ACK) && |commandValues| > 0 {
        var commandValue := commandValues[0];
        commandValues := commandValues[1..];
        written := written + [commandValue.yaw];
        written := written + [commandValue.pitch];
        written := written + [commandValue.throttle];
        written := written + [commandValue.trim];
        assert written == old(written) + Bytes(commandValue);
      }
    }
  }
}

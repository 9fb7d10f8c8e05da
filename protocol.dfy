/**
 * The serial protocol between the host-side virtual remote control and the
 * receiver sketch: a command is four bytes (yaw, pitch, throttle, trim) sent
 * with no header or checksum, and the receiver asks for the next command by
 * writing the single byte READY_TO_ACCEPT_ACK.
 */
module Protocol {

  /** The byte the receiver writes when it is ready for the next command. */
  const READY_TO_ACCEPT_ACK: int := 129

  /** Number of bytes in one command frame. */
  const BYTES_IN_PACKET: nat := 4

  /** The neutral command: stick centred, no throttle, trim centred. */
  const ZERO_YAW: int := 63
  const ZERO_PITCH: int := 63
  const ZERO_THROTTLE: int := 0
  const ZERO_TRIM: int := 63

  /** One set of control values, in wire order. */
  datatype Command = Command(yaw: int, pitch: int, throttle: int, trim: int)

  /** The command both programs fall back to: sent on shutdown, held at start. */
  const FAILSAFE: Command := Command(ZERO_YAW, ZERO_PITCH, ZERO_THROTTLE, ZERO_TRIM)

  /** The four bytes of one frame, yaw first. */
  function Bytes(c: Command): seq<int>
  {
    [c.yaw, c.pitch, c.throttle, c.trim]
  }

  /** Reads one frame back into a command. */
  function Decode(frame: seq<int>): Command
    requires |frame| == BYTES_IN_PACKET
  {
    Command(frame[0], frame[1], frame[2], frame[3])
  }

  /** The byte stream produced by writing the commands one after another. */
  function Flatten(cs: seq<Command>): (bs: seq<int>)
    ensures |bs| == BYTES_IN_PACKET * |cs|
  {
    if cs == [] then [] else Bytes(cs[0]) + Flatten(cs[1..])
  }

  /** Cuts a byte stream into consecutive frames, the way the receiver reads it. */
  function Frames(bs: seq<int>): (cs: seq<Command>)
    requires |bs| % BYTES_IN_PACKET == 0
    ensures BYTES_IN_PACKET * |cs| == |bs|
  {
    if bs == [] then [] else [Decode(bs[..BYTES_IN_PACKET])] + Frames(bs[BYTES_IN_PACKET..])
  }

  /** Writing commands and reading the stream back frame by frame gives the same commands. */
  lemma {:induction false} FramesOfFlatten(cs: seq<Command>)
    ensures Frames(Flatten(cs)) == cs
  {
    if cs != [] {
      var bs := Flatten(cs);
      assert bs[..BYTES_IN_PACKET] == Bytes(cs[0]);
      assert bs[BYTES_IN_PACKET..] == Flatten(cs[1..]);
      FramesOfFlatten(cs[1..]);
    }
  }

  /** Writing two batches of commands writes the two byte streams back to back. */
  lemma {:induction false} FlattenAppend(a: seq<Command>, b: seq<Command>)
    ensures Flatten(a + b) == Flatten(a) + Flatten(b)
  {
    if a == [] {
      assert a + b == b;
    } else {
      assert (a + b)[1..] == a[1..] + b;
      FlattenAppend(a[1..], b);
    }
  }
}

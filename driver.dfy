/**
 * The receiver sketch: it holds the last command received over the serial
 * port, sends it to the helicopter as an infrared packet, waits out the rest
 * of a 100 ms slot, and writes one READY_TO_ACCEPT_ACK to ask for the next.
 *
 * A packet is a header, the 32 bits of yaw, pitch, throttle and trim (each
 * byte most significant bit first, each bit a burst of carrier cycles then a
 * long gap for 1 or a short gap for 0) and a footer. The pulses themselves
 * are not modelled: a packet is the bit train it carries, and its air time
 * is computed from that train.
 */
module Driver {
  import opened Protocol

  const BITS_IN_BYTE: int := 8

  const PACKETS_PER_SECOND: int := 10
  /** Named for microseconds, but it is the number of milliseconds in a second. */
  const MICROSECONDS_IN_A_SECOND: int := 1000

  const CYCLES_FOR_HEADER: int := 77
  const CYCLES_FOR_BIT: int := 12
  const CYCLES_FOR_FOOTER: int := 12
  const CYCLE_TIME: int := 26

  const HEADER_DELAY: int := 1998
  const ONE: int := 688
  const ZERO: int := 288

  const BIT_0: bv8 := 1
  const BIT_1: bv8 := 2
  const BIT_2: bv8 := 4
  const BIT_3: bv8 := 8
  const BIT_4: bv8 := 16
  const BIT_5: bv8 := 32
  const BIT_6: bv8 := 64
  const BIT_7: bv8 := 128

  /** The masks that select bit 0 to bit 7 of a byte, indexed by bit position. */
  const BIT_MASKS: seq<bv8> := [BIT_0, BIT_1, BIT_2, BIT_3, BIT_4, BIT_5, BIT_6, BIT_7]

  /** The command held before anything is received. */
  const INITIAL_COMMAND: seq<bv8> := [ZERO_YAW as bv8, ZERO_PITCH as bv8, ZERO_THROTTLE as bv8, ZERO_TRIM as bv8]

  const ACK: bv8 := READY_TO_ACCEPT_ACK as bv8

  /** The bits of a byte, most significant first: element i is bit 7 - i. */
  function MsbFirst(b: bv8): (bits: seq<bool>)
    ensures |bits| == BITS_IN_BYTE
  {
    [b & BIT_7 != 0, b & BIT_6 != 0, b & BIT_5 != 0, b & BIT_4 != 0,
     b & BIT_3 != 0, b & BIT_2 != 0, b & BIT_1 != 0, b & BIT_0 != 0]
  }

  /** Reassembles a byte from its bits, most significant first. */
  function Pack(bits: seq<bool>): bv8
    requires |bits| == BITS_IN_BYTE
  {
    (if bits[0] then 128 else 0) | (if bits[1] then 64 else 0) |
    (if bits[2] then 32 else 0) | (if bits[3] then 16 else 0) |
    (if bits[4] then 8 else 0) | (if bits[5] then 4 else 0) |
    (if bits[6] then 2 else 0) | (if bits[7] then 1 else 0)
  }

  /** Packing the bits of a byte gives the byte back. */
  lemma PackMsbFirst(b: bv8)
    ensures Pack(MsbFirst(b)) == b
  {
    var bits := MsbFirst(b);
    assert bits[0] == (b & 128 != 0) && bits[1] == (b & 64 != 0);
    assert bits[2] == (b & 32 != 0) && bits[3] == (b & 16 != 0);
    assert bits[4] == (b & 8 != 0) && bits[5] == (b & 4 != 0);
    assert bits[6] == (b & 2 != 0) && bits[7] == (b & 1 != 0);
  }

  /** Unpacking a packed byte gives the bits back. */
  lemma MsbFirstPack(bits: seq<bool>)
    requires |bits| == BITS_IN_BYTE
    ensures MsbFirst(Pack(bits)) == bits
  {
    var p := Pack(bits);
    assert MsbFirst(p)[0] == bits[0] && MsbFirst(p)[1] == bits[1];
    assert MsbFirst(p)[2] == bits[2] && MsbFirst(p)[3] == bits[3];
    assert MsbFirst(p)[4] == bits[4] && MsbFirst(p)[5] == bits[5];
    assert MsbFirst(p)[6] == bits[6] && MsbFirst(p)[7] == bits[7];
  }

  /** The bit train of a packet: every byte in order, each most significant bit first. */
  function Expansion(bytes: seq<bv8>): (bits: seq<bool>)
    ensures |bits| == BITS_IN_BYTE * |bytes|
  {
    if bytes == [] then [] else MsbFirst(bytes[0]) + Expansion(bytes[1..])
  }

  /** Bit j of byte i sits at position 8 * i + j of the train. */
  lemma {:induction false} ExpansionAt(bytes: seq<bv8>, i: int, j: int)
    requires 0 <= i < |bytes| && 0 <= j < BITS_IN_BYTE
    ensures Expansion(bytes)[BITS_IN_BYTE * i + j] == MsbFirst(bytes[i])[j]
  {
    if i > 0 {
      ExpansionAt(bytes[1..], i - 1, j);
    }
  }

  /** Testing a byte against mask k reads bit k, which sits at position 7 - k of MsbFirst. */
  lemma MaskTest(b: bv8, k: int, j: int)
    requires 0 <= k < BITS_IN_BYTE && j == BITS_IN_BYTE - 1 - k
    ensures (b & BIT_MASKS[k] != 0) == MsbFirst(b)[j]
  {
    var bits := MsbFirst(b);
    if k == 0 {
      assert BIT_MASKS[k] == BIT_0 && bits[j] == (b & BIT_0 != 0);
    } else if k == 1 {
      assert BIT_MASKS[k] == BIT_1 && bits[j] == (b & BIT_1 != 0);
    } else if k == 2 {
      assert BIT_MASKS[k] == BIT_2 && bits[j] == (b & BIT_2 != 0);
    } else if k == 3 {
      assert BIT_MASKS[k] == BIT_3 && bits[j] == (b & BIT_3 != 0);
    } else if k == 4 {
      assert BIT_MASKS[k] == BIT_4 && bits[j] == (b & BIT_4 != 0);
    } else if k == 5 {
      assert BIT_MASKS[k] == BIT_5 && bits[j] == (b & BIT_5 != 0);
    } else if k == 6 {
      assert BIT_MASKS[k] == BIT_6 && bits[j] == (b & BIT_6 != 0);
    } else {
      assert BIT_MASKS[k] == BIT_7 && bits[j] == (b & BIT_7 != 0);
    }
  }

  /** A bit's contribution to the count of ones. */
  function One(b: bool): nat { if b then 1 else 0 }

  /** The number of 1 bits. */
  function Popcount(bits: seq<bool>): (n: nat)
    ensures n <= |bits|
  {
    if bits == [] then 0 else Popcount(bits[..|bits| - 1]) + One(bits[|bits| - 1])
  }

  /** The bit the loop tests with byte i and mask k is the next bit of the expansion. */
  lemma NextBit(bytes: seq<bv8>, full: seq<bool>, i: int, k: int, n: int, b: bv8, bit: bool)
    requires full == Expansion(bytes)
    requires 0 <= i < |bytes| && 0 <= k < BITS_IN_BYTE && n == BITS_IN_BYTE * i + (BITS_IN_BYTE - 1 - k)
    requires b == bytes[i] && bit == (b & BIT_MASKS[k] != 0)
    ensures 0 <= n < |full| && bit == full[n]
  {
    var j := BITS_IN_BYTE - 1 - k;
    MaskTest(bytes[i], k, j);
    ExpansionAt(bytes, i, j);
  }

  /** Sending the next bit of a train extends the prefix sent so far and its count of ones. */
  lemma TrainStep(full: seq<bool>, train: seq<bool>, n: int, bit: bool)
    requires 0 <= n < |full| && train == full[..n] && bit == full[n]
    ensures train + [bit] == full[..n + 1]
    ensures Popcount(train + [bit]) == Popcount(train) + One(bit)
  {
    assert (train + [bit])[..|train|] == train;
  }

  /** The fixed parts of a packet's air time, in microseconds. */
  const HEADER_TIME: int := CYCLES_FOR_HEADER * CYCLE_TIME + HEADER_DELAY
  const FOOTER_TIME: int := CYCLES_FOR_FOOTER * CYCLE_TIME
  const BIT_START_TIME: int := CYCLES_FOR_BIT * CYCLE_TIME

  /** Air time of a run of bits: each is a burst of carrier cycles, then the gap for a 1 or a 0. */
  function BitsTime(bits: seq<bool>): int
  {
    if bits == [] then 0 else BitsTime(bits[..|bits| - 1]) + BIT_START_TIME + (if bits[|bits| - 1] then ONE else ZERO)
  }

  /** Air time of a packet carrying this bit train, in microseconds. */
  function AirTime(train: seq<bool>): int
  {
    HEADER_TIME + BitsTime(train) + FOOTER_TIME
  }

  /** Counting the ones gives the air time bit by bit. */
  lemma {:induction false} BitsTimeCount(bits: seq<bool>)
    ensures BitsTime(bits) == BIT_START_TIME * |bits| + ONE * Popcount(bits) + ZERO * (|bits| - Popcount(bits))
  {
    if bits != [] {
      BitsTimeCount(bits[..|bits| - 1]);
    }
  }

  /**
   * A whole number of microseconds, read as milliseconds and converted to a
   * C int: the quotient by 1000, truncated toward zero.
   */
  function TruncMillis(n: int): (q: int)
    ensures n >= 0 ==> 0 <= 1000 * q <= n < 1000 * q + 1000
    ensures n < 0 ==> 1000 * q - 1000 < n <= 1000 * q <= 0
  {
    if n >= 0 then n / 1000 else -((-n) / 1000)
  }

  /**
   * The bit loop of sendPacket: walks the bytes in order and, within each
   * byte, the masks from bit 7 down to bit 0, sending each bit and counting
   * ones and zeroes.
   */
  method SendBits(packetBytes: array<bv8>) returns (train: seq<bool>, ones: int, zeroes: int)
    requires packetBytes.Length == BYTES_IN_PACKET
    ensures train == Expansion(packetBytes[..])
    ensures ones == Popcount(train) && zeroes == |train| - ones
  {
    ghost var bytes := packetBytes[..];
    ghost var full := Expansion(bytes);
    ghost var sent := 0;
    ones := 0;
    zeroes := 0;
    var currentByteIndex := 0;
    var currentBitIndex := BITS_IN_BYTE - 1;
    train := [];

    while currentByteIndex < BYTES_IN_PACKET
      invariant 0 <= currentByteIndex <= BYTES_IN_PACKET
      invariant 0 <= currentBitIndex < BITS_IN_BYTE
      invariant currentByteIndex == BYTES_IN_PACKET ==> currentBitIndex == BITS_IN_BYTE - 1
      invariant sent == BITS_IN_BYTE * currentByteIndex + (BITS_IN_BYTE - 1 - currentBitIndex)
      invariant train == full[..sent]
      invariant ones == Popcount(train) && zeroes == |train| - ones
      decreases BITS_IN_BYTE * (BYTES_IN_PACKET - currentByteIndex) + currentBitIndex
    {
      var bit := packetBytes[currentByteIndex] & BIT_MASKS[currentBitIndex] != 0;
      NextBit(bytes, full, currentByteIndex, currentBitIndex, sent, packetBytes[currentByteIndex], bit);
      currentBitIndex := currentBitIndex - 1;
      if bit {
        ones := ones + 1;
      } else {
        zeroes := zeroes + 1;
      }
      TrainStep(full, train, sent, bit);
      train := train + [bit];
      assert train == full[..sent + 1] && |train| == sent + 1;
      sent := sent + 1;

      if currentBitIndex < 0 {
        currentBitIndex := BITS_IN_BYTE - 1;
        currentByteIndex := currentByteIndex + 1;
      }
    }
    assert train == full;
  }

  /**
   * Sends one packet and returns the whole milliseconds left of the 100 ms
   * slot once the packet's air time is taken off.
   */
  method SendPacket(yaw: bv8, pitch: bv8, throttle: bv8, trim: bv8)
    returns (train: seq<bool>, ones: int, zeroes: int, delay: int)
    ensures train == Expansion([yaw, pitch, throttle, trim])
    ensures ones == Popcount(train) && zeroes == |train| - ones
    ensures ones + zeroes == BYTES_IN_PACKET * BITS_IN_BYTE
    ensures 1000 * delay <= 1000 * (MICROSECONDS_IN_A_SECOND / PACKETS_PER_SECOND) - AirTime(train) < 1000 * delay + 1000
    ensures 63 <= delay <= 76
  {
    var packetBytes := new bv8[BYTES_IN_PACKET];
    packetBytes[0] := yaw;
    packetBytes[1] := pitch;
    packetBytes[2] := throttle;
    packetBytes[3] := trim;
    assert packetBytes[..] == [yaw, pitch, throttle, trim];
    train, ones, zeroes := SendBits(packetBytes);

    var headerTime := CYCLES_FOR_HEADER * CYCLE_TIME + HEADER_DELAY;
    var footerTime := CYCLES_FOR_FOOTER * CYCLE_TIME;
    var totalBitStartTime := CYCLES_FOR_BIT * CYCLE_TIME * BITS_IN_BYTE * BYTES_IN_PACKET;
    var onesTime := ONE * ones;
    var zeroesTime := ZERO * zeroes;
    var totalPacketTime := headerTime + footerTime + totalBitStartTime + onesTime + zeroesTime;
    BitsTimeCount(train);
    assert totalPacketTime == AirTime(train);

    // The source subtracts the air time in milliseconds, as a float, from the
    // slot length and converts the difference to int; scaled by 1000 this is
    // the same truncating division on integers.
    delay := TruncMillis(MICROSECONDS_IN_A_SECOND / PACKETS_PER_SECOND * 1000 - totalPacketTime);
  }

  /**
   * The receiver's state: the command array, the serial bytes received but
   * not yet read, the bytes it has written back, and a trace of the packets
   * sent and the delay after each.
   */
  class Receiver {
    var command: array<bv8>
    var available: seq<bv8>
    var serialOut: seq<bv8>
    var packets: seq<seq<bool>>
    var delays: seq<int>

    /** The command array has one entry per field, and exactly one ACK was written per packet. */
    ghost predicate Valid()
      reads this
    {
      command.Length == BYTES_IN_PACKET &&
      |serialOut| == |packets| == |delays| &&
      forall i :: 0 <= i < |serialOut| ==> serialOut[i] == ACK
    }

    constructor ()
      ensures Valid() && fresh(command)
      ensures command[..] == INITIAL_COMMAND
      ensures available == [] && serialOut == [] && packets == [] && delays == []
    {
      command := new bv8[] [ZERO_YAW as bv8, ZERO_PITCH as bv8, ZERO_THROTTLE as bv8, ZERO_TRIM as bv8];
      available, serialOut, packets, delays := [], [], [], [];
    }

    /** Bytes arriving on the serial port between passes of the loop. */
    method Receive(bytes: seq<bv8>)
      modifies this`available
      ensures available == old(available) + bytes
    {
      available := available + bytes;
    }

    /**
     * One pass of the loop: take a new command only when a whole one has
     * arrived, otherwise keep the last; send it; then ask for the next.
     */
    method LoopOnce()
      requires Valid()
      modifies this`available, this`serialOut, this`packets, this`delays, command
      ensures Valid()
      ensures |old(available)| >= BYTES_IN_PACKET ==>
                command[..] == old(available)[..BYTES_IN_PACKET] && available == old(available)[BYTES_IN_PACKET..]
      ensures |old(available)| < BYTES_IN_PACKET ==>
                command[..] == old(command[..]) && available == old(available)
      ensures packets == old(packets) + [Expansion(command[..])]
      ensures serialOut == old(serialOut) + [ACK]
      ensures |delays| == |old(delays)| + 1 && delays[..|old(delays)|] == old(delays)
      ensures 1000 * delays[|old(delays)|] <= 100000 - AirTime(packets[|old(packets)|]) < 1000 * delays[|old(delays)|] + 1000
    {
      if |available| >= BYTES_IN_PACKET {
        for i := 0 to BYTES_IN_PACKET
          modifies this`available, command
          invariant available == old(available)[i..]
          invariant command[..i] == old(available)[..i]
        {
          command[i] := available[0];
          available := available[1..];
        }
      }
      var train, ones, zeroes, delay := SendPacket(command[0], command[1], command[2], command[3]);
      assert [command[0], command[1], command[2], command[3]] == command[..];
      packets := packets + [train];
      delays := delays + [delay];
      serialOut := serialOut + [ACK];
    }
  }

  // The 16-bit arithmetic of the sketch as written.

  /** The value a 16-bit two's-complement int holds after a computation that should give x. */
  function Int16(x: int): (r: int)
    ensures -32768 <= r <= 32767
    ensures -32768 <= x <= 32767 ==> r == x
    ensures (x - r) % 65536 == 0
  {
    (x + 32768) % 65536 - 32768
  }

  /** total_packet_time as a 16-bit int computes it. */
  function PacketTimeAsWritten(ones: int, zeroes: int): int
  {
    var bitStartTime := Int16(CYCLES_FOR_BIT * CYCLE_TIME * BITS_IN_BYTE * BYTES_IN_PACKET);
    Int16(Int16(Int16(Int16(HEADER_TIME + FOOTER_TIME) + bitStartTime) + Int16(ONE * ones)) + Int16(ZERO * zeroes))
  }

  /** The delay the sketch returns when its int is 16 bits wide. */
  function DelayAsWritten(ones: int, zeroes: int): int
  {
    TruncMillis(MICROSECONDS_IN_A_SECOND / PACKETS_PER_SECOND * 1000 - PacketTimeAsWritten(ones, zeroes))
  }

  /**
   * With 16-bit ints, a packet with 24 or more 1 bits overflows
   * total_packet_time, and the delay comes out above the whole 100 ms slot;
   * below 24 the result is the intended one.
   */
  lemma Int16Overflow(ones: int)
    requires 0 <= ones <= BYTES_IN_PACKET * BITS_IN_BYTE
    ensures ones >= 24 ==> PacketTimeAsWritten(ones, 32 - ones) == 23512 + 400 * ones - 65536
    ensures ones >= 24 ==> DelayAsWritten(ones, 32 - ones) > 100
    ensures ones < 24 ==> PacketTimeAsWritten(ones, 32 - ones) == 23512 + 400 * ones
  {
    assert -32768 <= ONE * ones <= 32767;
    assert -32768 <= ZERO * (32 - ones) <= 32767;
  }
}

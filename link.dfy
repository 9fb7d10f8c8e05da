/**
 * The two programs together: a command the host produces in ordinary use
 * (stick released, full throttle, trim where it starts) carries 25 one bits,
 * and with the receiver's 16-bit int its air time overflows, so the delay the
 * sketch computes is 132 ms instead of the 66 ms left of the slot.
 */
module Link {
  import opened Protocol
  import VirtualRc
  import opened Driver

  /** Counting ones is additive over concatenation. */
  lemma {:induction false} PopcountAppend(a: seq<bool>, b: seq<bool>)
    ensures Popcount(a + b) == Popcount(a) + Popcount(b)
    decreases |b|
  {
    if b == [] {
      assert a + b == a;
    } else {
      var b0 := b[..|b| - 1];
      assert (a + b)[..|a + b| - 1] == a + b0;
      assert (a + b)[|a + b| - 1] == b[|b| - 1];
      PopcountAppend(a, b0);
    }
  }

  /** The train of four bytes is the four bytes' bits back to back. */
  lemma ExpansionOfFour(b0: bv8, b1: bv8, b2: bv8, b3: bv8)
    ensures Expansion([b0, b1, b2, b3]) == MsbFirst(b0) + MsbFirst(b1) + MsbFirst(b2) + MsbFirst(b3)
  {
    var bs := [b0, b1, b2, b3];
    assert bs[1..] == [b1, b2, b3];
    assert [b1, b2, b3][1..] == [b2, b3];
    assert [b2, b3][1..] == [b3];
    assert Expansion([b3]) == MsbFirst(b3) + Expansion([]);
    assert Expansion([b2, b3]) == MsbFirst(b2) + Expansion([b3]);
    assert Expansion([b1, b2, b3]) == MsbFirst(b1) + Expansion([b2, b3]);
    assert Expansion(bs) == MsbFirst(b0) + Expansion([b1, b2, b3]);
  }

  /** The sum of the four bytes' one bits. */
  lemma PopcountOfFour(b0: bv8, b1: bv8, b2: bv8, b3: bv8)
    ensures Popcount(Expansion([b0, b1, b2, b3])) ==
            Popcount(MsbFirst(b0)) + Popcount(MsbFirst(b1)) + Popcount(MsbFirst(b2)) + Popcount(MsbFirst(b3))
  {
    ExpansionOfFour(b0, b1, b2, b3);
    PopcountAppend(MsbFirst(b0), MsbFirst(b1));
    PopcountAppend(MsbFirst(b0) + MsbFirst(b1), MsbFirst(b2));
    PopcountAppend(MsbFirst(b0) + MsbFirst(b1) + MsbFirst(b2), MsbFirst(b3));
  }

  /** The ones of an eight-bit run, counted position by position. */
  lemma PopcountEight(s: seq<bool>)
    requires |s| == 8
    ensures Popcount(s) == One(s[0]) + One(s[1]) + One(s[2]) + One(s[3]) + One(s[4]) + One(s[5]) + One(s[6]) + One(s[7])
  {
    assert s[..8] == s;
    forall k | 1 <= k <= 8
      ensures Popcount(s[..k]) == Popcount(s[..k - 1]) + One(s[k - 1])
    {
      assert s[..k][..k - 1] == s[..k - 1];
    }
    assert s[..0] == [];
  }

  /** 63 is 00111111 and 127 is 01111111: six and seven one bits. */
  lemma OnesOfValues()
    ensures Popcount(MsbFirst(63)) == 6 && Popcount(MsbFirst(127)) == 7
  {
    PopcountEight(MsbFirst(63));
    PopcountEight(MsbFirst(127));
  }

  /** The command sampled with the stick released, full throttle and the starting trim. */
  const FULL_THROTTLE: Command := Command(63, 63, 127, 63)

  /**
   * The host produces FULL_THROTTLE as an ordinary in-range command; its
   * train has 25 one bits and an air time of 33512 us, which a 16-bit int
   * holds as -32024. The sketch as written then waits 132 ms, where the slot
   * leaves 66 ms, the delay SendPacket computes.
   */
  lemma FullThrottleOverflows()
    ensures VirtualRc.Sample(VirtualRc.CENTRED, VirtualRc.THROTTLE_MAX, VirtualRc.INITIAL_TRIM) == FULL_THROTTLE
    ensures VirtualRc.InRange(FULL_THROTTLE)
    ensures Popcount(Expansion([63, 63, 127, 63])) == 25
    ensures AirTime(Expansion([63, 63, 127, 63])) == 33512
    ensures PacketTimeAsWritten(25, 7) == -32024
    ensures DelayAsWritten(25, 7) == 132
    ensures TruncMillis(MICROSECONDS_IN_A_SECOND / PACKETS_PER_SECOND * 1000 - AirTime(Expansion([63, 63, 127, 63]))) == 66
  {
    var train := Expansion([63, 63, 127, 63]);
    PopcountOfFour(63, 63, 127, 63);
    OnesOfValues();
    BitsTimeCount(train);
    Int16Overflow(25);
  }
}

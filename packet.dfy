/** The wire formats of the drone link: the 16-byte command packet with its additive
    checksum, and the two zero-filled probe packets used to test reachability. */
module Packet {
  import opened Protocol

  type Byte = b: int | 0 <= b < 256

  const HEADER: Byte := 0x30
  const PACKET_LENGTH := 16
  const MAX_THRUST_WIRE := 65535

  /** The four bytes `Buffer.writeFloatLE` writes for a number. The IEEE 754 binary32
      bit pattern is not modelled: any function giving four bytes per real will do. */
  type Float32LE = f: real -> seq<Byte> | forall x :: |f(x)| == 4
    witness (x: real) => [0 as Byte, 0, 0, 0]

  /** Sum of a byte sequence, accumulated front to back as the checksum loop does. */
  function Sum(s: seq<int>): (r: int)
    ensures (forall i :: 0 <= i < |s| ==> 0 <= s[i] < 256) ==> 0 <= r <= 255 * |s|
  {
    if s == [] then 0 else Sum(s[..|s| - 1]) + s[|s| - 1]
  }

  /** `Math.max(0, Math.min(65535, Math.floor((thrust / 100) * 65535)))`. */
  function ThrustScaled(thrust: real): (r: int)
    ensures 0 <= r <= MAX_THRUST_WIRE
    ensures thrust <= 0.0 ==> r == 0
    ensures thrust >= 100.0 ==> r == MAX_THRUST_WIRE
    ensures 0.0 <= thrust <= 100.0 ==>
      r as real <= thrust / 100.0 * 65535.0 < r as real + 1.0
  {
    var scaled := (thrust / 100.0 * 65535.0).Floor;
    if scaled > MAX_THRUST_WIRE then MAX_THRUST_WIRE
    else if scaled < 0 then 0
    else scaled
  }

  /** `Buffer.writeUInt16LE`: low byte first. */
  function U16LE(v: int): (r: seq<Byte>)
    requires 0 <= v <= 65535
    ensures |r| == 2 && DecodeU16LE(r[0], r[1]) == v
  {
    [v % 256, v / 256]
  }

  function DecodeU16LE(lo: Byte, hi: Byte): (v: int)
    ensures 0 <= v <= 65535
  {
    lo + 256 * hi
  }

  /** The first fifteen bytes of a command packet: header, roll, pitch, yaw, thrust. */
  function PacketBody(cmd: Command, f32: Float32LE): (body: seq<Byte>)
    ensures |body| == PACKET_LENGTH - 1
  {
    [HEADER] + f32(cmd.roll) + f32(cmd.pitch) + f32(cmd.yaw) + U16LE(ThrustScaled(cmd.thrust))
  }

  /** The checksum byte: the low eight bits of the sum of the preceding bytes. */
  function Checksum(body: seq<Byte>): (c: Byte)
    ensures (Sum(body) - c) % 256 == 0
  {
    Sum(body) % 256
  }

  /** The command packet that `sendLastCommand` builds for a command. */
  function CommandPacket(cmd: Command, f32: Float32LE): (p: seq<Byte>)
    ensures |p| == PACKET_LENGTH
    ensures p[0] == HEADER
    ensures p[1..5] == f32(cmd.roll) && p[5..9] == f32(cmd.pitch) && p[9..13] == f32(cmd.yaw)
    ensures DecodeU16LE(p[13], p[14]) == ThrustScaled(cmd.thrust)
    ensures WellFormed(p)
  {
    var body := PacketBody(cmd, f32);
    assert body[13..15] == U16LE(ThrustScaled(cmd.thrust));
    body + [Checksum(body)]
  }

  /** A packet the drone accepts: sixteen bytes, the header, and a matching checksum. */
  predicate WellFormed(p: seq<Byte>)
  {
    |p| == PACKET_LENGTH && p[0] == HEADER && p[15] == Checksum(p[..15])
  }

  /** Writes `bytes` into `buf` at `offset`, as `writeFloatLE` / `writeUInt16LE` do. */
  method WriteAt(buf: array<Byte>, offset: nat, bytes: seq<Byte>)
    requires offset + |bytes| <= buf.Length
    modifies buf
    ensures buf[..] == old(buf[..offset]) + bytes + old(buf[offset + |bytes|..])
  {
    ghost var before := buf[..];
    var i := 0;
    while i < |bytes|
      invariant 0 <= i <= |bytes|
      invariant forall j :: 0 <= j < buf.Length ==>
        buf[j] == if offset <= j < offset + i then bytes[j - offset] else before[j]
    {
      buf[offset + i] := bytes[i];
      i := i + 1;
    }
    ghost var after := before[..offset] + bytes + before[offset + |bytes|..];
    assert forall j :: 0 <= j < buf.Length ==> buf[..][j] == after[j];
  }

  /** Fills a 16-byte buffer field by field and accumulates the checksum over bytes 0..14. */
  method EncodeCommand(cmd: Command, f32: Float32LE) returns (packet: seq<Byte>)
    ensures packet == CommandPacket(cmd, f32)
  {
    var buf := new Byte[PACKET_LENGTH];
    buf[0] := HEADER;
    var thrustScaled := ThrustScaled(cmd.thrust);
    WriteAt(buf, 1, f32(cmd.roll));
    WriteAt(buf, 5, f32(cmd.pitch));
    WriteAt(buf, 9, f32(cmd.yaw));
    WriteAt(buf, 13, U16LE(thrustScaled));
    assert buf[..15] == PacketBody(cmd, f32);
    var crc: int := 0;
    var i := 0;
    while i < 15
      invariant 0 <= i <= 15
      invariant crc == Sum(buf[..i])
    {
      assert buf[..i + 1][..i] == buf[..i];
      crc := crc + buf[i];
      i := i + 1;
    }
    buf[15] := crc % 256;
    packet := buf[..];
  }

  /** A connectivity probe of `len` bytes: the header, zeros, and a trailing 0x30. */
  function ProbePacket(len: nat): (p: seq<Byte>)
    requires len >= 2
    ensures |p| == len && p[0] == HEADER && p[len - 1] == HEADER
    ensures forall i :: 0 < i < len - 1 ==> p[i] == 0
  {
    [HEADER] + seq(len - 2, _ => 0) + [HEADER]
  }

  /** The probe sent for an explicit `connect` request: 14 bytes. */
  function ConnectProbe(): (p: seq<Byte>)
    ensures |p| == 14 && !WellFormed(p)
  {
    ProbePacket(14)
  }

  /** The probe sent by the watchdog's reconnect attempt: 16 bytes. */
  function RetryProbe(): (p: seq<Byte>)
    ensures |p| == PACKET_LENGTH
  {
    ProbePacket(16)
  }

  // ---------------------------------------------------------------------------
  // Properties of the codec

  lemma {:induction false} SumNonNegative(s: seq<Byte>)
    ensures Sum(s) >= 0
  {
    if s != [] {
      SumNonNegative(s[..|s| - 1]);
    }
  }

  /** Changing one byte changes the sum by exactly the difference of the two bytes. */
  lemma {:induction false} SumUpdate(s: seq<int>, i: nat, b: int)
    requires i < |s|
    ensures Sum(s[i := b]) == Sum(s) - s[i] + b
  {
    var n := |s| - 1;
    assert s[i := b][..n] == if i < n then s[..n][i := b] else s[..n];
    if i < n {
      SumUpdate(s[..n], i, b);
    }
  }

  /** A single corrupted byte among the fifteen checksummed bytes always changes the
      checksum, so the drone can detect it. */
  lemma SingleByteCorruptionDetected(body: seq<Byte>, i: nat, b: Byte)
    requires |body| == PACKET_LENGTH - 1 && i < |body| && b != body[i]
    ensures Checksum(body[i := b]) != Checksum(body)
  {
    SumUpdate(body, i, b);
    SumNonNegative(body);
    var d := b - body[i];
    assert -256 < d < 256 && d != 0;
    var x := Sum(body);
    assert Sum(body[i := b]) == x + d;
  }

  /** Scenario: thrust 50 goes on the wire as 32767, stored low byte first (0xFF, 0x7F). */
  lemma ThrustHalfScale(cmd: Command, f32: Float32LE)
    requires cmd.thrust == 50.0
    ensures CommandPacket(cmd, f32)[13..15] == [0xFF, 0x7F]
  {
    var p := CommandPacket(cmd, f32);
    assert (50.0 / 100.0 * 65535.0).Floor == 32767;
    assert ThrustScaled(50.0) == 32767;
    assert DecodeU16LE(p[13], p[14]) == 32767;
  }

  /** Reading the thrust field back and rescaling to percent gives the original
      thrust to within one unit of the wire resolution (100/65535 percent). */
  lemma ThrustRecovered(cmd: Command, f32: Float32LE)
    requires 0.0 <= cmd.thrust <= 100.0
    ensures var p := CommandPacket(cmd, f32);
            var back := DecodeU16LE(p[13], p[14]) as real * 100.0 / 65535.0;
            cmd.thrust - 100.0 / 65535.0 < back <= cmd.thrust
  {
    var p := CommandPacket(cmd, f32);
    var n := ThrustScaled(cmd.thrust) as real;
    var t := cmd.thrust;
    assert n <= t / 100.0 * 65535.0 < n + 1.0;
    assert n * 100.0 / 65535.0 <= t by {
      assert n * 100.0 <= t * 65535.0;
    }
    assert t < (n + 1.0) * 100.0 / 65535.0 by {
      assert t * 65535.0 < (n + 1.0) * 100.0;
    }
  }

  /** The 16-byte retry probe happens to be a well-formed command packet: it is the
      packet of the neutral command whenever 0.0 is written as four zero bytes, as
      binary32 does for +0.0. The 14-byte connect probe is not a command packet. */
  lemma RetryProbeIsNeutralCommand(f32: Float32LE)
    requires f32(0.0) == [0, 0, 0, 0]
    ensures RetryProbe() == CommandPacket(ZeroCommand, f32)
    ensures WellFormed(RetryProbe())
  {
    var p := RetryProbe();
    var q := CommandPacket(ZeroCommand, f32);
    assert ThrustScaled(0.0) == 0;
    assert PacketBody(ZeroCommand, f32) == p[..15];
    assert Sum(p[..15]) == 0x30 by {
      ZeroTailSum(p[..15]);
    }
  }

  /** The sum of a sequence that is zero after its first element. */
  lemma {:induction false} ZeroTailSum(s: seq<Byte>)
    requires |s| >= 1 && forall i :: 1 <= i < |s| ==> s[i] == 0
    ensures Sum(s) == s[0]
  {
    if |s| > 1 {
      ZeroTailSum(s[..|s| - 1]);
    }
  }
}

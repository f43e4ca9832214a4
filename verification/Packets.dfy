/** The packet bodies the host builds, and how a receiver reads them. */
module Packets {
  import opened Basics
  import opened Offsets

  const MODE_NONE: byte := 0
  const MODE_EXPLICIT: byte := 1
  const MODE_LINEAR: byte := 2
  const MODE_VSHAPE: byte := 3
  const MODE_MODULO: byte := 4

  // ---- little-endian 16-bit fields ---------------------------------------------

  function U16(v: int): (r: seq<byte>)
    requires 0 <= v <= 0xFFFF
    ensures |r| == 2 && ReadU16(r[0], r[1]) == v
  {
    [v % 256, v / 256]
  }

  function I16(v: int): (r: seq<byte>)
    requires Int16(v)
    ensures |r| == 2 && ReadI16(r[0], r[1]) == v
  {
    U16(if v < 0 then v + 0x10000 else v)
  }

  function ReadU16(lo: byte, hi: byte): int {
    lo + 256 * hi
  }

  function ReadI16(lo: byte, hi: byte): int {
    var u := ReadU16(lo, hi);
    if u >= 0x8000 then u - 0x10000 else u
  }

  // ---- OPC_OFFSET ------------------------------------------------------------

  function ClampInt16(v: int): int {
    Clamp(v, INT16_MIN, INT16_MAX)
  }

  /** The configuration a body can carry: every field clamped to its wire range. */
  function ClampOffset(c: Offset): Offset {
    match c
    case NoOffset => c
    case Fixed(ms) => Fixed(ClampMs(ms))
    case Computed(Linear(base, step)) => Computed(Linear(ClampInt16(base), ClampInt16(step)))
    case Computed(VShape(base, step, center)) =>
      Computed(VShape(ClampInt16(base), ClampInt16(step), Clamp(center, 0, 254)))
    case Computed(Modulo(base, step, cycle)) =>
      Computed(Modulo(ClampInt16(base), ClampInt16(step), Clamp(cycle, 1, 255)))
  }

  function BuildOffsetBody(groupId: int, c: Offset): seq<byte> {
    var g := LowByte(groupId);
    match c
    case NoOffset => [g, MODE_NONE]
    case Fixed(ms) => [g, MODE_EXPLICIT] + U16(ClampMs(ms))
    case Computed(Linear(base, step)) => [g, MODE_LINEAR] + I16(ClampInt16(base)) + I16(ClampInt16(step))
    case Computed(VShape(base, step, center)) =>
      [g, MODE_VSHAPE] + I16(ClampInt16(base)) + I16(ClampInt16(step)) + [LowByte(Clamp(center, 0, 254))]
    case Computed(Modulo(base, step, cycle)) =>
      [g, MODE_MODULO] + I16(ClampInt16(base)) + I16(ClampInt16(step)) + [LowByte(Clamp(cycle, 1, 255))]
  }

  datatype OffsetMessage = OffsetMessage(group: byte, config: Offset)

  function ParseOffsetBody(b: seq<byte>): Result<OffsetMessage> {
    if |b| < 2 then Err(ValueError)
    else if b[1] == MODE_NONE && |b| == 2 then Ok(OffsetMessage(b[0], NoOffset))
    else if b[1] == MODE_EXPLICIT && |b| == 4 then Ok(OffsetMessage(b[0], Fixed(ReadU16(b[2], b[3]))))
    else if b[1] == MODE_LINEAR && |b| == 6 then
      Ok(OffsetMessage(b[0], Computed(Linear(ReadI16(b[2], b[3]), ReadI16(b[4], b[5])))))
    else if b[1] == MODE_VSHAPE && |b| == 7 then
      Ok(OffsetMessage(b[0], Computed(VShape(ReadI16(b[2], b[3]), ReadI16(b[4], b[5]), b[6]))))
    else if b[1] == MODE_MODULO && |b| == 7 then
      Ok(OffsetMessage(b[0], Computed(Modulo(ReadI16(b[2], b[3]), ReadI16(b[4], b[5]), b[6]))))
    else Err(ValueError)
  }

  /** Whatever the parameters, a built body parses back to the clamped configuration, in 2..7 bytes. */
  lemma OffsetBodyRoundTrip(groupId: int, c: Offset)
    ensures ParseOffsetBody(BuildOffsetBody(groupId, c)) == Ok(OffsetMessage(LowByte(groupId), ClampOffset(c)))
    ensures |BuildOffsetBody(groupId, c)| == OffsetBodyLength(c)
    ensures ValidOffset(c) ==> ClampOffset(c) == c
    ensures ValidOffset(ClampOffset(c))
  {
  }

  function OffsetBodyLength(c: Offset): (n: nat) {
    match c
    case NoOffset => 2
    case Fixed(_) => 4
    case Computed(Linear(_, _)) => 6
    case Computed(_) => 7
  }

  /** The other direction: a body that parses is rebuilt byte for byte, except for the two values the
      parser lets through and the builder clamps (center 255 and cycle 0). */
  lemma OffsetBodyRebuild(b: seq<byte>)
    requires ParseOffsetBody(b).Ok?
    ensures var m := ParseOffsetBody(b).value;
            BuildOffsetBody(m.group, m.config) == b
            <==> !(b[1] == MODE_VSHAPE && b[6] == 255) && !(b[1] == MODE_MODULO && b[6] == 0)
  {
    match ParseOffsetBody(b).value.config
    case NoOffset =>
      assert b == [b[0], b[1]];
    case Fixed(ms) =>
      U16Rebuild(b[2], b[3]);
      assert b == [b[0], b[1]] + [b[2], b[3]];
    case Computed(f) =>
      I16Rebuild(b[2], b[3]);
      I16Rebuild(b[4], b[5]);
      var front := [b[0], b[1]] + [b[2], b[3]] + [b[4], b[5]];
      assert front == b[..6];
      assert BuildOffsetBody(b[0], Computed(f))[..6] == front;
      assert b == front + b[6..];
  }

  lemma U16Rebuild(lo: byte, hi: byte)
    ensures var v := ReadU16(lo, hi);
            0 <= v <= 0xFFFF && ClampMs(v) == v && U16(v) == [lo, hi]
  {
  }

  lemma I16Rebuild(lo: byte, hi: byte)
    ensures var v := ReadI16(lo, hi);
            ClampInt16(v) == v && I16(v) == [lo, hi]
  {
  }

  /** Through the bytes: a device of group `g` that reads a broadcast formula computes what the host
      evaluates, and what the host would have sent that group as a fixed value. */
  lemma FormulaThroughBytes(f: Formula, g: byte)
    requires ValidFormula(f)
    ensures var ms := EvaluateOffsetMs(Computed(f), g);
            && ParseOffsetBody(BuildOffsetBody(BROADCAST_GROUP, Computed(f)))
               == Ok(OffsetMessage(BROADCAST_GROUP, Computed(f)))
            && ParseOffsetBody(BuildOffsetBody(g, Fixed(ms))) == Ok(OffsetMessage(g, Fixed(ms)))
            && DeviceOffsetMs(Computed(f), g) == ms == DeviceOffsetMs(Fixed(ms), g)
  {
    HostAgreesWithDevice(Computed(f), g);
    OffsetBodyRoundTrip(BROADCAST_GROUP, Computed(f));
    OffsetBodyRoundTrip(g, Fixed(EvaluateOffsetMs(Computed(f), g)));
  }

  // ---- flags, OPC_PRESET, OPC_SYNC ------------------------------------------------

  const FLAG_POWER_ON := 0x01
  const FLAG_ARM_ON_SYNC := 0x02
  const FLAG_HAS_BRI := 0x04
  const FLAG_FORCE_TT0 := 0x08
  const FLAG_FORCE_REAPPLY := 0x10
  const FLAG_OFFSET_MODE := 0x20

  datatype Flags = Flags(powerOn: bool, hasBri: bool, armOnSync: bool, forceTt0: bool, forceReapply: bool, offsetMode: bool)

  function Weight(on: bool, weight: nat): nat {
    if on then weight else 0
  }

  /** The bits are disjoint, so the byte is a sum; `BuildFlagsByte` below builds it bit by bit. */
  function FlagsByte(f: Flags): byte {
    Weight(f.powerOn, FLAG_POWER_ON) + Weight(f.armOnSync, FLAG_ARM_ON_SYNC) + Weight(f.hasBri, FLAG_HAS_BRI)
    + Weight(f.forceTt0, FLAG_FORCE_TT0) + Weight(f.forceReapply, FLAG_FORCE_REAPPLY)
    + Weight(f.offsetMode, FLAG_OFFSET_MODE)
  }

  /** Reading the byte gives back each flag; the two reserved bits stay clear. */
  lemma FlagsByteBits(f: Flags)
    ensures HasBit(FlagsByte(f), FLAG_POWER_ON) == f.powerOn
    ensures HasBit(FlagsByte(f), FLAG_ARM_ON_SYNC) == f.armOnSync
    ensures HasBit(FlagsByte(f), FLAG_HAS_BRI) == f.hasBri
    ensures HasBit(FlagsByte(f), FLAG_FORCE_TT0) == f.forceTt0
    ensures HasBit(FlagsByte(f), FLAG_FORCE_REAPPLY) == f.forceReapply
    ensures HasBit(FlagsByte(f), FLAG_OFFSET_MODE) == f.offsetMode
    ensures FlagsByte(f) < 0x40
  {
  }

  /** `if on: acc |= m`, for an `acc` that has no bit from `m` upwards yet. */
  method SetBitIf(on: bool, acc: nat, m: nat) returns (r: nat)
    requires acc < m
    ensures r == acc + Weight(on, m) < 2 * m
  {
    r := acc;
    if on {
      assert acc / m == 0 by { Quotient(acc, m); }
      r := SetBit(acc, m);
    }
  }

  lemma Quotient(a: nat, m: nat)
    requires a < m
    ensures a / m == 0
  {
  }

  method BuildFlagsByte(f: Flags) returns (out: byte)
    ensures out == FlagsByte(f)
  {
    var acc := SetBitIf(f.powerOn, 0, FLAG_POWER_ON);
    acc := SetBitIf(f.armOnSync, acc, FLAG_ARM_ON_SYNC);
    acc := SetBitIf(f.hasBri, acc, FLAG_HAS_BRI);
    acc := SetBitIf(f.forceTt0, acc, FLAG_FORCE_TT0);
    acc := SetBitIf(f.forceReapply, acc, FLAG_FORCE_REAPPLY);
    acc := SetBitIf(f.offsetMode, acc, FLAG_OFFSET_MODE);
    out := LowByte(acc);
  }

  function BuildPresetBody(groupId: int, flags: int, presetId: int, brightness: int): (b: seq<byte>)
    ensures |b| == 4
  {
    [LowByte(groupId), LowByte(flags), LowByte(presetId), LowByte(brightness)]
  }

  const SYNC_TRIGGER_ARMED := 1

  /** Four bytes for a clock tick, five when a flag is set: the clock modulo 2^24, least significant byte first,
      the brightness, and the flags. */
  function BuildSyncBody(ts24: int, brightness: int, flags: int): (b: seq<byte>)
    ensures |b| == if LowByte(flags) == 0 then 4 else 5
  {
    var ts := ts24 % 0x1000000;
    var base := [LowByte(ts), LowByte(ts / 256), LowByte(ts / 65536), LowByte(brightness)];
    if LowByte(flags) == 0 then base else base + [LowByte(flags)]
  }

  function ReadU24(lo: byte, mid: byte, hi: byte): int {
    (lo as int) + 0x100 * (mid as int) + 0x10000 * (hi as int)
  }

  /** A receiver reads back the clock modulo 2^24, the brightness and the flags. */
  lemma SyncBodyReads(ts24: int, brightness: int, flags: int)
    ensures var b := BuildSyncBody(ts24, brightness, flags);
            && ReadU24(b[0], b[1], b[2]) == ts24 % 0x1000000
            && b[3] == LowByte(brightness)
            && (if |b| == 5 then b[4] else 0) == LowByte(flags)
  {
    var ts := ts24 % 0x1000000;
    ThreeBytes(ts);
    var b := BuildSyncBody(ts24, brightness, flags);
    assert b[0] == ts % 256 && b[1] == ts / 256 % 256 && b[2] == ts / 65536 % 256;
  }

  lemma ThreeBytes(ts: nat)
    requires ts < 0x1000000
    ensures ts % 256 + 0x100 * (ts / 256 % 256) + 0x10000 * (ts / 65536 % 256) == ts
  {
  }
}

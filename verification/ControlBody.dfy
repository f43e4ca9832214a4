/** OPC_CONTROL: a body whose length follows from two presence masks. */
module ControlBody {
  import opened Basics
  import Packets

  datatype Rgb = Rgb(r: int, g: int, b: int)

  /** The builder's keyword arguments; `None` leaves the field out of the body. */
  datatype Fields = Fields(
    brightness: Option<int>, mode: Option<int>, speed: Option<int>, intensity: Option<int>,
    custom1: Option<int>, custom2: Option<int>, custom3: Option<int>,
    check1: Option<bool>, check2: Option<bool>, check3: Option<bool>,
    palette: Option<int>, color1: Option<Rgb>, color2: Option<Rgb>, color3: Option<Rgb>)

  /** One optional field as the bytes it contributes. */
  type Chunk = Option<seq<byte>>

  function ByteChunk(o: Option<int>): Chunk {
    if o.None? then None else Some([LowByte(o.value)])
  }

  function RgbChunk(o: Option<Rgb>): Chunk {
    if o.None? then None else Some([LowByte(o.value.r), LowByte(o.value.g), LowByte(o.value.b)])
  }

  predicate HasCustom3OrChecks(f: Fields) {
    f.custom3.Some? || f.check1.Some? || f.check2.Some? || f.check3.Some?
  }

  predicate On(o: Option<bool>) {
    o.Some? && o.value
  }

  function PackedCustom3(f: Fields): byte {
    (if f.custom3.Some? then f.custom3.value % 32 else 0)
    + Packets.Weight(On(f.check1), 0x20) + Packets.Weight(On(f.check2), 0x40) + Packets.Weight(On(f.check3), 0x80)
  }

  function PackedChunk(f: Fields): Chunk {
    if HasCustom3OrChecks(f) then Some([PackedCustom3(f)]) else None
  }

  function MainChunks(f: Fields): (c: seq<Chunk>)
    ensures |c| == 7
  {
    [ByteChunk(f.brightness), ByteChunk(f.mode), ByteChunk(f.speed), ByteChunk(f.intensity),
     ByteChunk(f.custom1), ByteChunk(f.custom2), PackedChunk(f)]
  }

  function ExtChunks(f: Fields): (c: seq<Chunk>)
    ensures |c| == 4
  {
    [ByteChunk(f.palette), RgbChunk(f.color1), RgbChunk(f.color2), RgbChunk(f.color3)]
  }

  const MAIN_WIDTHS: seq<nat> := [1, 1, 1, 1, 1, 1, 1]
  const EXT_WIDTHS: seq<nat> := [1, 3, 3, 3]
  const F_EXT := 0x80

  function ChunkBytes(c: Chunk): seq<byte> {
    if c.None? then [] else c.value
  }

  function BytesOf(cs: seq<Chunk>): seq<byte> {
    if cs == [] then [] else ChunkBytes(cs[0]) + BytesOf(cs[1..])
  }

  /** Bit i is set iff chunk i is present; the bits above spell `high`. */
  function MaskOf(cs: seq<Chunk>, high: nat): nat {
    if cs == [] then high else Packets.Weight(cs[0].Some?, 1) + 2 * MaskOf(cs[1..], high)
  }

  function MaskByte(cs: seq<Chunk>, high: nat): byte
    requires (|cs| == 4 && high == 0) || (|cs| == 7 && high <= 1)
  {
    if |cs| == 4 then FourMask(cs, high); MaskOf(cs, high) else SevenMask(cs, high); MaskOf(cs, high)
  }

  /** What follows group and flags: the mask, the main fields and, when there is an extended field, the extended
      mask and fields. */
  function LayoutTail(main: seq<Chunk>, ext: seq<Chunk>): seq<byte>
    requires |main| == 7 && |ext| == 4
  {
    if MaskByte(ext, 0) == 0 then [MaskByte(main, 0)] + BytesOf(main)
    else [MaskByte(main, 1)] + BytesOf(main) + ([MaskByte(ext, 0)] + BytesOf(ext))
  }

  /** The layout of the header, written down once. */
  function Layout(g: byte, flags: byte, main: seq<Chunk>, ext: seq<Chunk>): seq<byte>
    requires |main| == 7 && |ext| == 4
  {
    [g, flags] + LayoutTail(main, ext)
  }

  /** The group byte comes first and decides nothing else. */
  lemma {:induction false} LayoutHead(g: byte, flags: byte, main: seq<Chunk>, ext: seq<Chunk>)
    requires |main| == 7 && |ext| == 4
    ensures Layout(g, flags, main, ext) == [g, flags] + Layout(0, flags, main, ext)[2..]
  {
    AfterTwo(0, flags, LayoutTail(main, ext));
  }

  lemma {:induction false} AfterTwo(a: byte, b: byte, rest: seq<byte>)
    ensures ([a, b] + rest)[2..] == rest
  {
  }

  function Body(groupId: int, flags: int, f: Fields): seq<byte> {
    Layout(LowByte(groupId), LowByte(flags), MainChunks(f), ExtChunks(f))
  }

  lemma FourMask(c: seq<Chunk>, high: nat)
    requires |c| == 4
    ensures MaskOf(c, high) == Packets.Weight(c[0].Some?, 0x01) + Packets.Weight(c[1].Some?, 0x02)
                               + Packets.Weight(c[2].Some?, 0x04) + Packets.Weight(c[3].Some?, 0x08) + 0x10 * high
  {
    assert c[1..][1..] == c[2..] && c[2..][1..] == c[3..];
    assert MaskOf(c[3..], high) == Packets.Weight(c[3].Some?, 1) + 2 * high;
    assert MaskOf(c[2..], high) == Packets.Weight(c[2].Some?, 1) + 2 * MaskOf(c[3..], high);
    assert MaskOf(c[1..], high) == Packets.Weight(c[1].Some?, 1) + 2 * MaskOf(c[2..], high);
  }

  lemma SevenMask(c: seq<Chunk>, high: nat)
    requires |c| == 7
    ensures MaskOf(c, high) == Packets.Weight(c[0].Some?, 0x01) + Packets.Weight(c[1].Some?, 0x02)
                               + Packets.Weight(c[2].Some?, 0x04) + Packets.Weight(c[3].Some?, 0x08)
                               + Packets.Weight(c[4].Some?, 0x10) + Packets.Weight(c[5].Some?, 0x20)
                               + Packets.Weight(c[6].Some?, 0x40) + 0x80 * high
  {
    assert c[1..][1..] == c[2..] && c[2..][1..] == c[3..];
    assert MaskOf(c[2..], high) == Packets.Weight(c[2].Some?, 1) + 2 * MaskOf(c[3..], high);
    assert MaskOf(c[1..], high) == Packets.Weight(c[1].Some?, 1) + 2 * MaskOf(c[2..], high);
    FourMask(c[3..], high);
  }

  lemma MaskBounds(main: seq<Chunk>, ext: seq<Chunk>)
    requires |main| == 7 && |ext| == 4
    ensures MaskOf(main, 0) < 0x80 && MaskOf(main, 1) == MaskOf(main, 0) + 0x80 && MaskOf(ext, 0) < 0x10
  {
    SevenMask(main, 0); SevenMask(main, 1); FourMask(ext, 0);
  }

  lemma NoChunks(ext: seq<Chunk>)
    requires |ext| == 4 && MaskOf(ext, 0) == 0
    ensures ext == [None, None, None, None]
  {
    FourMask(ext, 0);
  }

  // ---- the receiver's side --------------------------------------------------

  datatype Taken = Taken(chunks: seq<Chunk>, rest: seq<byte>, mask: nat)

  /** Reads one chunk of the given width per set mask bit, lowest bit first. */
  function TakeChunks(mask: nat, widths: seq<nat>, s: seq<byte>): Option<Taken> {
    if widths == [] then Some(Taken([], s, mask))
    else
      var n := if mask % 2 == 1 then widths[0] else 0;
      if |s| < n then None
      else
        var t := TakeChunks(mask / 2, widths[1..], s[n..]);
        var c := if mask % 2 == 1 then Some(s[..n]) else None;
        if t.None? then None else Some(Taken([c] + t.value.chunks, t.value.rest, t.value.mask))
  }

  ghost predicate FitWidths(cs: seq<Chunk>, widths: seq<nat>) {
    |cs| == |widths| && forall i :: 0 <= i < |cs| && cs[i].Some? ==> |cs[i].value| == widths[i]
  }

  lemma {:induction false} TakeChunksRoundTrip(cs: seq<Chunk>, widths: seq<nat>, high: nat, rest: seq<byte>)
    requires FitWidths(cs, widths)
    ensures TakeChunks(MaskOf(cs, high), widths, BytesOf(cs) + rest) == Some(Taken(cs, rest, high))
  {
    if cs == [] {
      assert BytesOf(cs) + rest == rest;
    } else {
      TakeChunksRoundTrip(cs[1..], widths[1..], high, rest);
      HalfMask(cs, high);
      SplitHead(cs, rest);
      assert cs == [cs[0]] + cs[1..];
    }
  }

  lemma SplitHead(cs: seq<Chunk>, rest: seq<byte>)
    requires cs != []
    ensures var s, n := BytesOf(cs) + rest, |ChunkBytes(cs[0])|;
            |s| >= n && s[..n] == ChunkBytes(cs[0]) && s[n..] == BytesOf(cs[1..]) + rest
  {
    assert BytesOf(cs) + rest == ChunkBytes(cs[0]) + (BytesOf(cs[1..]) + rest);
  }

  lemma HalfMask(cs: seq<Chunk>, high: nat)
    requires cs != []
    ensures MaskOf(cs, high) / 2 == MaskOf(cs[1..], high)
    ensures MaskOf(cs, high) % 2 == Packets.Weight(cs[0].Some?, 1)
  {
  }

  /** What a receiver gets out of a body: masked fields, `None` where the presence bit is clear. The
      four values packed into one byte are present together. */
  function Received(main: seq<Chunk>, ext: seq<Chunk>): Fields
    requires FitWidths(main, MAIN_WIDTHS) && FitWidths(ext, EXT_WIDTHS)
  {
    var packed := main[6];
    Fields(
      One(main[0]), One(main[1]), One(main[2]), One(main[3]), One(main[4]), One(main[5]),
      if packed.None? then None else Some(packed.value[0] % 32),
      Check(packed, 0x20), Check(packed, 0x40), Check(packed, 0x80),
      One(ext[0]), Three(ext[1]), Three(ext[2]), Three(ext[3]))
  }

  function One(c: Chunk): Option<int>
    requires c.Some? ==> |c.value| == 1
  {
    if c.None? then None else Some(c.value[0])
  }

  function Three(c: Chunk): Option<Rgb>
    requires c.Some? ==> |c.value| == 3
  {
    if c.None? then None else Some(Rgb(c.value[0], c.value[1], c.value[2]))
  }

  function Check(c: Chunk, bit: nat): Option<bool>
    requires c.Some? ==> |c.value| == 1
    requires bit > 0
  {
    if c.None? then None else Some(HasBit(c.value[0], bit))
  }

  lemma {:induction false} TakenFit(mask: nat, widths: seq<nat>, s: seq<byte>)
    ensures var t := TakeChunks(mask, widths, s); t.Some? ==> FitWidths(t.value.chunks, widths)
  {
    if widths != [] {
      var n := if mask % 2 == 1 then widths[0] else 0;
      if |s| >= n {
        TakenFit(mask / 2, widths[1..], s[n..]);
      }
    }
  }

  datatype Message = Message(group: byte, flags: byte, fields: Fields)

  function Decode(b: seq<byte>): Option<Message> {
    if |b| < 3 then None
    else
      var t := TakeChunks(b[2], MAIN_WIDTHS, b[3..]);
      TakenFit(b[2], MAIN_WIDTHS, b[3..]);
      if t.None? then None
      else
        var fields := ReadExtended(t.value);
        if fields.None? then None else Some(Message(b[0], b[1], fields.value))
  }

  /** The mask bit left over after the main fields is the EXT bit. */
  function ReadExtended(t: Taken): Option<Fields>
    requires FitWidths(t.chunks, MAIN_WIDTHS)
  {
    if t.mask == 0 then
      if t.rest != [] then None else Some(Received(t.chunks, [None, None, None, None]))
    else if t.rest == [] then None
    else
      var e := TakeChunks(t.rest[0], EXT_WIDTHS, t.rest[1..]);
      TakenFit(t.rest[0], EXT_WIDTHS, t.rest[1..]);
      if e.None? || e.value.rest != [] || e.value.mask != 0 then None
      else Some(Received(t.chunks, e.value.chunks))
  }

  function MaskedRgb(o: Option<Rgb>): Option<Rgb> {
    if o.None? then None else Some(Rgb(LowByte(o.value.r), LowByte(o.value.g), LowByte(o.value.b)))
  }

  function MaskedInt(o: Option<int>): Option<int> {
    if o.None? then None else Some(LowByte(o.value))
  }

  function MaskedCheck(present: bool, o: Option<bool>): Option<bool> {
    if present then Some(On(o)) else None
  }

  /** The supplied fields as a receiver should see them. */
  function Masked(f: Fields): Fields {
    var p := HasCustom3OrChecks(f);
    Fields(
      MaskedInt(f.brightness), MaskedInt(f.mode), MaskedInt(f.speed), MaskedInt(f.intensity),
      MaskedInt(f.custom1), MaskedInt(f.custom2),
      if !p then None else if f.custom3.Some? then Some(f.custom3.value % 32) else Some(0),
      MaskedCheck(p, f.check1), MaskedCheck(p, f.check2), MaskedCheck(p, f.check3),
      MaskedInt(f.palette), MaskedRgb(f.color1), MaskedRgb(f.color2), MaskedRgb(f.color3))
  }

  lemma PackedBits(f: Fields)
    ensures var p := PackedCustom3(f);
            && p % 32 == (if f.custom3.Some? then f.custom3.value % 32 else 0)
            && HasBit(p, 0x20) == On(f.check1) && HasBit(p, 0x40) == On(f.check2) && HasBit(p, 0x80) == On(f.check3)
  {
  }

  lemma ReceivedIsMasked(f: Fields)
    ensures FitWidths(MainChunks(f), MAIN_WIDTHS) && FitWidths(ExtChunks(f), EXT_WIDTHS)
    ensures Received(MainChunks(f), ExtChunks(f)) == Masked(f)
  {
    PackedBits(f);
  }

  /** Decoding a built body by the header's layout gives back exactly the supplied fields, masked. */
  lemma ControlBodyRoundTrip(groupId: int, flags: int, f: Fields)
    ensures Decode(Body(groupId, flags, f)) == Some(Message(LowByte(groupId), LowByte(flags), Masked(f)))
  {
    ReceivedIsMasked(f);
    var main, ext := MainChunks(f), ExtChunks(f);
    if MaskByte(ext, 0) == 0 {
      NoChunks(ext);
      DecodeMainOnly(LowByte(groupId), LowByte(flags), main);
    } else {
      DecodeExtended(LowByte(groupId), LowByte(flags), main, ext);
    }
  }

  lemma DecodeMainOnly(g: byte, flags: byte, main: seq<Chunk>)
    requires FitWidths(main, MAIN_WIDTHS)
    ensures Decode([g, flags] + ([MaskByte(main, 0)] + BytesOf(main)))
         == Some(Message(g, flags, Received(main, [None, None, None, None])))
  {
    var b := [g, flags] + ([MaskByte(main, 0)] + BytesOf(main));
    assert b[3..] == BytesOf(main) + [];
    TakeChunksRoundTrip(main, MAIN_WIDTHS, 0, []);
  }

  lemma DecodeExtended(g: byte, flags: byte, main: seq<Chunk>, ext: seq<Chunk>)
    requires FitWidths(main, MAIN_WIDTHS) && FitWidths(ext, EXT_WIDTHS)
    ensures Decode([g, flags] + ([MaskByte(main, 1)] + BytesOf(main) + ([MaskByte(ext, 0)] + BytesOf(ext))))
         == Some(Message(g, flags, Received(main, ext)))
  {
    var rest := [MaskByte(ext, 0)] + BytesOf(ext);
    var b := [g, flags] + ([MaskByte(main, 1)] + BytesOf(main) + rest);
    assert b[2] == MaskByte(main, 1) && b[3..] == BytesOf(main) + rest;
    TakeChunksRoundTrip(main, MAIN_WIDTHS, 1, rest);
    ReadExtendedChunks(main, ext);
  }

  lemma ReadExtendedChunks(main: seq<Chunk>, ext: seq<Chunk>)
    requires FitWidths(main, MAIN_WIDTHS) && FitWidths(ext, EXT_WIDTHS)
    ensures ReadExtended(Taken(main, [MaskByte(ext, 0)] + BytesOf(ext), 1)) == Some(Received(main, ext))
  {
    var rest := [MaskByte(ext, 0)] + BytesOf(ext);
    assert rest[1..] == BytesOf(ext) + [];
    TakeChunksRoundTrip(ext, EXT_WIDTHS, 0, []);
  }

  function Width(c: Chunk, w: nat): nat {
    if c.None? then 0 else w
  }

  predicate HasExtended(f: Fields) {
    f.palette.Some? || f.color1.Some? || f.color2.Some? || f.color3.Some?
  }

  /** Bytes after the three fixed ones: one per main field, and the extended mask with its fields. */
  function ExtraLength(f: Fields): nat {
    Width(ByteChunk(f.brightness), 1) + Width(ByteChunk(f.mode), 1) + Width(ByteChunk(f.speed), 1)
    + Width(ByteChunk(f.intensity), 1) + Width(ByteChunk(f.custom1), 1) + Width(ByteChunk(f.custom2), 1)
    + (if HasCustom3OrChecks(f) then 1 else 0)
    + (if !HasExtended(f) then 0 else
         1 + Width(ByteChunk(f.palette), 1) + Width(RgbChunk(f.color1), 3) + Width(RgbChunk(f.color2), 3)
         + Width(RgbChunk(f.color3), 3))
  }

  lemma {:induction false} BytesOfSnoc(cs: seq<Chunk>, c: Chunk)
    ensures BytesOf(cs + [c]) == BytesOf(cs) + ChunkBytes(c)
  {
    if cs == [] {
      assert cs + [c] == [c];
    } else {
      assert (cs + [c])[1..] == cs[1..] + [c];
      BytesOfSnoc(cs[1..], c);
    }
  }

  lemma FourChunks(c: seq<Chunk>)
    requires |c| == 4
    ensures BytesOf(c) == [] + ChunkBytes(c[0]) + ChunkBytes(c[1]) + ChunkBytes(c[2]) + ChunkBytes(c[3])
  {
    assert c == c[..3] + [c[3]] && c[..3] == c[..2] + [c[2]] && c[..2] == c[..1] + [c[1]] && c[..1] == [] + [c[0]];
    BytesOfSnoc(c[..3], c[3]);
    BytesOfSnoc(c[..2], c[2]);
    BytesOfSnoc(c[..1], c[1]);
    BytesOfSnoc([], c[0]);
  }

  lemma SevenChunks(c: seq<Chunk>)
    requires |c| == 7
    ensures BytesOf(c) == [] + ChunkBytes(c[0]) + ChunkBytes(c[1]) + ChunkBytes(c[2]) + ChunkBytes(c[3])
                          + ChunkBytes(c[4]) + ChunkBytes(c[5]) + ChunkBytes(c[6])
  {
    assert c == c[..6] + [c[6]] && c[..6] == c[..5] + [c[5]] && c[..5] == c[..4] + [c[4]];
    BytesOfSnoc(c[..6], c[6]);
    BytesOfSnoc(c[..5], c[5]);
    BytesOfSnoc(c[..4], c[4]);
    FourChunks(c[..4]);
  }

  lemma MainLength(f: Fields)
    ensures |BytesOf(MainChunks(f))|
         == Width(ByteChunk(f.brightness), 1) + Width(ByteChunk(f.mode), 1) + Width(ByteChunk(f.speed), 1)
            + Width(ByteChunk(f.intensity), 1) + Width(ByteChunk(f.custom1), 1) + Width(ByteChunk(f.custom2), 1)
            + (if HasCustom3OrChecks(f) then 1 else 0)
  {
    SevenChunks(MainChunks(f));
  }

  lemma ExtLength(f: Fields)
    ensures |BytesOf(ExtChunks(f))|
         == Width(ByteChunk(f.palette), 1) + Width(RgbChunk(f.color1), 3) + Width(RgbChunk(f.color2), 3)
            + Width(RgbChunk(f.color3), 3)
  {
    FourChunks(ExtChunks(f));
  }

  lemma ExtendedMask(f: Fields)
    ensures MaskOf(ExtChunks(f), 0) != 0 <==> HasExtended(f)
  {
    FourMask(ExtChunks(f), 0);
  }

  lemma {:induction false} ExtBit(mask: nat)
    requires mask < 0x80
    ensures !HasBit(mask, F_EXT) && HasBit(mask + 0x80, F_EXT)
  {
  }

  lemma {:induction false} TailShape(main: seq<Chunk>, ext: seq<Chunk>)
    requires |main| == 7 && |ext| == 4
    ensures var t := LayoutTail(main, ext);
            && |t| == 1 + |BytesOf(main)| + (if MaskOf(ext, 0) == 0 then 0 else 1 + |BytesOf(ext)|)
            && (HasBit(t[0], F_EXT) <==> MaskOf(ext, 0) != 0)
  {
    MaskBounds(main, ext);
    ExtBit(MaskOf(main, 0));
  }

  lemma {:induction false} ExtraIsChunks(f: Fields)
    ensures ExtraLength(f) == |BytesOf(MainChunks(f))| + (if HasExtended(f) then 1 + |BytesOf(ExtChunks(f))| else 0)
    ensures 0 <= ExtraLength(f) <= 18
  {
    MainLength(f);
    ExtLength(f);
  }

  /** The length follows from which fields are present, stays within 3..21, and the EXT bit is set
      exactly when an extended field is present. */
  lemma {:induction false} ControlBodyShape(groupId: int, flags: int, f: Fields)
    ensures |Body(groupId, flags, f)| == 3 + ExtraLength(f)
    ensures 3 <= |Body(groupId, flags, f)| <= 21
    ensures HasBit(Body(groupId, flags, f)[2], F_EXT) <==> HasExtended(f)
  {
    ExtendedMask(f);
    TailShape(MainChunks(f), ExtChunks(f));
    ExtraIsChunks(f);
    var t := LayoutTail(MainChunks(f), ExtChunks(f));
    assert ([LowByte(groupId), LowByte(flags)] + t)[2] == t[0];
  }

  /** The fields with every number reduced to its low byte, as both callers of the builder pass them. */
  function LowFields(f: Fields): Fields {
    Fields(MaskedInt(f.brightness), MaskedInt(f.mode), MaskedInt(f.speed), MaskedInt(f.intensity),
           MaskedInt(f.custom1), MaskedInt(f.custom2), MaskedInt(f.custom3), f.check1, f.check2, f.check3,
           MaskedInt(f.palette), MaskedRgb(f.color1), MaskedRgb(f.color2), MaskedRgb(f.color3))
  }

  /** Masking before the builder, which masks again and narrows custom3 to five bits, changes nothing. */
  lemma LowFieldsSameBody(groupId: int, flags: int, f: Fields)
    ensures Body(groupId, flags, LowFields(f)) == Body(groupId, flags, f)
  {
    LowBytes(f.brightness); LowBytes(f.mode); LowBytes(f.speed); LowBytes(f.intensity);
    LowBytes(f.custom1); LowBytes(f.custom2); LowBytes(f.palette);
    LowRgb(f.color1); LowRgb(f.color2); LowRgb(f.color3);
    LowPacked(f);
  }

  lemma LowBytes(o: Option<int>)
    ensures ByteChunk(MaskedInt(o)) == ByteChunk(o)
  {
  }

  lemma LowRgb(o: Option<Rgb>)
    ensures RgbChunk(MaskedRgb(o)) == RgbChunk(o)
  {
  }

  lemma {:induction false} LowFive(x: int)
    ensures LowByte(x) % 32 == x % 32
  {
  }

  lemma {:induction false} LowPacked(f: Fields)
    ensures PackedChunk(LowFields(f)) == PackedChunk(f)
  {
    if f.custom3.Some? {
      LowFive(f.custom3.value);
    }
  }

  // ---- the builder ----------------------------------------------------------

  /** `if chunk is present: mask |= weight; tail += bytes`. */
  method AppendChunk(mask: nat, tail: seq<byte>, weight: nat, c: Chunk) returns (m: nat, t: seq<byte>)
    requires mask < weight
    ensures m == mask + Packets.Weight(c.Some?, weight) < 2 * weight
    ensures t == tail + ChunkBytes(c)
  {
    m := Packets.SetBitIf(c.Some?, mask, weight);
    t := if c.Some? then tail + c.value else tail;
  }

  /** The builder accumulates mask and bytes field by field; the body it returns is the layout above. */
  method BuildControlBody(groupId: int, flags: int, f: Fields) returns (body: seq<byte>)
    ensures body == Body(groupId, flags, f)
  {
    body := BuildLayout(LowByte(groupId), LowByte(flags), MainChunks(f), ExtChunks(f));
  }

  method BuildLayout(g: byte, flags: byte, main: seq<Chunk>, ext: seq<Chunk>) returns (body: seq<byte>)
    requires |main| == 7 && |ext| == 4
    ensures body == Layout(g, flags, main, ext)
  {
    var mask, tail := BuildMain(main);
    var extMask, tailExt := BuildExtended(ext);
    MaskBounds(main, ext);
    body := JoinParts(g, flags, mask, tail, extMask, tailExt);
  }

  method JoinParts(g: byte, flags: byte, mask: byte, tail: seq<byte>, extMask: byte, tailExt: seq<byte>) returns (body: seq<byte>)
    requires mask < F_EXT
    ensures body == [g, flags] + if extMask == 0 then [mask] + tail else [mask + F_EXT] + tail + ([extMask] + tailExt)
  {
    body := [g, flags];
    if extMask != 0 {
      var full := Packets.SetBitIf(true, mask, F_EXT);
      body := body + [full];
      body := body + tail;
      body := body + ([extMask] + tailExt);
      Appended([g, flags], [full], tail, [extMask] + tailExt);
    } else {
      body := body + [mask];
      body := body + tail;
      Associative([g, flags], [mask], tail);
    }
  }

  lemma {:induction false} Appended(a: seq<byte>, b: seq<byte>, c: seq<byte>, d: seq<byte>)
    ensures ((a + b) + c) + d == a + ((b + c) + d)
  {
  }

  method BuildMain(c: seq<Chunk>) returns (mask: nat, tail: seq<byte>)
    requires |c| == 7
    ensures mask == MaskOf(c, 0) && tail == BytesOf(c)
  {
    mask, tail := 0, [];
    mask, tail := AppendChunk(mask, tail, 0x01, c[0]);
    mask, tail := AppendChunk(mask, tail, 0x02, c[1]);
    mask, tail := AppendChunk(mask, tail, 0x04, c[2]);
    mask, tail := AppendChunk(mask, tail, 0x08, c[3]);
    mask, tail := AppendChunk(mask, tail, 0x10, c[4]);
    mask, tail := AppendChunk(mask, tail, 0x20, c[5]);
    mask, tail := AppendChunk(mask, tail, 0x40, c[6]);
    SevenMask(c, 0);
    SevenChunks(c);
  }

  method BuildExtended(c: seq<Chunk>) returns (mask: nat, tail: seq<byte>)
    requires |c| == 4
    ensures mask == MaskOf(c, 0) && tail == BytesOf(c)
  {
    mask, tail := 0, [];
    mask, tail := AppendChunk(mask, tail, 0x01, c[0]);
    mask, tail := AppendChunk(mask, tail, 0x02, c[1]);
    mask, tail := AppendChunk(mask, tail, 0x04, c[2]);
    mask, tail := AppendChunk(mask, tail, 0x08, c[3]);
    FourMask(c, 0);
    FourChunks(c);
  }
}

/** The byte-stream frame reader of the gateway link: `00`, a length byte, then that many payload bytes. */
module FrameReader {
  import opened Basics

  /** The reader's three variables. `need == 0` means the length byte has not come yet. */
  datatype State = State(inFrame: bool, need: byte, buf: seq<byte>)

  const START := State(false, 0, [])

  function StepByte(s: State, x: byte): (State, Option<seq<byte>>) {
    if !s.inFrame then (if x == 0 then State(true, 0, []) else s, None)
    else if s.need == 0 then (s.(need := x), None)
    else
      var buf := s.buf + [x];
      if |buf| == s.need then (State(false, s.need, buf), Some(buf)) else (s.(buf := buf), None)
  }

  /** The state after a stretch of bytes. */
  function After(s: State, bytes: seq<byte>): State
    decreases |bytes|
  {
    if bytes == [] then s else After(StepByte(s, bytes[0]).0, bytes[1..])
  }

  /** The frames a stretch of bytes completes. */
  function Frames(s: State, bytes: seq<byte>): seq<seq<byte>>
    decreases |bytes|
  {
    if bytes == [] then []
    else
      var (t, frame) := StepByte(s, bytes[0]);
      if frame.Some? then [frame.value] + Frames(t, bytes[1..]) else Frames(t, bytes[1..])
  }

  lemma {:induction false} Splits(s: State, a: seq<byte>, b: seq<byte>)
    ensures After(s, a + b) == After(After(s, a), b)
    ensures Frames(s, a + b) == Frames(s, a) + Frames(After(s, a), b)
    decreases |a|
  {
    if a == [] {
      assert a + b == b;
    } else {
      assert (a + b)[1..] == a[1..] + b;
      Splits(StepByte(s, a[0]).0, a[1..], b);
    }
  }

  lemma {:induction false} OneByte(s: State, x: byte)
    ensures After(s, [x]) == StepByte(s, x).0
    ensures Frames(s, [x]) == var f := StepByte(s, x).1; if f.Some? then [f.value] else []
  {
    assert [x][1..] == [];
    assert After(StepByte(s, x).0, []) == StepByte(s, x).0 && Frames(StepByte(s, x).0, []) == [];
  }

  /** Reading chunk by chunk. */
  function ChunkFrames(s: State, chunks: seq<seq<byte>>): seq<seq<byte>>
    decreases |chunks|
  {
    if chunks == [] then [] else Frames(s, chunks[0]) + ChunkFrames(After(s, chunks[0]), chunks[1..])
  }

  lemma {:induction false} ChunksAreTheStream(s: State, chunks: seq<seq<byte>>)
    ensures ChunkFrames(s, chunks) == Frames(s, Concat(chunks))
    decreases |chunks|
  {
    if chunks != [] {
      ChunksAreTheStream(After(s, chunks[0]), chunks[1..]);
      Splits(s, chunks[0], Concat(chunks[1..]));
    }
  }

  /** However the operating system cuts the stream, the frames are the same. */
  lemma {:induction false} ChunkingIndependent(s: State, chunks: seq<seq<byte>>, others: seq<seq<byte>>)
    requires Concat(chunks) == Concat(others)
    ensures ChunkFrames(s, chunks) == ChunkFrames(s, others)
  {
    ChunksAreTheStream(s, chunks);
    ChunksAreTheStream(s, others);
  }

  /** A partial frame is shorter than its length byte says. */
  predicate Partial(s: State) {
    s.inFrame ==> if s.need == 0 then s.buf == [] else |s.buf| < s.need
  }

  lemma {:induction false} StaysPartial(s: State, bytes: seq<byte>)
    requires Partial(s)
    ensures Partial(After(s, bytes))
    ensures forall i :: 0 <= i < |Frames(s, bytes)| ==> 1 <= |Frames(s, bytes)[i]| <= 255
    decreases |bytes|
  {
    if bytes != [] {
      StaysPartial(StepByte(s, bytes[0]).0, bytes[1..]);
    }
  }

  // ---- what a stream looks like ------------------------------------------------------

  /** A frame as it may arrive: noise before its start byte, spare zeros before its length. */
  datatype Piece = Piece(noise: seq<byte>, zeros: nat, payload: seq<byte>)

  predicate Noise(s: seq<byte>) {
    forall i :: 0 <= i < |s| ==> s[i] != 0
  }

  predicate ValidPiece(p: Piece) {
    Noise(p.noise) && 1 <= |p.payload| <= 255
  }

  predicate ValidPieces(pieces: seq<Piece>) {
    forall i :: 0 <= i < |pieces| ==> ValidPiece(pieces[i])
  }

  function Zeros(n: nat): (r: seq<byte>)
    ensures |r| == n && forall i :: 0 <= i < n ==> r[i] == 0
  {
    if n == 0 then [] else [LowByte(0)] + Zeros(n - 1)
  }

  function LengthByte(payload: seq<byte>): byte
    requires |payload| <= 255
  {
    |payload|
  }

  function Render(p: Piece): seq<byte>
    requires ValidPiece(p)
  {
    p.noise + Zeros(p.zeros + 1) + [LengthByte(p.payload)] + p.payload
  }

  function RenderAll(pieces: seq<Piece>): seq<byte>
    requires ValidPieces(pieces)
  {
    if pieces == [] then [] else Render(pieces[0]) + RenderAll(pieces[1..])
  }

  function Payloads(pieces: seq<Piece>): (r: seq<seq<byte>>)
    ensures |r| == |pieces| && forall i :: 0 <= i < |pieces| ==> r[i] == pieces[i].payload
  {
    if pieces == [] then [] else [pieces[0].payload] + Payloads(pieces[1..])
  }

  lemma {:induction false} SkipNoise(s: State, noise: seq<byte>)
    requires !s.inFrame && Noise(noise)
    ensures After(s, noise) == s && Frames(s, noise) == []
    decreases |noise|
  {
    if noise != [] {
      assert noise[0] != 0;
      SkipNoise(s, noise[1..]);
    }
  }

  const OPENED := State(true, 0, [])

  lemma {:induction false} SkipZeros(zeros: nat)
    ensures After(OPENED, Zeros(zeros)) == OPENED && Frames(OPENED, Zeros(zeros)) == []
  {
    if zeros > 0 {
      assert Zeros(zeros)[1..] == Zeros(zeros - 1);
      SkipZeros(zeros - 1);
    }
  }

  lemma {:induction false} FillFrame(n: byte, buf: seq<byte>, rest: seq<byte>)
    requires |buf| < n && |buf| + |rest| <= n
    ensures After(State(true, n, buf), rest) == State(|buf| + |rest| != n, n, buf + rest)
    ensures Frames(State(true, n, buf), rest) == if |buf| + |rest| == n then [buf + rest] else []
    decreases |rest|
  {
    if rest == [] {
      assert buf + rest == buf;
    } else {
      var more := buf + [rest[0]];
      assert more + rest[1..] == buf + rest;
      if |more| < n {
        FillFrame(n, more, rest[1..]);
      } else {
        assert rest[1..] == [] && Frames(State(false, n, more), []) == [];
      }
    }
  }

  /** From outside a frame, noise and a start reach the point where the length byte is due. */
  lemma {:induction false} Opening(s: State, noise: seq<byte>, zeros: nat)
    requires !s.inFrame && Noise(noise)
    ensures After(s, noise + Zeros(zeros + 1)) == OPENED && Frames(s, noise + Zeros(zeros + 1)) == []
  {
    SkipNoise(s, noise);
    SkipZeros(zeros);
    assert Zeros(zeros + 1)[1..] == Zeros(zeros);
    Splits(s, noise, Zeros(zeros + 1));
  }

  lemma {:induction false} LengthThenPayload(n: byte, payload: seq<byte>)
    requires n > 0 && |payload| <= n
    ensures After(OPENED, [n] + payload) == State(|payload| != n, n, payload)
    ensures Frames(OPENED, [n] + payload) == if |payload| == n then [payload] else []
  {
    OneByte(OPENED, n);
    Splits(OPENED, [n], payload);
    FillFrame(n, [], payload);
    assert [] + payload == payload;
  }

  lemma {:induction false} OnePiece(s: State, p: Piece)
    requires !s.inFrame && ValidPiece(p)
    ensures After(s, Render(p)) == State(false, LengthByte(p.payload), p.payload)
    ensures Frames(s, Render(p)) == [p.payload]
  {
    var n, open := LengthByte(p.payload), p.noise + Zeros(p.zeros + 1);
    Opening(s, p.noise, p.zeros);
    LengthThenPayload(n, p.payload);
    Splits(s, open, [n] + p.payload);
    assert Render(p) == open + ([n] + p.payload);
  }

  /** Any sequence of frames with payloads of 1 to 255 bytes, with non-zero noise between them and spare zeros
      before a length byte, decodes to exactly those payloads in order; what follows is decoded on its own. */
  lemma {:induction false} DecodesPieces(s: State, pieces: seq<Piece>, tail: seq<byte>)
    requires !s.inFrame && ValidPieces(pieces)
    ensures Frames(s, RenderAll(pieces) + tail) == Payloads(pieces) + Frames(START, tail)
    decreases |pieces|
  {
    if pieces == [] {
      assert RenderAll(pieces) + tail == tail;
      OutsideIsStart(s, tail);
    } else {
      OnePiece(s, pieces[0]);
      var head, rest := Render(pieces[0]), RenderAll(pieces[1..]);
      Splits(s, head, rest + tail);
      assert head + (rest + tail) == RenderAll(pieces) + tail;
      DecodesPieces(After(s, head), pieces[1..], tail);
    }
  }

  /** What a finished frame leaves in `need` and `buf` is never looked at again. */
  lemma {:induction false} OutsideIsStart(s: State, bytes: seq<byte>)
    requires !s.inFrame
    ensures Frames(s, bytes) == Frames(START, bytes)
    decreases |bytes|
  {
    if bytes != [] && bytes[0] != 0 {
      OutsideIsStart(s, bytes[1..]);
    }
  }

  // ---- every stream is such a sequence and an unfinished rest ------------------------------

  /** Noise, or the beginning of one frame. */
  ghost predicate Unfinished(tail: seq<byte>) {
    Noise(tail)
    || exists noise: seq<byte>, zeros: nat :: StartedFrame(tail, noise, zeros)
  }

  /** A start byte, and then at most a length byte and fewer bytes than it announces. */
  predicate StartedFrame(tail: seq<byte>, noise: seq<byte>, zeros: nat) {
    var open := noise + Zeros(zeros + 1);
    Noise(noise) && |open| <= |tail| && open == tail[..|open|]
    && (|tail| > |open| ==> tail[|open|] != 0 && |tail| - |open| - 1 < tail[|open|])
  }

  lemma {:induction false} UnfinishedIsSilent(s: State, tail: seq<byte>)
    requires !s.inFrame && Unfinished(tail)
    ensures Frames(s, tail) == []
  {
    if Noise(tail) {
      SkipNoise(s, tail);
    } else {
      var noise: seq<byte>, zeros: nat :| StartedFrame(tail, noise, zeros);
      var open := noise + Zeros(zeros + 1);
      var rest := tail[|open|..];
      assert tail == open + rest;
      Opening(s, noise, zeros);
      Splits(s, open, rest);
      if rest != [] {
        assert rest[0] == tail[|open|] && rest == [rest[0]] + rest[1..];
        LengthThenPayload(rest[0], rest[1..]);
      }
    }
  }

  function NoiseLength(bytes: seq<byte>): (n: nat)
    ensures n <= |bytes| && Noise(bytes[..n]) && (n < |bytes| ==> bytes[n] == 0)
  {
    if bytes == [] || bytes[0] == 0 then 0 else 1 + NoiseLength(bytes[1..])
  }

  function ZerosLength(bytes: seq<byte>): (n: nat)
    ensures n <= |bytes| && bytes[..n] == Zeros(n) && (n < |bytes| ==> bytes[n] != 0)
  {
    if bytes == [] || bytes[0] != 0 then 0 else 1 + ZerosLength(bytes[1..])
  }

  /** After an opening: a whole frame and what follows it, or an unfinished one. */
  lemma {:induction false} AfterOpening(noise: seq<byte>, z: nat, after: seq<byte>) returns (p: Option<Piece>, rest: seq<byte>)
    requires Noise(noise) && z > 0 && (after != [] ==> after[0] != 0)
    ensures p.Some? ==> ValidPiece(p.value) && noise + Zeros(z) + after == Render(p.value) + rest
    ensures p.None? ==> StartedFrame(noise + Zeros(z) + after, noise, z - 1)
  {
    p, rest := None, after;
    if after != [] && |after| - 1 >= after[0] {
      var n := after[0];
      var payload := after[1..n + 1];
      p, rest := Some(Piece(noise, z - 1, payload)), after[n + 1..];
      assert after == [n] + payload + rest;
      assert Render(p.value) == noise + Zeros(z) + [n] + payload;
    } else {
      var bytes := noise + Zeros(z) + after;
      assert bytes[..|noise + Zeros(z)|] == noise + Zeros(z);
    }
  }

  /** The first frame of a stream and what follows it, if the stream holds a whole frame. */
  lemma {:induction false} FirstPiece(bytes: seq<byte>) returns (p: Option<Piece>, rest: seq<byte>)
    ensures p.Some? ==> ValidPiece(p.value) && bytes == Render(p.value) + rest
    ensures p.None? ==> Unfinished(bytes)
  {
    var m := NoiseLength(bytes);
    var z := ZerosLength(bytes[m..]);
    if m == |bytes| {
      assert bytes[..m] == bytes;
      p, rest := None, bytes;
    } else {
      p, rest := AfterOpening(bytes[..m], z, bytes[m..][z..]);
      assert bytes == bytes[..m] + Zeros(z) + bytes[m..][z..];
    }
  }

  /** Every byte stream is a sequence of whole frames and an unfinished rest, and the reader yields exactly
      the payloads of the whole frames. */
  lemma {:induction false} EveryStreamDecodes(bytes: seq<byte>) returns (pieces: seq<Piece>, tail: seq<byte>)
    ensures ValidPieces(pieces) && Unfinished(tail)
    ensures bytes == RenderAll(pieces) + tail
    ensures Frames(START, bytes) == Payloads(pieces)
    decreases |bytes|
  {
    var p, rest := FirstPiece(bytes);
    if p.None? {
      pieces, tail := [], bytes;
      UnfinishedIsSilent(START, bytes);
    } else {
      var more;
      more, tail := EveryStreamDecodes(rest);
      pieces := [p.value] + more;
      assert pieces[1..] == more;
      assert RenderAll(pieces) + tail == Render(p.value) + (RenderAll(more) + tail);
      DecodesPieces(START, pieces, tail);
      UnfinishedIsSilent(START, tail);
    }
  }

  // ---- what the host sends --------------------------------------------------------------

  const MAX_FRAME_BODY := 251

  /** The frame `_send_m2n` writes; a payload over 255 bytes has no length byte and raises ValueError, and so
      does a receiver that is not three bytes. */
  function HostFrame(typeFull: byte, receiver: seq<byte>, body: seq<byte>): Result<seq<byte>> {
    var payload := [typeFull] + receiver + body;
    if |receiver| != 3 || |payload| > 255 then Err(ValueError)
    else Ok([LowByte(0), LengthByte(payload)] + payload)
  }

  /** Host frames written back to back are read back by the same framing as type, receiver and body. */
  lemma {:induction false} HostFrameReads(s: State, typeFull: byte, receiver: seq<byte>, body: seq<byte>)
    requires !s.inFrame
    ensures HostFrame(typeFull, receiver, body).Ok? <==> |receiver| == 3 && |body| <= MAX_FRAME_BODY
    ensures HostFrame(typeFull, receiver, body).Ok? ==>
              Frames(s, HostFrame(typeFull, receiver, body).value) == [[typeFull] + receiver + body]
              && !After(s, HostFrame(typeFull, receiver, body).value).inFrame
  {
    var payload := [typeFull] + receiver + body;
    if |receiver| == 3 && |payload| <= 255 {
      var p := Piece([], 0, payload);
      assert Zeros(1) == [LowByte(0)] + Zeros(0);
      assert Render(p) == [LowByte(0), LengthByte(payload)] + payload;
      OnePiece(s, p);
    }
  }

  // ---- the reader itself ------------------------------------------------------------------

  lemma {:induction false} OneMore(s: State, bytes: seq<byte>, i: nat)
    requires i < |bytes|
    ensures var (t, frame) := StepByte(After(s, bytes[..i]), bytes[i]);
            && After(s, bytes[..i + 1]) == t
            && Frames(s, bytes[..i + 1]) == Frames(s, bytes[..i]) + if frame.Some? then [frame.value] else []
  {
    assert bytes[..i + 1] == bytes[..i] + [bytes[i]];
    Splits(s, bytes[..i], [bytes[i]]);
    OneByte(After(s, bytes[..i]), bytes[i]);
  }

  class Reader {
    var inFrame: bool
    var need: byte
    var buf: seq<byte>

    constructor ()
      ensures Now() == START
    {
      inFrame, need, buf := false, 0, [];
    }

    function Now(): State
      reads this
    {
      State(inFrame, need, buf)
    }

    /** One pass of the read loop: every byte of a chunk, and the frames handed to the dispatcher. */
    method Feed(chunk: seq<byte>) returns (frames: seq<seq<byte>>)
      modifies this
      ensures Now() == After(old(Now()), chunk) && frames == Frames(old(Now()), chunk)
    {
      frames := [];
      var i := 0;
      while i < |chunk|
        invariant 0 <= i <= |chunk|
        invariant Now() == After(old(Now()), chunk[..i]) && frames == Frames(old(Now()), chunk[..i])
      {
        OneMore(old(Now()), chunk, i);
        var x := chunk[i];
        i := i + 1;
        if !inFrame {
          if x == 0 {
            inFrame, need, buf := true, 0, [];
          }
          continue;
        }
        if need == 0 {
          need := x;
          continue;
        }
        buf := buf + [x];
        if |buf| == need {
          inFrame := false;
          frames := frames + [buf];
        }
      }
      assert chunk[..i] == chunk;
    }

    /** The thread's outer loop, over the chunks the port returns. */
    method Run(chunks: seq<seq<byte>>) returns (frames: seq<seq<byte>>)
      modifies this
      ensures Now() == After(old(Now()), Concat(chunks)) && frames == Frames(old(Now()), Concat(chunks))
    {
      frames := [];
      var i := 0;
      while i < |chunks|
        invariant 0 <= i <= |chunks|
        invariant Now() == After(old(Now()), Concat(chunks[..i])) && frames == Frames(old(Now()), Concat(chunks[..i]))
      {
        var more := Feed(chunks[i]);
        assert chunks[..i + 1] == chunks[..i] + [chunks[i]];
        ConcatAppend(chunks[..i], chunks[i]);
        Splits(old(Now()), Concat(chunks[..i]), chunks[i]);
        frames := frames + more;
        i := i + 1;
      }
      assert chunks[..i] == chunks;
    }
  }
}

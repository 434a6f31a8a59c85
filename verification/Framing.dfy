/** Length-prefixed relay framing (crates/protocol/src/framing.rs:34-83). */
module Framing {
  import opened Wrappers
  import opened Bytes

  const U32_MAX: nat := 0xFFFF_FFFF

  datatype FrameError = TooLarge(length: nat, maximum: nat) | Truncated

  // ---------------------------------------------------------------- streams

  function Flatten(chunks: seq<Buffer>): Buffer {
    if chunks == [] then [] else chunks[0] + Flatten(chunks[1..])
  }

  /** A byte stream that delivers its bytes in arbitrary chunks and then ends. */
  class Reader {
    var chunks: seq<Buffer>

    constructor (chunks: seq<Buffer>)
      ensures this.chunks == chunks
    {
      this.chunks := chunks;
    }

    ghost function Pending(): Buffer
      reads this
    {
      Flatten(chunks)
    }

    /** At most `n` bytes, as many as the next chunk holds; none only at the end. */
    method Read(n: nat) returns (b: Buffer)
      modifies this
      ensures old(Pending()) == b + Pending() && |b| <= n
      ensures b == [] <==> n == 0 || old(Pending()) == []
    {
      while chunks != [] && chunks[0] == []
        invariant Pending() == old(Pending())
        decreases |chunks|
      {
        chunks := chunks[1..];
      }
      if chunks == [] { return []; }
      var k := Min(n, |chunks[0]|);
      b := chunks[0][..k];
      assert chunks[0] == b + chunks[0][k..];
      ghost var rest := chunks[1..];
      chunks := [chunks[0][k..]] + chunks[1..];
      assert chunks[1..] == rest;
    }

    method ReadExact(n: nat) returns (r: Result<Buffer, FrameError>)
      modifies this
      ensures var all := old(Pending());
        if n <= |all| then r == Ok(all[..n]) && Pending() == all[n..]
        else r == Err(Truncated) && Pending() == []
    {
      var b := [];
      while |b| < n
        invariant |b| <= n && old(Pending()) == b + Pending()
        decreases n - |b|
      {
        var more := Read(n - |b|);
        if more == [] { return Err(Truncated); }
        b := b + more;
      }
      assert old(Pending())[..n] == b;
      return Ok(b);
    }

    method ReadFrame(maximum: nat) returns (r: Result<Option<Buffer>, FrameError>)
      modifies this
      ensures (r, Pending()) == Decode(old(Pending()), maximum)
    {
      ghost var all := Pending();
      var header := Read(1);
      if header == [] { return Ok(None); }
      var more :- ReadExact(3);
      header := header + more;
      assert header == all[..4] && Pending() == all[4..];
      var length := FromBigEndian(header);
      if length > maximum { return Err(TooLarge(length, maximum)); }
      var frame :- ReadExact(length);
      assert frame == all[4..4 + length] && Pending() == all[4 + length..];
      return Ok(Some(frame));
    }

    /** Frame after frame, until the stream ends or fails. */
    method ReadAll(maximum: nat) returns (frames: seq<Buffer>, end: Ending)
      modifies this
      ensures (frames, end) == DecodeAll(old(Pending()), maximum)
    {
      frames := [];
      ghost var all := Pending();
      assert [] + DecodeAll(all, maximum).0 == DecodeAll(all, maximum).0;
      while true
        invariant DecodeAll(all, maximum) == (frames + DecodeAll(Pending(), maximum).0, DecodeAll(Pending(), maximum).1)
        decreases |Pending()|
      {
        var r := ReadFrame(maximum);
        assert frames + [] == frames;
        if r.Err? { return frames, Failed(r.error); }
        if r.value.None? { return frames, Clean; }
        var frame := r.value.value;
        ghost var rest := DecodeAll(Pending(), maximum).0;
        assert frames + ([frame] + rest) == (frames + [frame]) + rest;
        frames := frames + [frame];
      }
    }
  }

  class Writer {
    var written: Buffer

    constructor ()
      ensures written == []
    {
      written := [];
    }

    method WriteFrame(frame: Buffer, maximum: nat) returns (o: Outcome<FrameError>)
      modifies this
      ensures if Sendable(frame, maximum) then o == Pass && written == old(written) + Encode(frame)
              else o == Fail(TooLarge(|frame|, Min(maximum, U32_MAX))) && written == old(written)
    {
      if |frame| > maximum || |frame| > U32_MAX { return Fail(TooLarge(|frame|, Min(maximum, U32_MAX))); }
      written := written + ToBigEndian(|frame|, 4);
      written := written + frame;
      return Pass;
    }

    /** Frame after frame, until one is refused. */
    method WriteAll(frames: seq<Buffer>, maximum: nat) returns (o: Outcome<FrameError>)
      modifies this
      ensures o.Pass? <==> forall i :: 0 <= i < |frames| ==> Sendable(frames[i], maximum)
      ensures o.Pass? ==> written == old(written) + Wire(frames)
    {
      for i := 0 to |frames|
        invariant written == old(written) + Wire(frames[..i])
        invariant forall j :: 0 <= j < i ==> Sendable(frames[j], maximum)
      {
        assert frames[..i + 1] == frames[..i] + [frames[i]];
        WireExtends(frames[..i], frames[i]);
        :- WriteFrame(frames[i], maximum);
      }
      assert frames[..|frames|] == frames;
      return Pass;
    }
  }

  // ---------------------------------------------------------------- the wire format

  predicate Sendable(frame: Buffer, maximum: nat) {
    |frame| <= maximum && |frame| <= U32_MAX
  }

  function Encode(frame: Buffer): Buffer {
    ToBigEndian(|frame|, 4) + frame
  }

  /** What one read makes of the bytes that are left, and what it leaves. */
  function Decode(all: Buffer, maximum: nat): (Result<Option<Buffer>, FrameError>, Buffer) {
    if all == [] then (Ok(None), [])
    else if |all| < 4 then (Err(Truncated), [])
    else
      var length := FromBigEndian(all[..4]);
      if length > maximum then (Err(TooLarge(length, maximum)), all[4..])
      else if |all| < 4 + length then (Err(Truncated), [])
      else (Ok(Some(all[4..4 + length])), all[4 + length..])
  }

  datatype Ending = Clean | Failed(error: FrameError)

  /** Reading frame after frame until the stream ends or fails. */
  function DecodeAll(all: Buffer, maximum: nat): (seq<Buffer>, Ending)
    decreases |all|
  {
    var d := Decode(all, maximum);
    if d.0.Err? then ([], Failed(d.0.error))
    else if d.0.value.None? then ([], Clean)
    else
      var rest := DecodeAll(d.1, maximum);
      ([d.0.value.value] + rest.0, rest.1)
  }

  function Wire(frames: seq<Buffer>): Buffer {
    if frames == [] then [] else Encode(frames[0]) + Wire(frames[1..])
  }

  // ---------------------------------------------------------------- round trip under any cut

  /** How many frames lie whole within the first `k` bytes of the wire. */
  function WholeFrames(frames: seq<Buffer>, k: nat): (n: nat)
    ensures n <= |frames|
  {
    if frames == [] || k < 4 + |frames[0]| then 0 else 1 + WholeFrames(frames[1..], k - 4 - |frames[0]|)
  }

  /** The first frame is decoded exactly when all of it is there. */
  lemma DecodeFirst(frame: Buffer, rest: Buffer, maximum: nat, k: nat)
    requires Sendable(frame, maximum) && k <= |Encode(frame) + rest|
    ensures var cut := (Encode(frame) + rest)[..k];
      Decode(cut, maximum) ==
        if k == 0 then (Ok(None), [])
        else if k < 4 + |frame| then (Err(Truncated), [])
        else (Ok(Some(frame)), rest[..k - 4 - |frame|])
  {
    var all := Encode(frame) + rest;
    var cut := all[..k];
    Widths();
    BigEndianRoundTrip(|frame|, 4);
    if k >= 4 {
      assert all[..4] == ToBigEndian(|frame|, 4) && cut[..4] == all[..4];
      if k >= 4 + |frame| {
        assert Encode(frame)[4..] == frame;
        assert all[4..4 + |frame|] == Encode(frame)[4..] && all[4 + |frame|..] == rest;
        assert cut[4..4 + |frame|] == all[4..4 + |frame|];
        assert cut[4 + |frame|..] == all[4 + |frame|..][..k - 4 - |frame|];
      }
    }
  }

  /** Any cut of a wire yields its whole frames, then a clean end at a boundary and `Truncated` elsewhere. */
  lemma {:induction false} FramingUnderAnyCut(frames: seq<Buffer>, maximum: nat, k: nat)
    requires forall i :: 0 <= i < |frames| ==> Sendable(frames[i], maximum)
    requires k <= |Wire(frames)|
    ensures var n := WholeFrames(frames, k);
      && |Wire(frames[..n])| <= k
      && DecodeAll(Wire(frames)[..k], maximum) ==
         (frames[..n], if k == |Wire(frames[..n])| then Clean else Failed(Truncated))
  {
    if frames != [] {
      var f, rest := frames[0], Wire(frames[1..]);
      DecodeFirst(f, rest, maximum, k);
      if k >= 4 + |f| {
        FramingUnderAnyCut(frames[1..], maximum, k - 4 - |f|);
        FirstFrames(frames, WholeFrames(frames[1..], k - 4 - |f|));
      }
    }
  }

  lemma FirstFrames(frames: seq<Buffer>, n: nat)
    requires n < |frames|
    ensures frames[..n + 1] == [frames[0]] + frames[1..][..n]
    ensures |Wire(frames[..n + 1])| == 4 + |frames[0]| + |Wire(frames[1..][..n])|
  {
    assert frames[..n + 1][0] == frames[0] && frames[..n + 1][1..] == frames[1..][..n];
  }

  lemma {:induction false} AllFramesAreWhole(frames: seq<Buffer>)
    ensures WholeFrames(frames, |Wire(frames)|) == |frames|
  {
    if frames != [] { AllFramesAreWhole(frames[1..]); }
  }

  /** Everything written is read back, in order, and then the stream ends cleanly. */
  lemma FramingRoundTrip(frames: seq<Buffer>, maximum: nat)
    requires forall i :: 0 <= i < |frames| ==> Sendable(frames[i], maximum)
    ensures DecodeAll(Wire(frames), maximum) == (frames, Clean)
  {
    FramingUnderAnyCut(frames, maximum, |Wire(frames)|);
    AllFramesAreWhole(frames);
    assert Wire(frames)[..|Wire(frames)|] == Wire(frames) && frames[..|frames|] == frames;
  }

  /** Writing frame after frame produces their wire. */
  lemma {:induction false} WireExtends(frames: seq<Buffer>, frame: Buffer)
    ensures Wire(frames + [frame]) == Wire(frames) + Encode(frame)
  {
    if frames == [] {
      assert Wire([frame]) == Encode(frame) + Wire([]);
    } else {
      assert (frames + [frame])[1..] == frames[1..] + [frame];
      WireExtends(frames[1..], frame);
    }
  }

  /** A way in which the transport delivers bytes: any chunks, nothing lost or added. */
  ghost predicate Delivers(chop: Buffer -> seq<Buffer>) {
    forall b :: Flatten(chop(b)) == b
  }

  /** What a sender wrote up to any cut, a receiver with the same limit reads back through any transport. */
  method Relay(frames: seq<Buffer>, maximum: nat, cut: nat, chop: Buffer -> seq<Buffer>)
    returns (received: seq<Buffer>, end: Ending)
    requires forall i :: 0 <= i < |frames| ==> Sendable(frames[i], maximum)
    requires Delivers(chop) && cut <= |Wire(frames)|
    ensures var n := WholeFrames(frames, cut);
      received == frames[..n] && end == if cut == |Wire(frames[..n])| then Clean else Failed(Truncated)
    ensures cut == |Wire(frames)| ==> received == frames && end == Clean
  {
    var writer := new Writer();
    var sent := writer.WriteAll(frames, maximum);
    assert writer.written == Wire(frames);
    FramingUnderAnyCut(frames, maximum, cut);
    var reader := new Reader(chop(writer.written[..cut]));
    assert reader.Pending() == Wire(frames)[..cut];
    received, end := reader.ReadAll(maximum);
    AllFramesAreWhole(frames);
    assert frames[..|frames|] == frames;
  }

  /** A frame beyond the reader's limit is refused by its length alone, with nothing but the header consumed. */
  lemma OversizedIsRefused(frame: Buffer, rest: Buffer, maximum: nat)
    requires maximum < |frame| <= U32_MAX
    ensures Decode(Encode(frame) + rest, maximum) == (Err(TooLarge(|frame|, maximum)), frame + rest)
  {
    var all := Encode(frame) + rest;
    Widths();
    BigEndianRoundTrip(|frame|, 4);
    assert all[..4] == ToBigEndian(|frame|, 4) && all[4..] == frame + rest;
  }
}

/**
  The two transcripts that are signed or authenticated: the device proof
  (crates/protocol/src/pop.rs:29-78) and the key wrap (crates/protocol/src/crypto.rs:222-236).
  Text is the sequence of its UTF-8 bytes.
 */
module Transcripts {
  import opened Wrappers
  import opened Bytes
  import Json = CanonicalJson
  import Text = ProtocolText

  // ---------------------------------------------------------------- transcripts as lists of parts

  datatype Part = Delimited(bytes: Buffer) | Fixed(bytes: Buffer)

  predicate Fits(p: Part) {
    p.Delimited? ==> |p.bytes| < 0x1_0000_0000
  }

  function EncodePart(p: Part): Buffer {
    if p.Delimited? then ToBigEndian(|p.bytes|, 4) + p.bytes else p.bytes
  }

  function Transcript(parts: seq<Part>): Buffer {
    if parts == [] then [] else EncodePart(parts[0]) + Transcript(parts[1..])
  }

  predicate SameShape(a: Part, b: Part) {
    (a.Delimited? <==> b.Delimited?) && (a.Fixed? ==> |a.bytes| == |b.bytes|) && Fits(a) && Fits(b)
  }

  predicate SameShapes(a: seq<Part>, b: seq<Part>) {
    |a| == |b| && forall i :: 0 <= i < |a| ==> SameShape(a[i], b[i])
  }

  lemma {:induction false} TranscriptExtends(parts: seq<Part>, p: Part)
    ensures Transcript(parts + [p]) == Transcript(parts) + EncodePart(p)
  {
    if parts == [] {
      assert Transcript([p]) == EncodePart(p) + Transcript([]);
    } else {
      assert (parts + [p])[1..] == parts[1..] + [p];
      TranscriptExtends(parts[1..], p);
    }
  }

  lemma DelimitedSplits(a: Buffer, b: Buffer, x: Buffer, y: Buffer)
    requires |a| < 0x1_0000_0000 && |b| < 0x1_0000_0000
    requires ToBigEndian(|a|, 4) + (a + x) == ToBigEndian(|b|, 4) + (b + y)
    ensures a == b && x == y
  {
    Split(ToBigEndian(|a|, 4), ToBigEndian(|b|, 4), a + x, b + y);
    Widths();
    BigEndianRoundTrip(|a|, 4);
    BigEndianRoundTrip(|b|, 4);
    Split(a, b, x, y);
  }

  lemma Associates(a: Buffer, b: Buffer, c: Buffer)
    ensures (a + b) + c == a + (b + c)
  {}

  lemma PartSplits(a: Part, b: Part, x: Buffer, y: Buffer)
    requires SameShape(a, b) && EncodePart(a) + x == EncodePart(b) + y
    ensures a == b && x == y
  {
    if a.Delimited? {
      Associates(ToBigEndian(|a.bytes|, 4), a.bytes, x);
      Associates(ToBigEndian(|b.bytes|, 4), b.bytes, y);
      DelimitedSplits(a.bytes, b.bytes, x, y);
    } else {
      Split(a.bytes, b.bytes, x, y);
    }
  }

  /** A transcript determines its parts. */
  lemma {:induction false} TranscriptIsUnambiguous(a: seq<Part>, b: seq<Part>)
    requires SameShapes(a, b) && Transcript(a) == Transcript(b)
    ensures a == b
  {
    if a != [] {
      PartSplits(a[0], b[0], Transcript(a[1..]), Transcript(b[1..]));
      TranscriptIsUnambiguous(a[1..], b[1..]);
    }
  }

  // ---------------------------------------------------------------- the device proof

  const PROOF_PREFIX: string := "agent-remote/ego-browser/pop/v2\0"

  datatype ProofContext = ProofContext(
    operation: Buffer,
    deviceId: Buffer,
    deviceGeneration: u64,
    operationGeneration: u64,
    bindingId: Option<Buffer>,
    releaseProfile: Buffer,
    credentialProfile: Buffer,
    serverHost: Buffer)

  datatype ProofError = InvalidContext | InvalidPayload

  function OrEmpty(value: Option<Buffer>): Buffer {
    if value.Some? then value.value else []
  }

  predicate ContextValid(c: ProofContext, challenge: Buffer, payload: Json.Json) {
    && c.operation != [] && c.deviceId != [] && c.deviceGeneration != 0 && c.operationGeneration != 0
    && c.releaseProfile != [] && c.credentialProfile != [] && c.serverHost != [] && |challenge| == 32
    && payload.Object?
    && "proof_challenge" !in Json.Keys(payload.members) && "proof_signature" !in Json.Keys(payload.members)
  }

  function ProofParts(c: ProofContext, challenge: Buffer, digest: Buffer): seq<Part> {
    ProofHead(c) + ProofTexts(c) + [Fixed(challenge), Fixed(digest)]
  }

  function ProofHead(c: ProofContext): seq<Part> {
    [Fixed(Ascii(PROOF_PREFIX)), Delimited(c.operation), Delimited(c.deviceId),
     Fixed(ToBigEndian(c.deviceGeneration, 8)), Fixed(ToBigEndian(c.operationGeneration, 8))]
  }

  function ProofTexts(c: ProofContext): seq<Part> {
    [Delimited(OrEmpty(c.bindingId)), Delimited(c.releaseProfile), Delimited(c.credentialProfile),
      Delimited(c.serverHost)]
  }

  /** Every text fits its four-byte length. */
  predicate FieldsFit(c: ProofContext) {
    && Fits(Delimited(c.operation)) && Fits(Delimited(c.deviceId)) && Fits(Delimited(OrEmpty(c.bindingId)))
    && Fits(Delimited(c.releaseProfile)) && Fits(Delimited(c.credentialProfile)) && Fits(Delimited(c.serverHost))
  }

  /** What a proof is made for: named parties, live generations, a 32-byte challenge and an unsigned payload. */
  predicate Provable(c: ProofContext, challenge: Buffer, payload: Json.Json) {
    && 1 <= |c.operation| <= 0xFFFF_FFFF && 1 <= |c.deviceId| <= 0xFFFF_FFFF
    && c.deviceGeneration >= 1 && c.operationGeneration >= 1
    && (c.bindingId.Some? ==> |c.bindingId.value| <= 0xFFFF_FFFF)
    && 1 <= |c.releaseProfile| <= 0xFFFF_FFFF && 1 <= |c.credentialProfile| <= 0xFFFF_FFFF
    && 1 <= |c.serverHost| <= 0xFFFF_FFFF && |challenge| == 32
    && payload.Object?
    && forall i :: 0 <= i < |payload.members| ==>
         payload.members[i].key != "proof_challenge" && payload.members[i].key != "proof_signature"
  }

  lemma ProvableExactlyWhen(c: ProofContext, challenge: Buffer, payload: Json.Json)
    requires payload.Object?
    ensures Provable(c, challenge, payload) <==> ContextValid(c, challenge, payload) && FieldsFit(c)
  {
    KeysAreMembers(payload.members);
  }

  lemma {:induction false} KeysAreMembers(ms: seq<Json.Member>)
    ensures |Json.Keys(ms)| == |ms| && forall i :: 0 <= i < |ms| ==> Json.Keys(ms)[i] == ms[i].key
  {
    if ms != [] { KeysAreMembers(ms[1..]); }
  }

  method AppendField(message: Buffer, value: Buffer, ghost parts: seq<Part>)
    returns (r: Result<Buffer, ProofError>, ghost next: seq<Part>)
    requires message == Transcript(parts)
    ensures next == parts + [Delimited(value)]
    ensures r == if Fits(Delimited(value)) then Ok(Transcript(parts + [Delimited(value)])) else Err(InvalidContext)
  {
    next := parts + [Delimited(value)];
    if |value| >= 0x1_0000_0000 { return Err(InvalidContext), next; }
    TranscriptExtends(parts, Delimited(value));
    var extended := message + ToBigEndian(|value|, 4);
    extended := extended + value;
    assert extended == message + (ToBigEndian(|value|, 4) + value);
    return Ok(extended), next;
  }

  method AppendFixed(message: Buffer, value: Buffer, ghost parts: seq<Part>)
    returns (extended: Buffer, ghost next: seq<Part>)
    requires message == Transcript(parts)
    ensures next == parts + [Fixed(value)] && extended == Transcript(next)
  {
    TranscriptExtends(parts, Fixed(value));
    return message + value, parts + [Fixed(value)];
  }

  method AppendHead(c: ProofContext) returns (r: Result<Buffer, ProofError>, ghost parts: seq<Part>)
    ensures r.Ok? <==> Fits(Delimited(c.operation)) && Fits(Delimited(c.deviceId))
    ensures r == if r.Ok? then Ok(Transcript(parts)) else Err(InvalidContext)
    ensures r.Ok? ==> parts == ProofHead(c)
  {
    var message := [];
    message, parts := AppendFixed(message, Ascii(PROOF_PREFIX), []);
    r, parts := AppendField(message, c.operation, parts);
    if r.Err? { return; }
    r, parts := AppendField(r.value, c.deviceId, parts);
    if r.Err? { return; }
    message, parts := AppendFixed(r.value, ToBigEndian(c.deviceGeneration, 8), parts);
    message, parts := AppendFixed(message, ToBigEndian(c.operationGeneration, 8), parts);
    r := Ok(message);
  }

  method AppendTexts(message: Buffer, c: ProofContext, ghost before: seq<Part>)
    returns (r: Result<Buffer, ProofError>, ghost parts: seq<Part>)
    requires message == Transcript(before)
    ensures r.Ok? <==>
      && Fits(Delimited(OrEmpty(c.bindingId))) && Fits(Delimited(c.releaseProfile))
      && Fits(Delimited(c.credentialProfile)) && Fits(Delimited(c.serverHost))
    ensures r == if r.Ok? then Ok(Transcript(parts)) else Err(InvalidContext)
    ensures r.Ok? ==> parts == before + ProofTexts(c)
  {
    r, parts := AppendField(message, OrEmpty(c.bindingId), before);
    if r.Err? { return; }
    r, parts := AppendField(r.value, c.releaseProfile, parts);
    if r.Err? { return; }
    r, parts := AppendField(r.value, c.credentialProfile, parts);
    if r.Err? { return; }
    r, parts := AppendField(r.value, c.serverHost, parts);
  }

  method DeviceProofMessage(c: ProofContext, challenge: Buffer, payload: Json.Json, serialize: Json.Json -> Buffer,
                            sha: Buffer -> Buffer)
    returns (r: Result<Buffer, ProofError>)
    ensures r.Ok? <==> Provable(c, challenge, payload)
    ensures r ==
      if !payload.Object? then Err(InvalidPayload)
      else if !ContextValid(c, challenge, payload) || !FieldsFit(c) then Err(InvalidContext)
      else Ok(Transcript(ProofParts(c, challenge, sha(serialize(Json.Canonical(payload))))))
  {
    if !payload.Object? { return Err(InvalidPayload); }
    ProvableExactlyWhen(c, challenge, payload);
    if !ContextValid(c, challenge, payload) { return Err(InvalidContext); }
    var digest := sha(serialize(Json.Canonical(payload)));
    ghost var parts;
    r, parts := AppendHead(c);
    if r.Err? { return; }
    r, parts := AppendTexts(r.value, c, parts);
    if r.Err? { return; }
    var message;
    message, parts := AppendFixed(r.value, challenge, parts);
    message, parts := AppendFixed(message, digest, parts);
    assert parts == ProofParts(c, challenge, digest);
    return Ok(message);
  }

  lemma SameGeneration(a: u64, b: u64)
    requires ToBigEndian(a, 8) == ToBigEndian(b, 8)
    ensures a == b
  {
    Widths();
    BigEndianRoundTrip(a, 8);
    BigEndianRoundTrip(b, 8);
  }

  /** Equal proof messages sign the same context, challenge and payload digest; no binding is the empty one. */
  lemma ProofIsUnambiguous(c: ProofContext, challenge: Buffer, digest: Buffer, c': ProofContext, challenge': Buffer,
                           digest': Buffer)
    requires FieldsFit(c) && FieldsFit(c') && |challenge| == |challenge'| == 32 && |digest| == |digest'|
    requires Transcript(ProofParts(c, challenge, digest)) == Transcript(ProofParts(c', challenge', digest'))
    ensures c.(bindingId := None) == c'.(bindingId := None) && OrEmpty(c.bindingId) == OrEmpty(c'.bindingId)
    ensures challenge == challenge' && digest == digest'
  {
    ProofShapes(c, challenge, digest, c', challenge', digest');
    TranscriptIsUnambiguous(ProofParts(c, challenge, digest), ProofParts(c', challenge', digest'));
    SamePartsSameContext(c, challenge, digest, c', challenge', digest');
  }

  lemma ProofShapes(c: ProofContext, challenge: Buffer, digest: Buffer, c': ProofContext, challenge': Buffer,
                    digest': Buffer)
    requires FieldsFit(c) && FieldsFit(c') && |challenge| == |challenge'| && |digest| == |digest'|
    ensures SameShapes(ProofParts(c, challenge, digest), ProofParts(c', challenge', digest'))
  {
    assert SameShapes(ProofHead(c), ProofHead(c'));
    assert SameShapes(ProofTexts(c), ProofTexts(c'));
  }

  lemma SamePartsSameContext(c: ProofContext, challenge: Buffer, digest: Buffer, c': ProofContext, challenge': Buffer,
                             digest': Buffer)
    requires ProofParts(c, challenge, digest) == ProofParts(c', challenge', digest')
    ensures c.(bindingId := None) == c'.(bindingId := None) && OrEmpty(c.bindingId) == OrEmpty(c'.bindingId)
    ensures challenge == challenge' && digest == digest'
  {
    var last, last' := [Fixed(challenge), Fixed(digest)], [Fixed(challenge'), Fixed(digest')];
    Split(ProofHead(c) + ProofTexts(c), ProofHead(c') + ProofTexts(c'), last, last');
    Split(ProofHead(c), ProofHead(c'), ProofTexts(c), ProofTexts(c'));
    assert last[0] == last'[0] && last[1] == last'[1];
    var h, h', t, t' := ProofHead(c), ProofHead(c'), ProofTexts(c), ProofTexts(c');
    assert h[1] == h'[1] && h[2] == h'[2] && h[3] == h'[3] && h[4] == h'[4];
    assert t[0] == t'[0] && t[1] == t'[1] && t[2] == t'[2] && t[3] == t'[3];
    SameGeneration(c.deviceGeneration, c'.deviceGeneration);
    SameGeneration(c.operationGeneration, c'.operationGeneration);
  }

  ghost predicate Injective<T(!new), U>(f: T -> U) {
    forall x, y :: f(x) == f(y) ==> x == y
  }

  /** Two payloads under one signed message denote the same value, or exhibit a digest collision. */
  lemma ProofBindsPayload(c: ProofContext, challenge: Buffer, payload: Json.Json, c': ProofContext, challenge': Buffer,
                          payload': Json.Json, serialize: Json.Json -> Buffer, sha: Buffer -> Buffer)
    requires Injective(serialize) && forall b :: |sha(b)| == 32
    requires ContextValid(c, challenge, payload) && FieldsFit(c) && ContextValid(c', challenge', payload')
      && FieldsFit(c')
    requires Transcript(ProofParts(c, challenge, sha(serialize(Json.Canonical(payload)))))
          == Transcript(ProofParts(c', challenge', sha(serialize(Json.Canonical(payload')))))
    ensures var b, b' := serialize(Json.Canonical(payload)), serialize(Json.Canonical(payload'));
      sha(b) == sha(b') && (b == b' <==> Json.Meaning(payload) == Json.Meaning(payload'))
  {
    ProofIsUnambiguous(c, challenge, sha(serialize(Json.Canonical(payload))),
                       c', challenge', sha(serialize(Json.Canonical(payload'))));
    Json.CanonicalFormIsComplete(payload, payload');
  }

  // ---------------------------------------------------------------- the key wrap

  const KEY_WRAP_PREFIX: string := "agent-remote/ego-browser/key-wrap/v1\0"

  /** Identifiers the envelope validator accepts. */
  predicate ValidId(id: Buffer) {
    0 < |id| <= 128 && forall i :: 0 <= i < |id| ==> id[i] >= 0x20 && id[i] != 0x7f
  }

  /** For ASCII, the bytes of exactly the texts the protocol takes as identifiers. */
  lemma IdsAreTextIds(s: string)
    requires forall i :: 0 <= i < |s| ==> s[i] as int < 0x80
    ensures ValidId(Ascii(s)) <==> Text.ValidTextId(s, 128)
  {
    Text.Utf8OfAscii(s);
    forall i | 0 <= i < |s| ensures Ascii(s)[i] == s[i] as int { AsciiSpells(s, i); }
  }

  function KeyWrapBody(bindingId: Buffer, generation: u64, requestId: Buffer, sequence: u64): Buffer {
    bindingId + ([0] + (ToBigEndian(generation, 8) + (ToBigEndian(sequence, 8) + requestId)))
  }

  method KeyWrapTranscript(bindingId: Buffer, generation: u64, requestId: Buffer, sequence: u64) returns (t: Buffer)
    ensures t == Ascii(KEY_WRAP_PREFIX) + KeyWrapBody(bindingId, generation, requestId, sequence)
  {
    t := Ascii(KEY_WRAP_PREFIX);
    t := t + bindingId;
    t := t + [0];
    t := t + ToBigEndian(generation, 8);
    t := t + ToBigEndian(sequence, 8);
    t := t + requestId;
    assert t == Ascii(KEY_WRAP_PREFIX) + KeyWrapBody(bindingId, generation, requestId, sequence);
  }

  lemma {:induction false} NulSplits(a: Buffer, b: Buffer, x: Buffer, y: Buffer)
    requires 0 !in a && 0 !in b && a + ([0] + x) == b + ([0] + y)
    ensures a == b && x == y
  {
    var s, t := a + ([0] + x), b + ([0] + y);
    assert s[0] == t[0] && s[1..] == t[1..];
    assert (a != [] ==> s[0] == a[0] && a[0] in a) && (b != [] ==> t[0] == b[0] && b[0] in b);
    if a != [] && b != [] {
      assert s[1..] == a[1..] + ([0] + x) && t[1..] == b[1..] + ([0] + y);
      NulSplits(a[1..], b[1..], x, y);
      assert a == [a[0]] + a[1..] && b == [b[0]] + b[1..];
    } else {
      assert s == [0] + x && t == [0] + y;
      Split([0], [0], x, y);
    }
  }

  /** For accepted identifiers a key-wrap transcript determines all four values. */
  lemma KeyWrapIsUnambiguous(bindingId: Buffer, generation: u64, requestId: Buffer, sequence: u64,
                             bindingId': Buffer, generation': u64, requestId': Buffer, sequence': u64)
    requires ValidId(bindingId) && ValidId(bindingId')
    requires KeyWrapBody(bindingId, generation, requestId, sequence)
          == KeyWrapBody(bindingId', generation', requestId', sequence')
    ensures bindingId == bindingId' && generation == generation' && requestId == requestId' && sequence == sequence'
  {
    var g, g' := ToBigEndian(generation, 8), ToBigEndian(generation', 8);
    var q, q' := ToBigEndian(sequence, 8), ToBigEndian(sequence', 8);
    NulSplits(bindingId, bindingId', g + (q + requestId), g' + (q' + requestId'));
    Split(g, g', q + requestId, q' + requestId');
    Split(q, q', requestId, requestId');
    SameGeneration(generation, generation');
    SameGeneration(sequence, sequence');
  }

  /** The validator is needed: a binding that could end in NUL would share transcripts with the one without it. */
  lemma NulBindingsCollide(b: Buffer, generation: u64, sequence: u64, x: byte, rest: Buffer)
    requires generation < Pow256(7) && sequence < Pow256(7) && 256 * generation <= U64_MAX
      && 256 * sequence + x <= U64_MAX
    ensures KeyWrapBody(b, generation, [x] + rest, sequence)
         == KeyWrapBody(b + [0], 256 * generation, rest, 256 * sequence + x)
  {
    LeadingZero(generation, 7);
    LeadingZero(sequence, 7);
    var g, q := ToBigEndian(generation, 7), ToBigEndian(sequence, 7);
    assert ToBigEndian(256 * generation, 8) == g + [0];
    assert ToBigEndian(256 * sequence + x, 8) == q + [x];
    Rebracket(b, g, q, x, rest);
  }

  lemma Rebracket(b: Buffer, g: Buffer, q: Buffer, x: byte, rest: Buffer)
    ensures b + ([0] + (([0] + g) + (([0] + q) + ([x] + rest)))) == (b + [0]) + ([0] + ((g + [0]) + ((q + [x]) + rest)))
  {}

  lemma {:induction false} LeadingZero(n: nat, width: nat)
    requires n < Pow256(width)
    ensures ToBigEndian(n, width + 1) == [0] + ToBigEndian(n, width)
  {
    if width > 0 { LeadingZero(n / 256, width - 1); }
  }

  // ---------------------------------------------------------------- reading transcripts back

  /** How a reader without the writer's data takes a message apart. */
  datatype Shape = Text | Bytes(n: nat)

  function ReadParts(b: Buffer, layout: seq<Shape>): Option<seq<Buffer>>
    decreases |layout|
  {
    if layout == [] then (if b == [] then Some([]) else None)
    else
      var at := if layout[0].Text? then 4 else 0;
      if |b| < at then None else
        var n := if layout[0].Text? then FromBigEndian(b[..4]) else layout[0].n;
        if |b| < at + n then None else
          var rest := ReadParts(b[at + n..], layout[1..]);
          if rest.None? then None else Some([b[at..at + n]] + rest.value)
  }

  function ShapeOf(p: Part): Shape {
    if p.Delimited? then Text else Bytes(|p.bytes|)
  }

  function LayoutOf(parts: seq<Part>): (layout: seq<Shape>)
    ensures |layout| == |parts| && forall i :: 0 <= i < |parts| ==> layout[i] == ShapeOf(parts[i])
  {
    seq(|parts|, i requires 0 <= i < |parts| => ShapeOf(parts[i]))
  }

  function BytesOf(parts: seq<Part>): (fields: seq<Buffer>)
    ensures |fields| == |parts| && forall i :: 0 <= i < |parts| ==> fields[i] == parts[i].bytes
  {
    seq(|parts|, i requires 0 <= i < |parts| => parts[i].bytes)
  }

  predicate AllFit(parts: seq<Part>) {
    forall i :: 0 <= i < |parts| ==> Fits(parts[i])
  }

  lemma OnePartReads(p: Part, rest: Buffer, layout: seq<Shape>)
    requires Fits(p)
    ensures ReadParts(EncodePart(p) + rest, [ShapeOf(p)] + layout) ==
        var more := ReadParts(rest, layout);
        if more.None? then None else Some([p.bytes] + more.value)
  {
    var b := EncodePart(p) + rest;
    assert ([ShapeOf(p)] + layout)[1..] == layout;
    if p.Delimited? {
      Widths();
      BigEndianRoundTrip(|p.bytes|, 4);
      assert b[..4] == ToBigEndian(|p.bytes|, 4);
      assert b[4..4 + |p.bytes|] == p.bytes && b[4 + |p.bytes|..] == rest;
    } else {
      assert b[0..0 + |p.bytes|] == p.bytes && b[0 + |p.bytes|..] == rest;
    }
  }

  lemma {:induction false} TranscriptReads(parts: seq<Part>)
    requires AllFit(parts)
    ensures ReadParts(Transcript(parts), LayoutOf(parts)) == Some(BytesOf(parts))
  {
    if parts != [] {
      TranscriptReads(parts[1..]);
      OnePartReads(parts[0], Transcript(parts[1..]), LayoutOf(parts[1..]));
      assert LayoutOf(parts) == [ShapeOf(parts[0])] + LayoutOf(parts[1..]);
      assert BytesOf(parts) == [parts[0].bytes] + BytesOf(parts[1..]);
    } else {
      assert LayoutOf(parts) == [] && BytesOf(parts) == [];
    }
  }

  /** Prefix, operation, device, two generations, binding, two profiles, host, challenge, payload digest. */
  const PROOF_LAYOUT: seq<Shape> :=
    [Bytes(32), Text, Text, Bytes(8), Bytes(8), Text, Text, Text, Text, Bytes(32), Bytes(32)]

  function ProofFields(c: ProofContext, challenge: Buffer, digest: Buffer): seq<Buffer> {
    [Ascii("agent-remote/ego-browser/pop/v2\0"), c.operation, c.deviceId,
     ToBigEndian(c.deviceGeneration, 8), ToBigEndian(c.operationGeneration, 8),
     if c.bindingId.Some? then c.bindingId.value else [], c.releaseProfile, c.credentialProfile, c.serverHost,
     challenge, digest]
  }

  /** A reader that knows the layout finds each field of a proof message in its place. */
  lemma ProofReads(c: ProofContext, challenge: Buffer, digest: Buffer)
    requires FieldsFit(c) && |challenge| == 32 && |digest| == 32
    ensures ReadParts(Transcript(ProofParts(c, challenge, digest)), PROOF_LAYOUT)
         == Some(ProofFields(c, challenge, digest))
  {
    var parts := ProofParts(c, challenge, digest);
    PartsInOrder(c, challenge, digest);
    TranscriptReads(parts);
    assert LayoutOf(parts) == PROOF_LAYOUT;
    assert BytesOf(parts) == ProofFields(c, challenge, digest);
  }

  lemma PartsInOrder(c: ProofContext, challenge: Buffer, digest: Buffer)
    ensures var parts := ProofParts(c, challenge, digest);
      var fields := ProofFields(c, challenge, digest);
      && |parts| == |fields| == 11
      && (forall i :: 0 <= i < 11 ==> parts[i].bytes == fields[i])
      && (forall i :: 0 <= i < 11 ==> (parts[i].Delimited? <==> i in {1, 2, 5, 6, 7, 8}))
  {
    var head, texts, last := ProofHead(c), ProofTexts(c), [Fixed(challenge), Fixed(digest)];
    var parts := head + texts + last;
    assert parts[..5] == head && parts[5..9] == texts && parts[9..] == last;
    assert parts[5] == texts[0] && parts[6] == texts[1] && parts[7] == texts[2] && parts[8] == texts[3];
  }

  /** Where the first NUL is. */
  function NulAt(b: Buffer): (n: nat)
    ensures n <= |b| && (n < |b| ==> b[n] == 0)
  {
    if b == [] || b[0] == 0 then 0 else 1 + NulAt(b[1..])
  }

  /** Binding, generation, sequence and request id, as a reader takes them from a key-wrap transcript. */
  function ReadKeyWrap(t: Buffer): Option<(Buffer, nat, nat, Buffer)> {
    if |t| < 37 || t[..37] != Ascii("agent-remote/ego-browser/key-wrap/v1\0") then None else
      var body := t[37..];
      var n := NulAt(body);
      if |body| < n + 17 then None
      else Some((body[..n], FromBigEndian(body[n + 1..n + 9]), FromBigEndian(body[n + 9..n + 17]), body[n + 17..]))
  }

  lemma {:induction false} NulEnds(a: Buffer, rest: Buffer)
    requires 0 !in a
    ensures NulAt(a + ([0] + rest)) == |a|
  {
    if a == [] {
      assert (a + ([0] + rest))[0] == 0;
    } else {
      assert (a + ([0] + rest))[0] == a[0] && a[0] in a;
      assert (a + ([0] + rest))[1..] == a[1..] + ([0] + rest);
      NulEnds(a[1..], rest);
    }
  }

  /** For accepted identifiers a reader finds all four values of a key-wrap transcript in their places. */
  lemma KeyWrapReads(bindingId: Buffer, generation: u64, requestId: Buffer, sequence: u64)
    requires ValidId(bindingId)
    ensures ReadKeyWrap(Ascii(KEY_WRAP_PREFIX) + KeyWrapBody(bindingId, generation, requestId, sequence))
         == Some((bindingId, generation, sequence, requestId))
  {
    var prefix := Ascii(KEY_WRAP_PREFIX);
    var g, q := ToBigEndian(generation, 8), ToBigEndian(sequence, 8);
    var body, n := KeyWrapBody(bindingId, generation, requestId, sequence), |bindingId|;
    assert (prefix + body)[..37] == prefix && (prefix + body)[37..] == body;
    NulEnds(bindingId, g + (q + requestId));
    WrapLayout(bindingId, g, q, requestId);
    Widths();
    BigEndianRoundTrip(generation, 8);
    BigEndianRoundTrip(sequence, 8);
  }

  lemma WrapLayout(a: Buffer, g: Buffer, q: Buffer, r: Buffer)
    requires |g| == 8 && |q| == 8
    ensures var body, n := a + ([0] + (g + (q + r))), |a|;
      && |body| >= n + 17 && body[..n] == a
      && body[n + 1..n + 9] == g && body[n + 9..n + 17] == q && body[n + 17..] == r
  {}
}

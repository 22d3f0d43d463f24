/** WebSocket framing (RFC 6455, sections 5.2 to 5.5): building frames, and an
  incremental parser that reassembles messages and answers pings. */
module Websocket {

  type Byte = n: nat | n < 256

  /** A received message, by its opcode: 1 text, 2 binary, 8 close, 10 pong. */
  datatype Message = Message(opcode: nat, data: seq<Byte>)

  const MAX_FRAME: nat := 16 * 1024 * 1024
  const MAX_MESSAGE: nat := 16 * 1024 * 1024
  const MAX_PENDING: nat := 256

  const PROTOCOL_ERROR: nat := 1002
  const TOO_BIG: nat := 1009

  const CONTINUATION: nat := 0
  const CLOSE: nat := 8
  const PING: nat := 9
  const PONG: nat := 10

  // ─── Masking ───────────────────────────────────────────────────────────────

  /** Exclusive or of the `n` lowest bits. */
  function XorBits(a: nat, b: nat, n: nat): nat {
    if n == 0 then 0 else (if a % 2 == b % 2 then 0 else 1) + 2 * XorBits(a / 2, b / 2, n - 1)
  }

  function Power2(n: nat): nat { if n == 0 then 1 else 2 * Power2(n - 1) }

  lemma {:induction false} XorBitsBound(a: nat, b: nat, n: nat)
    ensures XorBits(a, b, n) < Power2(n)
  {
    if n > 0 {
      XorBitsBound(a / 2, b / 2, n - 1);
    }
  }

  lemma {:induction false} XorBitsTwice(a: nat, b: nat, n: nat)
    requires a < Power2(n)
    ensures XorBits(XorBits(a, b, n), b, n) == a
  {
    if n > 0 {
      var x := XorBits(a / 2, b / 2, n - 1);
      assert XorBits(a, b, n) / 2 == x;
      XorBitsTwice(a / 2, b / 2, n - 1);
    }
  }

  function Xor(a: Byte, b: Byte): Byte {
    XorBitsBound(a, b, 8);
    Eight();
    XorBits(a, b, 8)
  }

  lemma Eight()
    ensures Power2(8) == 256
  {
    assert Power2(4) == 16;
    assert Power2(6) == 64;
  }

  lemma XorTwice(a: Byte, k: Byte)
    ensures Xor(Xor(a, k), k) == a
  {
    Eight();
    XorBitsTwice(a, k, 8);
  }

  /** Byte `i` goes with byte `i` modulo 4 of the key. */
  function Masked(data: seq<Byte>, key: seq<Byte>): (r: seq<Byte>)
    requires |key| == 4
    ensures |r| == |data|
  {
    seq(|data|, i requires 0 <= i < |data| => Xor(data[i], key[i % 4]))
  }

  /** Masking with the same key takes the mask off. */
  lemma MaskedTwice(data: seq<Byte>, key: seq<Byte>)
    requires |key| == 4
    ensures Masked(Masked(data, key), key) == data
  {
    forall i | 0 <= i < |data|
      ensures Masked(Masked(data, key), key)[i] == data[i]
    {
      XorTwice(data[i], key[i % 4]);
    }
  }

  // ─── Numbers on the wire ───────────────────────────────────────────────────

  function Power256(n: nat): nat { if n == 0 then 1 else 256 * Power256(n - 1) }

  /** `n` in `size` bytes, the most significant first. */
  function BigEndian(n: nat, size: nat): (r: seq<Byte>)
    ensures |r| == size
  {
    if size == 0 then [] else BigEndian(n / 256, size - 1) + [n % 256]
  }

  function FromBigEndian(bs: seq<Byte>): nat {
    if bs == [] then 0 else FromBigEndian(bs[..|bs| - 1]) * 256 + bs[|bs| - 1]
  }

  lemma {:induction false} BigEndianRoundTrip(n: nat, size: nat)
    requires n < Power256(size)
    ensures FromBigEndian(BigEndian(n, size)) == n
  {
    if size > 0 {
      BigEndianRoundTrip(n / 256, size - 1);
      assert BigEndian(n, size)[..size - 1] == BigEndian(n / 256, size - 1);
    }
  }

  lemma Powers()
    ensures Power256(2) == 65536 && Power256(8) == 0x1_0000_0000_0000_0000
  {
    assert Power256(2) == 65536;
    assert Power256(4) == 0x1_0000_0000;
    assert Power256(6) == 0x1_0000_0000_0000;
  }

  // ─── Frames that are sent ──────────────────────────────────────────────────

  /** A frame of the server, which is never masked, with the shortest length. */
  function BuildFrame(payload: seq<Byte>, opcode: nat, fin: bool): seq<Byte>
    requires opcode < 16
  {
    [(if fin then 128 else 0) + opcode]
    + (if |payload| < 126 then [|payload|]
       else if |payload| < 65536 then [126, |payload| / 256, |payload| % 256]
       else [127] + BigEndian(|payload|, 8))
    + payload
  }

  function CloseFrame(code: nat): seq<Byte>
    requires code < 65536
  {
    [0x88, 2, code / 256, code % 256]
  }

  // ─── The parser ────────────────────────────────────────────────────────────

  datatype Ws = Ws(
    read: seq<Byte>,
    pending: seq<Message>,
    frag: seq<Byte>,
    fragOpcode: nat,
    closed: bool,
    sent: seq<seq<Byte>>)

  /** What the bytes at hand are: too few to tell, a violation, a frame that is too big,
    or a frame of `size` bytes with its payload unmasked. */
  datatype Wire = NeedMore | Violation | Oversized | Frame(fin: bool, opcode: nat, payload: seq<Byte>, size: nat)

  predicate IsControl(opcode: nat) { opcode >= 8 }

  predicate Reserved(opcode: nat) {
    if IsControl(opcode) then opcode > 0xA else opcode > 0x2
  }

  function ParseWire(r: seq<Byte>): Wire {
    if |r| < 2 then NeedMore
    else
      var fin, rsv, opcode := r[0] >= 128, r[0] % 128 / 16, r[0] % 16;
      var masked, len7 := r[1] >= 128, r[1] % 128;
      if rsv != 0 then Violation
      else if Reserved(opcode) then Violation
      else if len7 == 126 then
        if |r| < 4 then NeedMore else ParseBody(r, fin, opcode, masked, 4, (r[2] as nat) * 256 + r[3] as nat)
      else if len7 == 127 then
        if |r| < 10 then NeedMore
        else if r[2] >= 128 then Violation
        else ParseBody(r, fin, opcode, masked, 10, FromBigEndian(r[2..10]))
      else ParseBody(r, fin, opcode, masked, 2, len7)
  }

  /** `hdr` bytes of header are read, and the payload has `len` bytes. */
  function ParseBody(r: seq<Byte>, fin: bool, opcode: nat, masked: bool, hdr: nat, len: nat): Wire
    requires hdr <= |r|
  {
    if IsControl(opcode) && (!fin || len > 125) then Violation
    else if len > MAX_FRAME then Oversized
    else
      var start := if masked then hdr + 4 else hdr;
      if |r| < start + len then NeedMore
      else
        var raw := r[start..start + len];
        Frame(fin, opcode, if masked then Masked(raw, r[hdr..hdr + 4]) else raw, start + len)
  }

  lemma FrameSize(r: seq<Byte>)
    ensures var w := ParseWire(r);
            w.Frame? ==>
              && 2 <= w.size <= |r| && |w.payload| <= MAX_FRAME
              && !Reserved(w.opcode) && (IsControl(w.opcode) ==> w.fin && |w.payload| <= 125)
  {
  }

  datatype Step = Wait | Stop(last: Ws) | Go(next: Ws)

  function FailClose(s: Ws, code: nat): Ws
    requires code < 65536
  {
    s.(sent := s.sent + [CloseFrame(code)], closed := true)
  }

  function ParseOne(s: Ws): Step {
    FrameSize(s.read);
    Act(s, ParseWire(s.read))
  }

  function Act(s: Ws, w: Wire): Step
    requires w.Frame? ==> w.size <= |s.read|
  {
    match w
    case NeedMore => Wait
    case Violation => Stop(FailClose(s, PROTOCOL_ERROR))
    case Oversized => Stop(s.(closed := true))
    case Frame(fin, opcode, payload, size) =>
      if |s.pending| >= MAX_PENDING then Stop(s.(closed := true))
      else Deliver(s.(read := s.read[size..]), fin, opcode, payload)
  }

  /** A whole frame: control frames are answered or queued, data frames are put together. */
  function Deliver(s: Ws, fin: bool, opcode: nat, payload: seq<Byte>): Step {
    if opcode == CLOSE then
      Stop(s.(closed := true, pending := s.pending + [Message(CLOSE, payload)],
              sent := s.sent + [if |payload| >= 2 then [0x88, 2, payload[0], payload[1]] else [0x88, 0]]))
    else if opcode == PING then Go(s.(sent := s.sent + [BuildFrame(payload, PONG, true)]))
    else if opcode == PONG then Go(s.(pending := s.pending + [Message(PONG, payload)]))
    else
      var fragmenting := s.frag != [] || s.fragOpcode != 0;
      if opcode == CONTINUATION then
        if !fragmenting then Stop(FailClose(s, PROTOCOL_ERROR))
        else if |s.frag| + |payload| > MAX_MESSAGE then Stop(FailClose(s, TOO_BIG))
        else if fin then
          Go(s.(pending := s.pending + [Message(s.fragOpcode, s.frag + payload)], frag := [], fragOpcode := 0))
        else Go(s.(frag := s.frag + payload))
      else if fragmenting then Stop(FailClose(s, PROTOCOL_ERROR))
      else if fin then Go(s.(pending := s.pending + [Message(opcode, payload)]))
      else Go(s.(frag := payload, fragOpcode := opcode))
  }

  lemma GoConsumes(s: Ws)
    ensures var st := ParseOne(s);
            (st.Go? ==> |st.next.read| < |s.read|) && (st.Stop? ==> |st.last.read| <= |s.read|)
  {
    FrameSize(s.read);
  }

  function Parse(s: Ws): Ws
    decreases |s.read|
  {
    match ParseOne(s)
    case Wait => s
    case Stop(t) => t
    case Go(t) =>
      GoConsumes(s);
      Parse(t)
  }

  function Fed(s: Ws, data: seq<Byte>): Ws { Parse(s.(read := s.read + data)) }

  // ─── Chunks do not matter ──────────────────────────────────────────────────

  function MoreRead(s: Ws, b: seq<Byte>): Ws { s.(read := s.read + b) }

  lemma BodyIsPrefixDetermined(r: seq<Byte>, b: seq<Byte>, fin: bool, opcode: nat, masked: bool, hdr: nat, len: nat)
    requires hdr <= |r| && ParseBody(r, fin, opcode, masked, hdr, len) != NeedMore
    ensures ParseBody(r + b, fin, opcode, masked, hdr, len) == ParseBody(r, fin, opcode, masked, hdr, len)
  {
    hide Masked;
    var start := if masked then hdr + 4 else hdr;
    if start + len <= |r| {
      assert (r + b)[start..start + len] == r[start..start + len];
      assert masked ==> (r + b)[hdr..hdr + 4] == r[hdr..hdr + 4];
    }
  }

  /** Once the parser knows what it has, more bytes do not change it. */
  lemma WireIsPrefixDetermined(r: seq<Byte>, b: seq<Byte>)
    requires ParseWire(r) != NeedMore
    ensures ParseWire(r + b) == ParseWire(r)
  {
    hide ParseBody, FromBigEndian;
    var fin, opcode, masked, len7 := r[0] >= 128, r[0] % 16, r[1] >= 128, r[1] % 128;
    if r[0] % 128 / 16 != 0 || Reserved(opcode) {
    } else if len7 == 126 {
      BodyIsPrefixDetermined(r, b, fin, opcode, masked, 4, (r[2] as nat) * 256 + r[3] as nat);
    } else if len7 == 127 {
      assert (r + b)[2..10] == r[2..10];
      if r[2] < 128 {
        BodyIsPrefixDetermined(r, b, fin, opcode, masked, 10, FromBigEndian(r[2..10]));
      }
    } else {
      BodyIsPrefixDetermined(r, b, fin, opcode, masked, 2, len7);
    }
  }

  lemma StepWithMore(s: Ws, b: seq<Byte>)
    ensures match ParseOne(s)
            case Wait => true
            case Stop(t) => ParseOne(MoreRead(s, b)) == Stop(MoreRead(t, b))
            case Go(t) => ParseOne(MoreRead(s, b)) == Go(MoreRead(t, b))
  {
    hide ParseWire;
    if ParseWire(s.read) != NeedMore {
      WireIsPrefixDetermined(s.read, b);
      FrameSize(s.read);
      var w := ParseWire(s.read);
      if w.Frame? {
        assert (s.read + b)[w.size..] == s.read[w.size..] + b;
      }
    }
  }

  lemma ClosedStays(s: Ws)
    ensures ParseOne(s).Stop? ==> ParseOne(s).last.closed
    ensures ParseOne(s).Go? ==> ParseOne(s).next.closed == s.closed
  {
    hide ParseWire;
  }

  lemma {:induction false} ParseWithMore(s: Ws, b: seq<Byte>)
    requires !s.closed
    ensures !Parse(s).closed ==> Parse(MoreRead(s, b)) == Parse(MoreRead(Parse(s), b))
    ensures Parse(s).closed ==> Parse(MoreRead(s, b)) == MoreRead(Parse(s), b)
    decreases |s.read|
  {
    hide ParseOne;
    StepWithMore(s, b);
    ClosedStays(s);
    if ParseOne(s).Go? {
      GoConsumes(s);
      ParseWithMore(ParseOne(s).next, b);
    }
  }

  /** Where the stream is cut makes no difference while the connection is open; and when
    it is closed by the first part, the rest of the same piece changes nothing that can be
    seen.  What a further piece does is in `ClosedIsIgnored`. */
  lemma ChunkingDoesNotMatter(s: Ws, a: seq<Byte>, b: seq<Byte>)
    requires !s.closed
    ensures !Fed(s, a).closed ==> Fed(Fed(s, a), b) == Fed(s, a + b)
    ensures Fed(s, a).closed ==> Fed(s, a + b).(read := []) == Fed(s, a).(read := [])
  {
    hide Parse;
    assert s.read + a + b == s.read + (a + b);
    ParseWithMore(MoreRead(s, a), b);
  }

  // ─── A closed connection ───────────────────────────────────────────────────

  lemma OneIgnoresClosed(s: Ws)
    ensures var open := s.(closed := false);
            match ParseOne(open)
            case Wait => ParseOne(s).Wait?
            case Stop(t) => ParseOne(s) == Stop(t)
            case Go(t) => ParseOne(s) == Go(t.(closed := s.closed))
  {
    hide ParseWire;
  }

  lemma {:induction false} ParseIgnoresClosed(s: Ws)
    ensures Parse(s) == Parse(s.(closed := false)).(closed := s.closed || Parse(s.(closed := false)).closed)
    decreases |s.read|
  {
    hide ParseOne;
    var open := s.(closed := false);
    OneIgnoresClosed(s);
    ClosedStays(open);
    GoConsumes(open);
    match ParseOne(open)
    case Wait =>
    case Stop(t) =>
    case Go(t) =>
      ParseIgnoresClosed(t.(closed := s.closed));
      assert t.(closed := s.closed).(closed := false) == t;
      assert Parse(s) == Parse(t.(closed := s.closed)) by { GoConsumes(s); }
  }

  /** Nobody looks whether the connection is closed: bytes that come in then are handled as
    if it were open, and it stays closed. */
  lemma ClosedIsIgnored(s: Ws, b: seq<Byte>)
    requires s.closed
    ensures Fed(s, b) == Fed(s.(closed := false), b).(closed := true)
  {
    hide Parse;
    ParseIgnoresClosed(MoreRead(s, b));
    assert MoreRead(s, b).(closed := false) == MoreRead(s.(closed := false), b);
  }

  /** The connection stops at a frame that is still there. */
  predicate Refusing(s: Ws) { ParseOne(s).Stop? && ParseOne(s).last.read == s.read }

  /** What is sent with the refusal. */
  function Refusal(s: Ws): seq<seq<Byte>> { if ParseWire(s.read).Violation? then [CloseFrame(PROTOCOL_ERROR)] else [] }

  lemma RefusedHere(s: Ws)
    requires Refusing(s)
    ensures ParseOne(s) == Stop(s.(closed := true, sent := s.sent + Refusal(s)))
    ensures ParseWire(s.read) != NeedMore
  {
    hide ParseWire, CloseFrame;
    FrameSize(s.read);
  }

  /** A refused frame is refused again whatever comes behind it: nothing more is ever
    delivered, and a Close frame that goes with the refusal is sent once more each time. */
  lemma RefusedForGood(s: Ws, b: seq<Byte>)
    requires Refusing(s)
    ensures Fed(s, b) == MoreRead(s, b).(closed := true, sent := s.sent + Refusal(s))
    ensures Refusing(Fed(s, b)) && Refusal(Fed(s, b)) == Refusal(s)
  {
    hide ParseWire, ParseOne, CloseFrame;
    RefusedHere(s);
    StepWithMore(s, b);
    WireIsPrefixDetermined(s.read, b);
    RefusedAgain(s, b);
  }

  lemma RefusedAgain(s: Ws, b: seq<Byte>)
    requires Refusing(s)
    ensures Refusing(MoreRead(s, b).(closed := true, sent := s.sent + Refusal(s)))
  {
    hide ParseWire, CloseFrame;
    RefusedHere(s);
    WireIsPrefixDetermined(s.read, b);
    FrameSize(s.read);
    FrameSize(s.read + b);
  }

  /** A Close frame of the client, and a pong. */
  const CLOSING: seq<Byte> := [0x88, 0]
  const PONGING: seq<Byte> := [0x8A, 0]

  /** Behind a Close frame that has been consumed messages are still delivered, when they
    come in a second piece; in one piece they are not. */
  lemma DeliveredAfterClose()
    ensures var s := Ws([], [], [], 0, false, []);
            && Fed(s, CLOSING + PONGING).pending == [Message(CLOSE, [])]
            && Fed(Fed(s, CLOSING), PONGING).pending == [Message(CLOSE, []), Message(PONG, [])]
  {
    var s := Ws([], [], [], 0, false, []);
    ShortFrame(CLOSING, []);
    ShortFrame(PONGING, []);
    assert [] + CLOSING == CLOSING && CLOSING + PONGING == CLOSING + PONGING + [] && [] + PONGING == PONGING;
    assert ParseWire(CLOSING) == Frame(true, CLOSE, [], 2) && ParseWire(PONGING) == Frame(true, PONG, [], 2);
    WireIsPrefixDetermined(CLOSING, PONGING);
    assert [] + (CLOSING + PONGING) == CLOSING + PONGING;
    var t := Fed(s, CLOSING);
    assert ParseOne(s.(read := CLOSING)).Stop?;
    assert t.read == [] && t.pending == [Message(CLOSE, [])];
    var u := t.(read := PONGING);
    assert ParseOne(u) == Go(t.(pending := t.pending + [Message(PONG, [])]));
    assert ParseOne(t.(pending := t.pending + [Message(PONG, [])])).Wait?;
    assert Parse(t.(pending := t.pending + [Message(PONG, [])])).pending == t.pending + [Message(PONG, [])];
    assert Parse(u).pending == t.pending + [Message(PONG, [])];
  }

  lemma ShortFrame(frame: seq<Byte>, rest: seq<Byte>)
    requires |frame| == 2 && frame[0] >= 128 && frame[0] % 128 / 16 == 0 && !Reserved(frame[0] % 16) && frame[1] == 0
    ensures ParseWire(frame + rest) == Frame(true, frame[0] % 16, [], 2)
  {
    var r := frame + rest;
    assert r[0] == frame[0] && r[1] == frame[1];
    assert r[2..2] == [];
  }

  // ─── Limits ────────────────────────────────────────────────────────────────

  predicate Limited(s: Ws) {
    && |s.pending| <= MAX_PENDING && |s.frag| <= MAX_MESSAGE && s.fragOpcode <= 2
    && (s.fragOpcode == 0 ==> s.frag == [])
  }

  lemma OneKeepsLimits(s: Ws)
    requires Limited(s)
    ensures match ParseOne(s)
            case Wait => |s.read| < MAX_FRAME + 14
            case Stop(t) => Limited(t)
            case Go(t) => Limited(t)
  {
    hide Masked, FromBigEndian, BuildFrame;
    FrameSize(s.read);
  }

  /** What is kept in memory is bounded, whatever arrives. */
  lemma {:induction false} ParseKeepsLimits(s: Ws)
    requires Limited(s) && !s.closed
    ensures Limited(Parse(s)) && (!Parse(s).closed ==> |Parse(s).read| < MAX_FRAME + 14)
    decreases |s.read|
  {
    hide ParseOne, Limited;
    OneKeepsLimits(s);
    ClosedStays(s);
    if ParseOne(s).Go? {
      GoConsumes(s);
      ParseKeepsLimits(ParseOne(s).next);
    }
  }

  // ─── What a client can send ────────────────────────────────────────────────

  /** The three forms of the length. */
  datatype Form = Short | Medium | Long

  /** A payload with the key it is masked with, or none, and the form of its length. */
  datatype Piece = Piece(data: seq<Byte>, key: seq<Byte>, form: Form)

  predicate Fits(p: Piece) {
    && (p.key == [] || |p.key| == 4) && |p.data| <= MAX_FRAME
    && match p.form case Short => |p.data| < 126 case Medium => |p.data| < 65536 case Long => true
  }

  function LengthBytes(p: Piece): seq<Byte>
    requires Fits(p)
  {
    var bit := if p.key == [] then 0 else 128;
    match p.form
    case Short => [bit + |p.data|]
    case Medium => [bit + 126] + BigEndian(|p.data|, 2)
    case Long => [bit + 127] + BigEndian(|p.data|, 8)
  }

  function Encode(fin: bool, opcode: nat, p: Piece): seq<Byte>
    requires Fits(p) && opcode < 16
  {
    [(if fin then 128 else 0) + opcode] + LengthBytes(p) + p.key
    + (if p.key == [] then p.data else Masked(p.data, p.key))
  }

  lemma LongLength(n: nat)
    requires n <= MAX_FRAME
    ensures BigEndian(n, 8)[0] < 128
  {
    var bs := BigEndian(n, 8);
    Powers();
    BigEndianRoundTrip(n, 8);
    FirstByte(bs);
  }

  lemma {:induction false} FirstByte(bs: seq<Byte>)
    requires bs != []
    ensures FromBigEndian(bs) >= bs[0] * Power256(|bs| - 1)
  {
    if |bs| > 1 {
      FirstByte(bs[..|bs| - 1]);
      assert bs[..|bs| - 1][0] == bs[0];
      assert Power256(|bs| - 1) == 256 * Power256(|bs| - 2);
      assert bs[0] * Power256(|bs| - 2) * 256 == bs[0] * Power256(|bs| - 1);
    } else {
      assert bs[..0] == [];
    }
  }

  /** What is behind a header that takes `hdr` bytes. */
  lemma BodyIsParsed(r: seq<Byte>, head: seq<Byte>, fin: bool, opcode: nat, p: Piece, rest: seq<Byte>)
    requires Fits(p) && r == head + p.key + (if p.key == [] then p.data else Masked(p.data, p.key)) + rest
    requires IsControl(opcode) ==> fin && |p.data| <= 125
    ensures ParseBody(r, fin, opcode, p.key != [], |head|, |p.data|)
            == Frame(fin, opcode, p.data, |head| + |p.key| + |p.data|)
  {
    hide Xor;
    var start := |head| + |p.key|;
    var body := if p.key == [] then p.data else Masked(p.data, p.key);
    assert r[|head|..start] == p.key;
    assert r[start..start + |p.data|] == body;
    if p.key != [] {
      MaskedTwice(p.data, p.key);
    }
  }

  lemma LengthIsParsed(r: seq<Byte>, first: Byte, p: Piece, rest: seq<Byte>)
    requires Fits(p) && r == [first] + LengthBytes(p) + rest
    ensures |r| >= 2 && r[0] == first && (r[1] >= 128 <==> p.key != []) && |LengthBytes(p)| >= 1
    ensures p.form.Short? ==> r[1] % 128 == |p.data| < 126 && |LengthBytes(p)| == 1
    ensures p.form.Medium? ==>
              r[1] % 128 == 126 && |LengthBytes(p)| == 3 && |r| >= 4 && (r[2] as nat) * 256 + r[3] as nat == |p.data|
    ensures p.form.Long? ==>
              r[1] % 128 == 127 && |LengthBytes(p)| == 9 && |r| >= 10 && r[2] < 128
              && FromBigEndian(r[2..10]) == |p.data|
  {
    var l := LengthBytes(p);
    assert r[1] == l[0];
    Powers();
    match p.form
    case Short =>
    case Medium =>
      assert r[2] == l[1] && r[3] == l[2];
      assert BigEndian(|p.data|, 2) == [|p.data| / 256 % 256, |p.data| % 256];
    case Long =>
      assert r[2..10] == BigEndian(|p.data|, 8);
      LongLength(|p.data|);
      assert r[2] == r[2..10][0];
      BigEndianRoundTrip(|p.data|, 8);
  }

  lemma HeaderIsParsed(r: seq<Byte>, fin: bool, opcode: nat, size: nat, hdr: nat)
    requires |r| >= 2 && opcode < 16 && !Reserved(opcode) && r[0] == (if fin then 128 else 0) + opcode
    requires || (r[1] % 128 == size < 126 && hdr == 2)
             || (r[1] % 128 == 126 && hdr == 4 <= |r| && (r[2] as nat) * 256 + r[3] as nat == size)
             || (r[1] % 128 == 127 && hdr == 10 <= |r| && r[2] < 128 && FromBigEndian(r[2..10]) == size)
    ensures ParseWire(r) == ParseBody(r, fin, opcode, r[1] >= 128, hdr, size)
  {
    hide ParseBody, FromBigEndian;
  }

  /** Whatever the key and the form of the length, the parser reads the frame back. */
  lemma EncodedIsParsed(fin: bool, opcode: nat, p: Piece, rest: seq<Byte>)
    requires Fits(p) && opcode < 16 && !Reserved(opcode) && (IsControl(opcode) ==> fin && |p.data| <= 125)
    ensures ParseWire(Encode(fin, opcode, p) + rest) == Frame(fin, opcode, p.data, |Encode(fin, opcode, p)|)
  {
    hide LengthBytes, ParseBody, ParseWire, Masked, FromBigEndian;
    var first: Byte := (if fin then 128 else 0) + opcode;
    var l := LengthBytes(p);
    var body := if p.key == [] then p.data else Masked(p.data, p.key);
    var r := Encode(fin, opcode, p) + rest;
    assert r == [first] + l + (p.key + body + rest);
    LengthIsParsed(r, first, p, p.key + body + rest);
    HeaderIsParsed(r, fin, opcode, |p.data|, 1 + |l|);
    assert r == ([first] + l) + p.key + body + rest;
    BodyIsParsed(r, [first] + l, fin, opcode, p, rest);
  }

  /** A frame of the server is one of these, without a key: it can be read back. */
  lemma BuiltFrameIsEncoded(payload: seq<Byte>, opcode: nat, fin: bool)
    requires opcode < 16 && |payload| <= MAX_FRAME
    ensures exists form ::
              Fits(Piece(payload, [], form))
              && BuildFrame(payload, opcode, fin) == Encode(fin, opcode, Piece(payload, [], form))
  {
    var form := if |payload| < 126 then Short else if |payload| < 65536 then Medium else Long;
    var p := Piece(payload, [], form);
    assert Fits(p);
    if form == Medium {
      assert BigEndian(|payload|, 2) == [|payload| / 256 % 256, |payload| % 256];
    }
    assert BuildFrame(payload, opcode, fin) == Encode(fin, opcode, p);
  }

  // ─── Conversations ─────────────────────────────────────────────────────────

  datatype Control = Ping(piece: Piece) | Pong(piece: Piece)

  /** A further fragment of a message, and the control frames sent before it. */
  datatype Tail = Tail(before: seq<Control>, piece: Piece)

  /** What a client sends: a control frame, or a text or binary message in one fragment
    or more. */
  datatype Item = Alone(control: Control) | Whole(opcode: nat, first: Piece, rest: seq<Tail>)

  predicate FitsControl(c: Control) { Fits(c.piece) && |c.piece.data| <= 125 }

  predicate FitControls(cs: seq<Control>) { forall i :: 0 <= i < |cs| ==> FitsControl(cs[i]) }

  predicate FitTails(ts: seq<Tail>) {
    forall i :: 0 <= i < |ts| ==> FitControls(ts[i].before) && Fits(ts[i].piece)
  }

  predicate FitsItem(i: Item) {
    match i
    case Alone(c) => FitsControl(c)
    case Whole(opcode, first, rest) =>
      (opcode == 1 || opcode == 2) && Fits(first) && FitTails(rest) && |first.data| + |TailsData(rest)| <= MAX_MESSAGE
  }

  function ControlWire(c: Control): seq<Byte>
    requires FitsControl(c)
  {
    Encode(true, if c.Ping? then PING else PONG, c.piece)
  }

  function ControlsWire(cs: seq<Control>): seq<Byte>
    requires FitControls(cs)
  {
    if cs == [] then [] else ControlWire(cs[0]) + ControlsWire(cs[1..])
  }

  function TailsWire(ts: seq<Tail>): seq<Byte>
    requires FitTails(ts)
  {
    if ts == [] then []
    else ControlsWire(ts[0].before) + Encode(|ts| == 1, CONTINUATION, ts[0].piece) + TailsWire(ts[1..])
  }

  function ItemWire(i: Item): seq<Byte>
    requires FitsItem(i)
  {
    match i
    case Alone(c) => ControlWire(c)
    case Whole(opcode, first, rest) => Encode(rest == [], opcode, first) + TailsWire(rest)
  }

  function WireOf(items: seq<Item>): seq<Byte>
    requires forall i :: 0 <= i < |items| ==> FitsItem(items[i])
  {
    if items == [] then [] else ItemWire(items[0]) + WireOf(items[1..])
  }

  function TailsData(ts: seq<Tail>): seq<Byte> {
    if ts == [] then [] else ts[0].piece.data + TailsData(ts[1..])
  }

  /** Pongs are handed over. */
  function PongsOf(cs: seq<Control>): seq<Message> {
    if cs == [] then []
    else (if cs[0].Pong? then [Message(PONG, cs[0].piece.data)] else []) + PongsOf(cs[1..])
  }

  function TailPongs(ts: seq<Tail>): seq<Message> {
    if ts == [] then [] else PongsOf(ts[0].before) + TailPongs(ts[1..])
  }

  /** A message comes after the control frames between its fragments. */
  function ItemMessages(i: Item): seq<Message> {
    match i
    case Alone(c) => PongsOf([c])
    case Whole(opcode, first, rest) => TailPongs(rest) + [Message(opcode, first.data + TailsData(rest))]
  }

  function MessagesOf(items: seq<Item>): seq<Message> {
    if items == [] then [] else ItemMessages(items[0]) + MessagesOf(items[1..])
  }

  /** Every ping is answered with its own payload. */
  function AnswersOf(cs: seq<Control>): seq<seq<Byte>> {
    if cs == [] then []
    else (if cs[0].Ping? then [BuildFrame(cs[0].piece.data, PONG, true)] else []) + AnswersOf(cs[1..])
  }

  function TailAnswers(ts: seq<Tail>): seq<seq<Byte>> {
    if ts == [] then [] else AnswersOf(ts[0].before) + TailAnswers(ts[1..])
  }

  function ItemAnswers(i: Item): seq<seq<Byte>> {
    match i
    case Alone(c) => AnswersOf([c])
    case Whole(_, _, rest) => TailAnswers(rest)
  }

  function AnswersTo(items: seq<Item>): seq<seq<Byte>> {
    if items == [] then [] else ItemAnswers(items[0]) + AnswersTo(items[1..])
  }

  function Gained(s: Ws, ms: seq<Message>, answers: seq<seq<Byte>>, rest: seq<Byte>): Ws {
    s.(read := rest, pending := s.pending + ms, sent := s.sent + answers)
  }

  /** A frame is one step of the parser. */
  lemma FrameIsOneStep(s: Ws, fin: bool, opcode: nat, p: Piece, rest: seq<Byte>)
    requires Fits(p) && opcode < 16 && !Reserved(opcode) && (IsControl(opcode) ==> fin && |p.data| <= 125)
    requires |s.pending| < MAX_PENDING && s.read == Encode(fin, opcode, p) + rest
    ensures ParseOne(s) == Deliver(s.(read := rest), fin, opcode, p.data)
  {
    hide Encode, ParseWire, Deliver;
    EncodedIsParsed(fin, opcode, p, rest);
    assert s.read[|Encode(fin, opcode, p)|..] == rest;
  }

  lemma ControlReceived(s: Ws, c: Control, rest: seq<Byte>)
    requires FitsControl(c) && |s.pending| < MAX_PENDING && s.read == ControlWire(c) + rest
    ensures |s.read| > |rest|
    ensures ParseOne(s) == Go(s.(read := rest,
                                 pending := if c.Pong? then s.pending + [Message(PONG, c.piece.data)] else s.pending,
                                 sent := if c.Ping? then s.sent + [BuildFrame(c.piece.data, PONG, true)] else s.sent))
  {
    hide Encode, ParseWire, ParseOne, BuildFrame;
    FrameIsOneStep(s, true, if c.Ping? then PING else PONG, c.piece, rest);
    EncodedIsSome(true, if c.Ping? then PING else PONG, c.piece);
  }

  lemma EncodedIsSome(fin: bool, opcode: nat, p: Piece)
    requires Fits(p) && opcode < 16
    ensures |Encode(fin, opcode, p)| > 0
  {
    hide LengthBytes, Masked;
  }

  lemma ControlsParts(s: Ws, cs: seq<Control>, rest: seq<Byte>)
    requires FitControls(cs) && cs != [] && s.read == ControlsWire(cs) + rest
    ensures FitsControl(cs[0]) && FitControls(cs[1..]) && s.read == ControlWire(cs[0]) + (ControlsWire(cs[1..]) + rest)
    ensures |PongsOf(cs)| == |PongsOf(cs[1..])| + if cs[0].Pong? then 1 else 0
  {
    hide ControlWire, FitsControl;
  }

  lemma NoControls(s: Ws, rest: seq<Byte>)
    requires s.read == ControlsWire([]) + rest
    ensures Gained(s, PongsOf([]), AnswersOf([]), rest) == s
  {
  }

  lemma GainedByControl(s: Ws, t: Ws, cs: seq<Control>, rest1: seq<Byte>, rest: seq<Byte>)
    requires cs != []
    requires t == s.(read := rest1,
                     pending := if cs[0].Pong? then s.pending + [Message(PONG, cs[0].piece.data)] else s.pending,
                     sent := if cs[0].Ping? then s.sent + [BuildFrame(cs[0].piece.data, PONG, true)] else s.sent)
    ensures Gained(t, PongsOf(cs[1..]), AnswersOf(cs[1..]), rest) == Gained(s, PongsOf(cs), AnswersOf(cs), rest)
  {
    hide BuildFrame;
    var ms := if cs[0].Pong? then [Message(PONG, cs[0].piece.data)] else [];
    var answers := if cs[0].Ping? then [BuildFrame(cs[0].piece.data, PONG, true)] else [];
    assert PongsOf(cs) == ms + PongsOf(cs[1..]) && AnswersOf(cs) == answers + AnswersOf(cs[1..]);
    hide PongsOf, AnswersOf;
    assert t.pending == s.pending + ms && t.sent == s.sent + answers;
    AppendTwice(s.pending, ms, PongsOf(cs[1..]));
    AppendTwice(s.sent, answers, AnswersOf(cs[1..]));
  }

  lemma AppendTwice<T>(a: seq<T>, b: seq<T>, c: seq<T>)
    ensures a + b + c == a + (b + c)
  {
  }

  lemma {:induction false} ControlsReceived(s: Ws, cs: seq<Control>, rest: seq<Byte>)
    requires FitControls(cs) && |s.pending| + |PongsOf(cs)| < MAX_PENDING && s.read == ControlsWire(cs) + rest
    ensures Parse(s) == Parse(Gained(s, PongsOf(cs), AnswersOf(cs), rest))
    decreases |cs|
  {
    hide *;
    if cs == [] {
      NoControls(s, rest);
    } else {
      ControlsParts(s, cs, rest);
      var rest1 := ControlsWire(cs[1..]) + rest;
      ControlReceived(s, cs[0], rest1);
      ParseGoes(s);
      var t := ParseOne(s).next;
      ControlsReceived(t, cs[1..], rest);
      GainedByControl(s, t, cs, rest1, rest);
    }
  }

  function Assembled(s: Ws, ts: seq<Tail>, rest: seq<Byte>): Ws {
    Gained(s, TailPongs(ts) + [Message(s.fragOpcode, s.frag + TailsData(ts))], TailAnswers(ts), rest)
      .(frag := [], fragOpcode := 0)
  }

  /** One fragment of a message, and the control frames before it. */
  function Continued(s: Ws, t: Tail, last: bool, rest: seq<Byte>): Ws {
    var frag := s.frag + t.piece.data;
    if last then
      Gained(s, PongsOf(t.before) + [Message(s.fragOpcode, frag)], AnswersOf(t.before), rest)
        .(frag := [], fragOpcode := 0)
    else Gained(s, PongsOf(t.before), AnswersOf(t.before), rest).(frag := frag)
  }

  lemma TailReceived(s: Ws, t: Tail, last: bool, rest: seq<Byte>)
    requires FitControls(t.before) && Fits(t.piece) && s.fragOpcode != 0 && |s.frag| + |t.piece.data| <= MAX_MESSAGE
    requires |s.pending| + |PongsOf(t.before)| < MAX_PENDING
    requires s.read == ControlsWire(t.before) + Encode(last, CONTINUATION, t.piece) + rest
    ensures Parse(s) == Parse(Continued(s, t, last, rest))
  {
    hide Encode, ParseWire, ParseOne, BuildFrame, ControlsWire, PongsOf, AnswersOf;
    var rest1 := Encode(last, CONTINUATION, t.piece) + rest;
    assert s.read == ControlsWire(t.before) + rest1;
    ControlsReceived(s, t.before, rest1);
    var u := Gained(s, PongsOf(t.before), AnswersOf(t.before), rest1);
    FrameIsOneStep(u, last, CONTINUATION, t.piece, rest);
    assert s.pending + PongsOf(t.before) + [Message(s.fragOpcode, s.frag + t.piece.data)]
        == s.pending + (PongsOf(t.before) + [Message(s.fragOpcode, s.frag + t.piece.data)]);
    assert Deliver(u.(read := rest), last, CONTINUATION, t.piece.data) == Go(Continued(s, t, last, rest));
  }

  /** The fragments of a message, and what is between them. */
  lemma {:induction false} TailsReceived(s: Ws, ts: seq<Tail>, rest: seq<Byte>)
    requires ts != [] && FitTails(ts) && s.fragOpcode != 0 && |s.frag| + |TailsData(ts)| <= MAX_MESSAGE
    requires |s.pending| + |TailPongs(ts)| < MAX_PENDING && s.read == TailsWire(ts) + rest
    ensures Parse(s) == Parse(Assembled(s, ts, rest))
    decreases |ts|
  {
    hide Encode, Parse, BuildFrame, ControlsWire, PongsOf, AnswersOf;
    var rest1 := TailsWire(ts[1..]) + rest;
    assert s.read == ControlsWire(ts[0].before) + Encode(|ts| == 1, CONTINUATION, ts[0].piece) + rest1;
    TailReceived(s, ts[0], |ts| == 1, rest1);
    var u := Continued(s, ts[0], |ts| == 1, rest1);
    if |ts| == 1 {
      assert ts[1..] == [] && rest1 == rest;
      OneTail(ts);
      assert u == Assembled(s, ts, rest);
    } else {
      TailsReceived(u, ts[1..], rest);
      MoreTails(s, ts, rest, rest1);
    }
  }

  lemma OneTail(ts: seq<Tail>)
    requires |ts| == 1
    ensures TailsData(ts) == ts[0].piece.data && TailPongs(ts) == PongsOf(ts[0].before)
    ensures TailAnswers(ts) == AnswersOf(ts[0].before)
  {
    hide PongsOf, AnswersOf;
    assert ts[1..] == [];
  }

  lemma MoreTails(s: Ws, ts: seq<Tail>, rest: seq<Byte>, rest1: seq<Byte>)
    requires |ts| > 1
    ensures Assembled(Continued(s, ts[0], false, rest1), ts[1..], rest) == Assembled(s, ts, rest)
  {
    hide PongsOf, AnswersOf;
    assert s.frag + TailsData(ts) == s.frag + ts[0].piece.data + TailsData(ts[1..]);
    var m := [Message(s.fragOpcode, s.frag + TailsData(ts))];
    assert s.pending + PongsOf(ts[0].before) + (TailPongs(ts[1..]) + m) == s.pending + (TailPongs(ts) + m);
    assert s.sent + AnswersOf(ts[0].before) + TailAnswers(ts[1..]) == s.sent + TailAnswers(ts);
  }

  /** There is room for the messages of an item, when `n` are pending: a frame that
    arrives when the queue is full closes the connection, even a ping. */
  predicate Room(n: nat, i: Item) {
    n < MAX_PENDING && n + |ItemMessages(i)| <= MAX_PENDING
  }

  predicate RoomFor(n: nat, items: seq<Item>)
    decreases |items|
  {
    items == [] || (Room(n, items[0]) && RoomFor(n + |ItemMessages(items[0])|, items[1..]))
  }

  lemma ItemReceived(s: Ws, i: Item, rest: seq<Byte>)
    requires FitsItem(i) && Room(|s.pending|, i) && s.frag == [] && s.fragOpcode == 0 && s.read == ItemWire(i) + rest
    ensures Parse(s) == Parse(Gained(s, ItemMessages(i), ItemAnswers(i), rest))
  {
    hide Encode, ParseWire, ParseOne, BuildFrame, TailsWire, TailPongs, TailAnswers, TailsData;
    match i
    case Alone(c) =>
      FrameIsOneStep(s, true, if c.Ping? then PING else PONG, c.piece, rest);
      OneControl(c);
      assert ParseOne(s).next == Gained(s, PongsOf([c]), AnswersOf([c]), rest);
    case Whole(opcode, first, tails) =>
      assert s.read == Encode(tails == [], opcode, first) + (TailsWire(tails) + rest);
      FrameIsOneStep(s, tails == [], opcode, first, TailsWire(tails) + rest);
      var t := ParseOne(s).next;
      NoTails();
      if tails == [] {
        assert TailsWire(tails) + rest == rest && first.data + [] == first.data;
        assert t == Gained(s, ItemMessages(i), ItemAnswers(i), rest);
      } else {
        TailsReceived(t, tails, rest);
        assert Assembled(t, tails, rest) == Gained(s, ItemMessages(i), ItemAnswers(i), rest);
      }
  }

  lemma OneControl(c: Control)
    ensures PongsOf([c]) == if c.Pong? then [Message(PONG, c.piece.data)] else []
    ensures AnswersOf([c]) == if c.Ping? then [BuildFrame(c.piece.data, PONG, true)] else []
  {
    assert [c][1..] == [];
  }

  lemma NoTails()
    ensures TailsWire([]) == [] && TailPongs([]) == [] && TailAnswers([]) == [] && TailsData([]) == []
  {
  }

  /** However messages are fragmented, masked and measured, and whatever control frames
    come between: what is received is exactly the messages and the pongs, in order, and
    what is sent is one pong for each ping. */
  lemma {:induction false} ConversationReceived(s: Ws, items: seq<Item>)
    requires forall i :: 0 <= i < |items| ==> FitsItem(items[i])
    requires RoomFor(|s.pending|, items) && s.frag == [] && s.fragOpcode == 0 && s.read == []
    ensures Fed(s, WireOf(items)) == Gained(s, MessagesOf(items), AnswersTo(items), [])
  {
    hide ParseOne, ItemWire, ItemMessages, ItemAnswers;
    ItemsReceived(s.(read := WireOf(items)), items);
    assert s.read + WireOf(items) == WireOf(items);
  }

  lemma {:induction false} ItemsReceived(s: Ws, items: seq<Item>)
    requires forall i :: 0 <= i < |items| ==> FitsItem(items[i])
    requires RoomFor(|s.pending|, items) && s.frag == [] && s.fragOpcode == 0 && s.read == WireOf(items)
    ensures Parse(s) == Gained(s, MessagesOf(items), AnswersTo(items), [])
    decreases |items|
  {
    hide ItemWire, ItemMessages, ItemAnswers, ParseWire, FitsItem;
    if items == [] {
      NothingRead(s);
      assert Gained(s, [], [], []) == s;
    } else {
      var rest := WireOf(items[1..]);
      ItemReceived(s, items[0], rest);
      var t := Gained(s, ItemMessages(items[0]), ItemAnswers(items[0]), rest);
      ItemsReceived(t, items[1..]);
      assert Gained(t, MessagesOf(items[1..]), AnswersTo(items[1..]), [])
          == Gained(s, MessagesOf(items), AnswersTo(items), []);
    }
  }

  // ─── A full queue ──────────────────────────────────────────────────────────

  /** A frame that arrives when the queue is full closes the connection. */
  lemma FullCloses(s: Ws, fin: bool, opcode: nat, p: Piece, rest: seq<Byte>)
    requires Fits(p) && opcode < 16 && !Reserved(opcode) && (IsControl(opcode) ==> fin && |p.data| <= 125)
    requires |s.pending| >= MAX_PENDING && s.read == Encode(fin, opcode, p) + rest
    ensures Parse(s).closed
  {
    hide Encode, ParseWire, Deliver;
    EncodedIsParsed(fin, opcode, p, rest);
  }

  /** The queue is full when the control frames are through, and another frame follows. */
  lemma {:induction false} ControlsOverflow(s: Ws, cs: seq<Control>, fin: bool, opcode: nat, p: Piece, rest: seq<Byte>)
    requires FitControls(cs) && |s.pending| + |PongsOf(cs)| >= MAX_PENDING
    requires Fits(p) && opcode < 16 && !Reserved(opcode) && (IsControl(opcode) ==> fin && |p.data| <= 125)
    requires s.read == ControlsWire(cs) + (Encode(fin, opcode, p) + rest)
    ensures Parse(s).closed
    decreases |cs|
  {
    hide Encode, ParseWire, ParseOne, BuildFrame;
    var next := Encode(fin, opcode, p) + rest;
    if cs == [] {
      assert s.read == next;
      FullCloses(s, fin, opcode, p, rest);
    } else {
      var code := if cs[0].Ping? then PING else PONG;
      var rest1 := ControlsWire(cs[1..]) + next;
      assert s.read == Encode(true, code, cs[0].piece) + rest1;
      if |s.pending| >= MAX_PENDING {
        FullCloses(s, true, code, cs[0].piece, rest1);
      } else {
        FrameIsOneStep(s, true, code, cs[0].piece, rest1);
        ControlsOverflow(ParseOne(s).next, cs[1..], fin, opcode, p, rest);
      }
    }
  }

  lemma {:induction false} TailsOverflow(s: Ws, ts: seq<Tail>, rest: seq<Byte>)
    requires ts != [] && FitTails(ts) && s.fragOpcode != 0 && |s.frag| + |TailsData(ts)| <= MAX_MESSAGE
    requires |s.pending| + |TailPongs(ts)| >= MAX_PENDING && s.read == TailsWire(ts) + rest
    ensures Parse(s).closed
    decreases |ts|
  {
    hide Encode, Parse, BuildFrame, ControlsWire, PongsOf, AnswersOf;
    var rest1 := TailsWire(ts[1..]) + rest;
    var last := |ts| == 1;
    assert s.read == ControlsWire(ts[0].before) + Encode(last, CONTINUATION, ts[0].piece) + rest1;
    if |s.pending| + |PongsOf(ts[0].before)| >= MAX_PENDING {
      assert s.read == ControlsWire(ts[0].before) + (Encode(last, CONTINUATION, ts[0].piece) + rest1);
      ControlsOverflow(s, ts[0].before, last, CONTINUATION, ts[0].piece, rest1);
    } else {
      TailReceived(s, ts[0], last, rest1);
      if |ts| == 1 {
        OneTail(ts);
        assert false;
      } else {
        TailsOverflow(Continued(s, ts[0], false, rest1), ts[1..], rest);
      }
    }
  }

  lemma ItemOverflow(s: Ws, i: Item, rest: seq<Byte>)
    requires FitsItem(i) && !Room(|s.pending|, i) && s.frag == [] && s.fragOpcode == 0 && s.read == ItemWire(i) + rest
    ensures Parse(s).closed
  {
    hide Encode, ParseWire, ParseOne, BuildFrame, TailsWire, TailPongs, TailAnswers, TailsData, Parse;
    match i
    case Alone(c) =>
      OneControl(c);
      FullCloses(s, true, if c.Ping? then PING else PONG, c.piece, rest);
    case Whole(opcode, first, tails) =>
      var rest1 := TailsWire(tails) + rest;
      assert s.read == Encode(tails == [], opcode, first) + rest1;
      NoTails();
      if |s.pending| >= MAX_PENDING {
        FullCloses(s, tails == [], opcode, first, rest1);
      } else {
        FrameIsOneStep(s, tails == [], opcode, first, rest1);
        ParseGoes(s);
        TailsOverflow(ParseOne(s).next, tails, rest);
      }
  }

  lemma ParseGoes(s: Ws)
    ensures ParseOne(s).Go? ==> Parse(s) == Parse(ParseOne(s).next)
  {
    hide ParseOne;
    GoConsumes(s);
  }

  /** Without room the connection is closed before the conversation is over. */
  lemma {:induction false} ItemsOverflow(s: Ws, items: seq<Item>)
    requires forall i :: 0 <= i < |items| ==> FitsItem(items[i])
    requires !RoomFor(|s.pending|, items) && s.frag == [] && s.fragOpcode == 0 && s.read == WireOf(items)
    ensures Parse(s).closed
    decreases |items|
  {
    hide ItemWire, ItemMessages, ItemAnswers, ParseWire, FitsItem, Parse, Room;
    var rest := WireOf(items[1..]);
    if !Room(|s.pending|, items[0]) {
      ItemOverflow(s, items[0], rest);
    } else {
      ItemReceived(s, items[0], rest);
      ItemsOverflow(Gained(s, ItemMessages(items[0]), ItemAnswers(items[0]), rest), items[1..]);
    }
  }

  /** A conversation with an open connection is received exactly if and only if there is
    room for it: no frame of it finds the queue full. Otherwise the connection is closed. */
  lemma ConversationReceivedIff(s: Ws, items: seq<Item>)
    requires forall i :: 0 <= i < |items| ==> FitsItem(items[i])
    requires !s.closed && s.frag == [] && s.fragOpcode == 0 && s.read == []
    ensures Fed(s, WireOf(items)) == Gained(s, MessagesOf(items), AnswersTo(items), []) <==> RoomFor(|s.pending|, items)
    ensures Fed(s, WireOf(items)).closed <==> !RoomFor(|s.pending|, items)
  {
    hide ParseOne, ItemWire, ItemMessages, ItemAnswers, Parse, RoomFor, WireOf, MessagesOf, AnswersTo, FitsItem;
    if RoomFor(|s.pending|, items) {
      ConversationReceived(s, items);
    } else {
      assert s.read + WireOf(items) == WireOf(items);
      ItemsOverflow(s.(read := WireOf(items)), items);
    }
  }

  const NOTHING: Piece := Piece([], [], Short)

  /** `n` pongs, and a ping. */
  function PongsAndPing(n: nat): (items: seq<Item>)
    ensures |items| == n + 1 && forall i :: 0 <= i < |items| ==> FitsItem(items[i])
  {
    if n == 0 then [Alone(Ping(NOTHING))] else [Alone(Pong(NOTHING))] + PongsAndPing(n - 1)
  }

  lemma {:induction false} NoRoomForPing(n: nat)
    requires n <= MAX_PENDING
    ensures !RoomFor(MAX_PENDING - n, PongsAndPing(n))
  {
    if n > 0 {
      OneControl(Pong(NOTHING));
      assert PongsAndPing(n)[1..] == PongsAndPing(n - 1);
      NoRoomForPing(n - 1);
    }
  }

  /** A ping behind 256 pongs that nobody has taken closes the connection. */
  lemma PingFindsFullQueue()
    ensures Fed(Ws([], [], [], 0, false, []), WireOf(PongsAndPing(MAX_PENDING))).closed
  {
    hide Fed, WireOf, RoomFor, PongsAndPing;
    NoRoomForPing(MAX_PENDING);
    ConversationReceivedIff(Ws([], [], [], 0, false, []), PongsAndPing(MAX_PENDING));
  }

  lemma NothingRead(s: Ws)
    requires s.read == []
    ensures Parse(s) == s
  {
  }

  // ─── The connection as it runs ─────────────────────────────────────────────

  class Connection {
    var readBuf: seq<Byte>
    var pending: seq<Message>
    var fragBuf: seq<Byte>
    var fragOpcode: nat
    var closed: bool
    var sent: seq<seq<Byte>>

    ghost function Now(): Ws
      reads this
    {
      Ws(readBuf, pending, fragBuf, fragOpcode, closed, sent)
    }

    constructor ()
      ensures Now() == Ws([], [], [], 0, false, []) && Limited(Now())
    {
      readBuf, pending, fragBuf, fragOpcode, closed, sent := [], [], [], 0, false, [];
    }

    method Send(frame: seq<Byte>)
      modifies `sent
      ensures sent == old(sent) + [frame]
    {
      sent := sent + [frame];
    }

    method CloseWith(code: nat)
      requires code < 65536
      modifies `sent, `closed
      ensures Now() == FailClose(old(Now()), code)
    {
      Send(CloseFrame(code));
      closed := true;
    }

    /** Takes the mask off, byte by byte. */
    method Unmask(data: seq<Byte>, key: seq<Byte>) returns (payload: seq<Byte>)
      requires |key| == 4
      ensures payload == Masked(data, key)
    {
      payload := data;
      var i := 0;
      while i < |payload|
        invariant 0 <= i <= |payload| == |data|
        invariant forall j :: 0 <= j < i ==> payload[j] == Xor(data[j], key[j % 4])
        invariant forall j :: i <= j < |payload| ==> payload[j] == data[j]
      {
        payload := payload[i := Xor(payload[i], key[i % 4])];
        i := i + 1;
      }
    }

    /** Handles as many whole frames as there are. */
    method TryParse()
      modifies this
      ensures Now() == Parse(old(Now()))
    {
      hide ParseOne;
      ghost var first := Now();
      var going := true;
      while going
        invariant going ==> Parse(Now()) == Parse(first)
        invariant !going ==> Now() == Parse(first)
        decreases |readBuf|, going
      {
        GoConsumes(Now());
        going := ParseFrame();
      }
    }

    /** One turn of the loop: does the parser go on? */
    method ParseFrame() returns (going: bool)
      modifies this
      ensures match ParseOne(old(Now()))
              case Wait => !going && Now() == old(Now())
              case Stop(t) => !going && Now() == t
              case Go(t) => going && Now() == t
    {
      hide FromBigEndian, ParseBody, Deliver;
      going := false;
      if |readBuf| < 2 {
        return;
      }
      var fin, rsv, opcode := readBuf[0] >= 128, readBuf[0] % 128 / 16, readBuf[0] % 16;
      var masked, len7 := readBuf[1] >= 128, readBuf[1] % 128;
      if rsv != 0 || Reserved(opcode) {
        CloseWith(PROTOCOL_ERROR);
        return;
      }
      var hdr, len := 2, len7 as nat;
      if len7 == 126 {
        if |readBuf| < 4 {
          return;
        }
        hdr, len := 4, (readBuf[2] as nat) * 256 + readBuf[3] as nat;
      } else if len7 == 127 {
        if |readBuf| < 10 {
          return;
        }
        if readBuf[2] >= 128 {
          CloseWith(PROTOCOL_ERROR);
          return;
        }
        hdr, len := 10, FromBigEndian(readBuf[2..10]);
      }
      going := ParsePayload(fin, opcode, masked, hdr, len);
    }

    /** The rest of a frame, from the length on. */
    method ParsePayload(fin: bool, opcode: nat, masked: bool, hdr: nat, len: nat) returns (going: bool)
      requires hdr <= |readBuf|
      modifies this
      ensures var w := ParseBody(old(readBuf), fin, opcode, masked, hdr, len);
              && (w.Frame? ==> w.size <= |old(readBuf)|)
              && match Act(old(Now()), w)
                 case Wait => !going && Now() == old(Now())
                 case Stop(t) => !going && Now() == t
                 case Go(t) => going && Now() == t
    {
      hide Masked, Deliver;
      going := false;
      if IsControl(opcode) && (!fin || len > 125) {
        CloseWith(PROTOCOL_ERROR);
        return;
      }
      if len > MAX_FRAME {
        closed := true;
        return;
      }
      var start := if masked then hdr + 4 else hdr;
      if |readBuf| < start + len {
        return;
      }
      if |pending| >= MAX_PENDING {
        closed := true;
        return;
      }
      var payload := readBuf[start..start + len];
      if masked {
        payload := Unmask(payload, readBuf[hdr..hdr + 4]);
      }
      readBuf := readBuf[start + len..];
      going := DeliverFrame(fin, opcode, payload);
    }

    method DeliverFrame(fin: bool, opcode: nat, payload: seq<Byte>) returns (going: bool)
      modifies this
      ensures match Deliver(old(Now()), fin, opcode, payload)
              case Wait => false
              case Stop(t) => !going && Now() == t
              case Go(t) => going && Now() == t
    {
      hide BuildFrame;
      going := true;
      if opcode == CLOSE {
        closed := true;
        Send(if |payload| >= 2 then [0x88, 2, payload[0], payload[1]] else [0x88, 0]);
        pending := pending + [Message(CLOSE, payload)];
        return false;
      }
      if opcode == PING {
        Send(BuildFrame(payload, PONG, true));
        return;
      }
      if opcode == PONG {
        pending := pending + [Message(PONG, payload)];
        return;
      }
      var fragmenting := fragBuf != [] || fragOpcode != 0;
      if opcode == CONTINUATION {
        if !fragmenting {
          CloseWith(PROTOCOL_ERROR);
          return false;
        }
        if |fragBuf| + |payload| > MAX_MESSAGE {
          CloseWith(TOO_BIG);
          return false;
        }
        fragBuf := fragBuf + payload;
        if fin {
          pending := pending + [Message(fragOpcode, fragBuf)];
          fragBuf, fragOpcode := [], 0;
        }
      } else {
        if fragmenting {
          CloseWith(PROTOCOL_ERROR);
          return false;
        }
        if !fin {
          fragOpcode, fragBuf := opcode, payload;
        } else {
          pending := pending + [Message(opcode, payload)];
        }
      }
    }

    /** Bytes from the network, cut anywhere. */
    method Feed(data: seq<Byte>)
      modifies this
      ensures Now() == Fed(old(Now()), data)
      ensures old(Limited(Now()) && !closed) ==> Limited(Now()) && (!closed ==> |readBuf| < MAX_FRAME + 14)
    {
      hide Parse, Limited;
      ghost var before := Now();
      readBuf := readBuf + data;
      ghost var more := Now();
      MoreIsLimited(before, data);
      if Limited(more) && !more.closed {
        ParseKeepsLimits(more);
      }
      TryParse();
    }
  }

  lemma MoreIsLimited(s: Ws, b: seq<Byte>)
    ensures Limited(s) ==> Limited(MoreRead(s, b))
  {
  }
}

/** What a WebSocket client sees, in the numbers of RFC 6455: the mask bit by bit, the answers to
  Close and Ping frames read back from the wire, and the status codes of refusals. */
module WebsocketMeaning {
  import opened Websocket

  // ─── The mask ──────────────────────────────────────────────────────────────

  /** Bit `k` of a number. */
  function Bit(a: nat, k: nat): nat { if k == 0 then a % 2 else Bit(a / 2, k - 1) }

  lemma {:induction false} XorBitsMean(a: nat, b: nat, n: nat, k: nat)
    requires k < n
    ensures Bit(XorBits(a, b, n), k) == if Bit(a, k) == Bit(b, k) then 0 else 1
  {
    var x := XorBits(a / 2, b / 2, n - 1);
    assert XorBits(a, b, n) / 2 == x && XorBits(a, b, n) % 2 == if a % 2 == b % 2 then 0 else 1;
    if k > 0 {
      XorBitsMean(a / 2, b / 2, n - 1, k - 1);
    }
  }

  /** Octet `i` is combined with octet `i` modulo 4 of the key: a bit is turned over exactly where
    the key has a one (section 5.3). */
  lemma MaskMeans(data: seq<Byte>, key: seq<Byte>, i: nat, k: nat)
    requires |key| == 4 && i < |data| && k < 8
    ensures |Masked(data, key)| == |data|
    ensures Bit(Masked(data, key)[i], k) == if Bit(data[i], k) == Bit(key[i % 4], k) then 0 else 1
  {
    hide XorBits, Bit;
    XorBitsMean(data[i], key[i % 4], 8, k);
  }

  // ─── The header ────────────────────────────────────────────────────────────

  /** One byte more. */
  lemma OneMoreByte(n: nat, size: nat, i: nat)
    requires i < size
    ensures BigEndian(n, size)[i] == if i == size - 1 then n % 256 else BigEndian(n / 256, size - 1)[i]
  {
  }

  function Quad(a: nat, b: nat, c: nat, d: nat): nat { a * 0x100_0000 + b * 0x1_0000 + c * 0x100 + d }

  lemma FourBytes(n: nat)
    requires n < 0x1_0000_0000
    ensures var b := BigEndian(n, 4);
            Quad(b[0], b[1], b[2], b[3]) == n
  {
    var n1 := n / 0x100;
    var n2 := n1 / 0x100;
    var n3 := n2 / 0x100;
    forall i | 0 <= i < 4
      ensures BigEndian(n, 4)[i] == if i == 3 then n % 256 else BigEndian(n1, 3)[i]
      ensures i < 3 ==> BigEndian(n1, 3)[i] == if i == 2 then n1 % 256 else BigEndian(n2, 2)[i]
      ensures i < 2 ==> BigEndian(n2, 2)[i] == if i == 1 then n2 % 256 else BigEndian(n3, 1)[i]
      ensures i < 1 ==> BigEndian(n3, 1)[i] == n3 % 256
    {
      hide BigEndian;
      OneMoreByte(n, 4, i);
      if i < 3 { OneMoreByte(n1, 3, i); }
      if i < 2 { OneMoreByte(n2, 2, i); }
      if i < 1 { OneMoreByte(n3, 1, i); }
    }
  }

  /** A length of eight bytes, the most significant first (section 5.2). */
  lemma EightBytes(n: nat)
    requires n < 0x1_0000_0000
    ensures var b := BigEndian(n, 8);
            && (forall i :: 0 <= i < 4 ==> b[i] == 0)
            && Quad(b[4], b[5], b[6], b[7]) == n
  {
    var n1 := n / 0x100;
    var n2 := n1 / 0x100;
    var n3 := n2 / 0x100;
    FourBytes(n);
    forall i | 0 <= i < 8
      ensures BigEndian(n, 8)[i] == if i < 4 then 0 else BigEndian(n, 4)[i - 4]
    {
      hide BigEndian;
      OneMoreByte(n, 8, i);
      if i < 7 { OneMoreByte(n1, 7, i); }
      if i < 6 { OneMoreByte(n2, 6, i); }
      if i < 5 { OneMoreByte(n3, 5, i); }
      if i < 4 { ZeroBytes(4, i); } else { OneMoreByte(n, 4, i - 4); }
      if 4 <= i < 7 { OneMoreByte(n1, 3, i - 4); }
      if 4 <= i < 6 { OneMoreByte(n2, 2, i - 4); }
      if 4 <= i < 5 { OneMoreByte(n3, 1, i - 4); }
    }
  }

  lemma {:induction false} ZeroBytes(size: nat, i: nat)
    requires i < size
    ensures BigEndian(0, size)[i] == 0
  {
    OneMoreByte(0, size, i);
    if i < size - 1 {
      ZeroBytes(size - 1, i);
    }
  }

  /** The first byte has the end mark and the opcode, the second the mark of a mask and the length, or 126
    or 127 when the length is in the next two or eight bytes. */
  lemma HeaderMeans(fin: bool, opcode: nat, p: Piece)
    requires Fits(p) && opcode < 16
    ensures var b, m, n := Encode(fin, opcode, p), if p.key == [] then 0 else 128, |p.data|;
            && |b| >= 2 && b[0] == (if fin then 128 else 0) + opcode
            && match p.form
               case Short => b[1] == m + n
               case Medium => |b| >= 4 && b[1] == m + 126 && b[2] == n / 256 && b[3] == n % 256
               case Long =>
                 && |b| >= 10 && b[1] == m + 127 && b[2..6] == [0, 0, 0, 0]
                 && Quad(b[6], b[7], b[8], b[9]) == n
  {
    hide Masked, BigEndian;
    var b, l := Encode(fin, opcode, p), LengthBytes(p);
    assert forall i :: 0 <= i < |l| ==> b[1 + i] == l[i];
    match p.form
    case Short =>
    case Medium =>
      var n := BigEndian(|p.data|, 2);
      LastTwo(|p.data|);
      assert l[1] == n[0] && l[2] == n[1] && b[1 + 1] == l[1] && b[1 + 2] == l[2];
    case Long =>
      var n := BigEndian(|p.data|, 8);
      EightBytes(|p.data|);
      assert l[1..] == n && b[2..10] == l[1..9];
      assert forall i :: 0 <= i < 8 ==> b[2..10][i] == n[i];
  }

  lemma LastTwo(n: nat)
    requires n < 65536
    ensures BigEndian(n, 2) == [n / 256, n % 256]
  {
    assert BigEndian(n / 256, 1) == BigEndian(n / 256 / 256, 0) + [n / 256 % 256];
  }

  // ─── Control frames ────────────────────────────────────────────────────────

  /** An open connection with nothing left over and room in its queue. */
  predicate Ready(s: Ws) { !s.closed && s.read == [] && |s.pending| < 256 }

  lemma FedOne(s: Ws, fin: bool, opcode: nat, p: Piece)
    requires Ready(s) && Fits(p) && opcode < 16 && !Reserved(opcode) && (IsControl(opcode) ==> fin && |p.data| <= 125)
    ensures var d := Deliver(s, fin, opcode, p.data);
            Fed(s, Encode(fin, opcode, p)) == match d case Wait => s case Stop(t) => t case Go(t) => Parse(t)
  {
    hide Encode, Deliver, ParseWire, ParseOne;
    var data := Encode(fin, opcode, p);
    var t := s.(read := s.read + data);
    assert data + [] == data && s.read + data == data && t.(read := []) == s;
    FrameIsOneStep(t, fin, opcode, p, []);
    NeverWaits(s, fin, opcode, p.data);
    assert t.read == data;
    if ParseOne(t).Go? {
      ParseGoes(t);
    } else {
      assert Parse(t) == match ParseOne(t) case Wait => t case Stop(u) => u case Go(u) => u;
    }
  }

  lemma NeverWaits(s: Ws, fin: bool, opcode: nat, payload: seq<Byte>)
    ensures !Deliver(s, fin, opcode, payload).Wait?
  {
    hide BuildFrame;
  }

  lemma BuiltIsRead(payload: seq<Byte>, opcode: nat)
    requires opcode < 16 && !Reserved(opcode) && |payload| <= 125
    ensures ParseWire(BuildFrame(payload, opcode, true))
            == Frame(true, opcode, payload, |BuildFrame(payload, opcode, true)|)
  {
    hide Encode, ParseWire, BuildFrame;
    BuiltFrameIsEncoded(payload, opcode, true);
    var form :| Fits(Piece(payload, [], form))
             && BuildFrame(payload, opcode, true) == Encode(true, opcode, Piece(payload, [], form));
    EncodedIsParsed(true, opcode, Piece(payload, [], form), []);
    assert BuildFrame(payload, opcode, true) + [] == BuildFrame(payload, opcode, true);
  }

  /** A ping, opcode 9, is answered with a pong, opcode 10, that has the same payload. */
  lemma PingMeans(s: Ws, p: Piece)
    requires Ready(s) && Fits(p) && |p.data| <= 125
    ensures var t := Fed(s, Encode(true, 9, p));
            && |t.sent| == |s.sent| + 1 && t == s.(sent := s.sent + [t.sent[|s.sent|]])
            && ParseWire(t.sent[|s.sent|]) == Frame(true, 10, p.data, |t.sent[|s.sent|]|)
  {
    hide Encode, ParseWire, BuildFrame;
    FedOne(s, true, 9, p);
    BuiltIsRead(p.data, 10);
    NothingRead(s.(sent := s.sent + [BuildFrame(p.data, 10, true)]));
  }

  /** A pong, opcode 10, is handed over. */
  lemma PongMeans(s: Ws, p: Piece)
    requires Ready(s) && Fits(p) && |p.data| <= 125
    ensures Fed(s, Encode(true, 10, p)) == s.(pending := s.pending + [Message(10, p.data)])
  {
    hide Encode, ParseWire, BuildFrame;
    FedOne(s, true, 10, p);
    NothingRead(s.(pending := s.pending + [Message(10, p.data)]));
  }

  /** A Close frame, opcode 8, closes the connection and is handed over, and the answer is a Close
    frame with the same status code, or with none when there was none (section 5.5.1). */
  lemma CloseMeans(s: Ws, p: Piece)
    requires Ready(s) && Fits(p) && |p.data| <= 125
    ensures var t := Fed(s, Encode(true, 8, p));
            && |t.sent| == |s.sent| + 1
            && t == s.(closed := true, pending := s.pending + [Message(8, p.data)],
                       sent := s.sent + [t.sent[|s.sent|]])
            && ParseWire(t.sent[|s.sent|])
               == Frame(true, 8, if |p.data| >= 2 then p.data[..2] else [], |t.sent[|s.sent|]|)
  {
    hide Encode, BuildFrame;
    FedOne(s, true, 8, p);
    if |p.data| >= 2 {
      ShortClose(p.data[0], p.data[1]);
      assert p.data[..2] == [p.data[0], p.data[1]];
    } else {
      ShortFrame([0x88, 0], []);
      assert [0x88, 0] + [] == [0x88, 0];
    }
  }

  lemma ShortClose(a: Byte, b: Byte)
    ensures ParseWire([0x88, 2, a, b]) == Frame(true, 8, [a, b], 4)
  {
    assert [0x88, 2, a, b][2..4] == [a, b];
  }

  // ─── Refusals ──────────────────────────────────────────────────────────────

  /** The connection is closed, nothing is handed over, and one Close frame says why. */
  predicate Refused(s: Ws, t: Ws, code: nat) {
    && t.closed && t.pending == s.pending && |t.sent| == |s.sent| + 1 && s.sent <= t.sent
    && ParseWire(t.sent[|s.sent|]).Frame?
    && ParseWire(t.sent[|s.sent|]).fin && ParseWire(t.sent[|s.sent|]).opcode == 8
    && ParseWire(t.sent[|s.sent|]).size == |t.sent[|s.sent|]|
    && |ParseWire(t.sent[|s.sent|]).payload| == 2 && FromBigEndian(ParseWire(t.sent[|s.sent|]).payload) == code
  }

  lemma FailedIsRefused(s: Ws, u: Ws, code: nat)
    requires code < 65536 && u.sent == s.sent && u.pending == s.pending
    ensures Refused(s, FailClose(u, code), code)
  {
    ShortClose(code / 256, code % 256);
    var w: seq<Byte> := [code / 256, code % 256];
    assert w == BigEndian(code, 2) by {
      assert BigEndian(code, 2) == BigEndian(code / 256, 1) + [code % 256];
      assert BigEndian(code / 256, 1) == [code / 256 % 256];
    }
    Powers();
    BigEndianRoundTrip(code, 2);
  }

  lemma ViolationIsRefused(s: Ws, b: seq<Byte>)
    requires Ready(s) && ParseWire(b).Violation?
    ensures Refused(s, Fed(s, b), 1002)
  {
    hide ParseWire, FailClose, Refused;
    var t := s.(read := s.read + b);
    assert t.read == b;
    FrameSize(b);
    assert ParseOne(t) == Stop(FailClose(t, 1002));
    assert Parse(t) == FailClose(t, 1002);
    FailedIsRefused(s, t, 1002);
  }

  /** Whatever comes behind a first byte with a reserved bit, or with an opcode that means nothing
    (3 to 7 and 11 to 15), the connection fails with 1002, protocol error. */
  lemma HeaderRefused(s: Ws, b: seq<Byte>)
    requires Ready(s) && |b| >= 2
    requires b[0] % 128 / 16 != 0 || 3 <= b[0] % 16 <= 7 || 11 <= b[0] % 16
    ensures Refused(s, Fed(s, b), 1002)
  {
    hide Refused, ParseBody, FromBigEndian;
    ViolationIsRefused(s, b);
  }

  /** So it does when a length of eight bytes has its highest bit set. */
  lemma LengthRefused(s: Ws, b: seq<Byte>)
    requires Ready(s) && |b| >= 10 && b[1] % 128 == 127 && b[2] >= 128
    ensures Refused(s, Fed(s, b), 1002)
  {
    hide Refused, ParseBody, FromBigEndian;
    ViolationIsRefused(s, b);
  }

  lemma EncodedLength(fin: bool, opcode: nat, p: Piece)
    requires Fits(p) && opcode < 16 && !Reserved(opcode)
    ensures ParseWire(Encode(fin, opcode, p))
            == ParseBody(Encode(fin, opcode, p), fin, opcode, p.key != [], 1 + |LengthBytes(p)|, |p.data|)
  {
    hide LengthBytes, ParseBody, ParseWire, Masked, FromBigEndian;
    var first: Byte := (if fin then 128 else 0) + opcode;
    var rest := p.key + if p.key == [] then p.data else Masked(p.data, p.key);
    var r := Encode(fin, opcode, p);
    assert r == [first] + LengthBytes(p) + rest;
    LengthIsParsed(r, first, p, rest);
    HeaderIsParsed(r, fin, opcode, |p.data|, 1 + |LengthBytes(p)|);
  }

  /** A control frame that is a fragment, or longer than 125 bytes, is a protocol error too. */
  lemma ControlRefused(s: Ws, fin: bool, opcode: nat, p: Piece)
    requires Ready(s) && Fits(p) && 8 <= opcode <= 10 && (!fin || |p.data| > 125)
    ensures Refused(s, Fed(s, Encode(fin, opcode, p)), 1002)
  {
    hide Refused, Encode, ParseWire;
    EncodedLength(fin, opcode, p);
    ViolationIsRefused(s, Encode(fin, opcode, p));
  }

  /** Between messages there is nothing to continue, and within one no other can begin. */
  lemma OrderRefused(s: Ws, fin: bool, opcode: nat, p: Piece)
    requires Ready(s) && Fits(p)
    requires if s.frag != [] || s.fragOpcode != 0 then opcode == 1 || opcode == 2 else opcode == 0
    ensures Refused(s, Fed(s, Encode(fin, opcode, p)), 1002)
  {
    hide Refused, Encode, FailClose;
    FedOne(s, fin, opcode, p);
    FailedIsRefused(s, s, 1002);
  }

  /** A message that grows beyond 16 MiB fails the connection with 1009, message too big. */
  lemma GrowthRefused(s: Ws, fin: bool, p: Piece)
    requires Ready(s) && Fits(p) && (s.frag != [] || s.fragOpcode != 0) && |s.frag| + |p.data| > 16 * 1024 * 1024
    ensures Refused(s, Fed(s, Encode(fin, 0, p)), 1009)
  {
    hide Refused, Encode, FailClose;
    FedOne(s, fin, 0, p);
    FailedIsRefused(s, s, 1009);
  }

  /** A frame that announces more than 16 MiB closes the connection without a word. */
  lemma OversizedCloses(s: Ws, fin: bool, opcode: nat, n: nat, rest: seq<Byte>)
    requires Ready(s) && opcode <= 2 && 16 * 1024 * 1024 < n < 0x8000_0000_0000_0000
    ensures var b := [(if fin then 128 else 0) + opcode, 127] + BigEndian(n, 8) + rest;
            Fed(s, b) == s.(read := b, closed := true)
  {
    var b: seq<Byte> := [(if fin then 128 else 0) + opcode, 127] + BigEndian(n, 8) + rest;
    assert b[2..10] == BigEndian(n, 8) && b[2] == b[2..10][0];
    Powers();
    BigEndianRoundTrip(n, 8);
    FirstByte(BigEndian(n, 8));
    SevenBytes();
    hide BigEndian, FromBigEndian, Power256;
    assert b[2] < 128;
    var t := s.(read := s.read + b);
    assert t.read == b;
    HeaderIsParsed(b, fin, opcode, n, 10);
    assert ParseWire(b) == Oversized;
    assert ParseOne(t) == Stop(t.(closed := true));
  }

  lemma SevenBytes()
    ensures Power256(7) == 0x100_0000_0000_0000
  {
    assert Power256(3) == 0x100_0000;
    assert Power256(5) == 0x100_0000_0000;
  }

  // ─── Fragments ─────────────────────────────────────────────────────────────

  /** A payload of at most 16 MiB, with a form of length that has room for it. */
  predicate Sendable(p: Piece) {
    && (p.key == [] || |p.key| == 4)
    && |p.data| <= match p.form case Short => 125 case Medium => 65535 case Long => 16 * 1024 * 1024
  }

  lemma OneItem(item: Item)
    requires FitsItem(item)
    ensures MessagesOf([item]) == ItemMessages(item) && AnswersTo([item]) == ItemAnswers(item)
    ensures WireOf([item]) == ItemWire(item) && [item][1..] == []
  {
    hide ItemMessages, ItemAnswers, ItemWire, FitsItem;
    assert [item][1..] == [];
    assert MessagesOf([]) == [] && AnswersTo([]) == [] && WireOf([]) == [];
  }

  /** A message in two frames: the first has its opcode, the second opcode 0. */
  lemma FragmentsMean(s: Ws, opcode: nat, p: Piece, q: Piece)
    requires Ready(s) && s.frag == [] && s.fragOpcode == 0 && (opcode == 1 || opcode == 2)
    requires Sendable(p) && Sendable(q) && |p.data| + |q.data| <= 16 * 1024 * 1024
    ensures Fed(s, Encode(false, opcode, p) + Encode(true, 0, q))
            == s.(pending := s.pending + [Message(opcode, p.data + q.data)])
  {
    hide Encode, Parse;
    var tail := Tail([], q);
    var item := Whole(opcode, p, [tail]);
    assert TailsData([tail]) == q.data by { assert TailsData([]) == []; }
    assert TailsWire([tail]) == Encode(true, 0, q) by { assert TailsWire([]) == [] && ControlsWire([]) == []; }
    assert TailPongs([tail]) == [] && TailAnswers([tail]) == [] by { NoTails(); }
    OneItem(item);
    assert RoomFor(|s.pending|, [item]);
    ConversationReceived(s, [item]);
  }
}

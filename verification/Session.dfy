/** The session cookie: the dictionary as JSON in base64url, a dot, and the signature of
  what is before the dot. */
module Session {
  import opened Text
  import opened Json
  import Base64
  import JsonCode

  /** The key and the message of HMAC-SHA256; what it computes is not part of this model. */
  type Signer = (seq<Octet>, seq<Octet>) -> seq<Octet>

  const DOT: Octet := Base64.DOT

  datatype Loaded = Empty | Data(pairs: seq<JPair>)

  /** The text that comes before the dot. */
  function Payload(pairs: seq<JPair>, fl: Floats): seq<Octet> { Base64.Encoded(Written(JDict(pairs), fl)) }

  function Signature(payload: seq<Octet>, secret: seq<Octet>, hmac: Signer): seq<Octet> {
    Base64.Encoded(hmac(secret, payload))
  }

  function Signed(payload: seq<Octet>, secret: seq<Octet>, hmac: Signer): seq<Octet> {
    payload + [DOT] + Signature(payload, secret, hmac)
  }

  function Cookie(pairs: seq<JPair>, secret: seq<Octet>, hmac: Signer, fl: Floats): seq<Octet> {
    Signed(Payload(pairs, fl), secret, hmac)
  }

  /** What a payload says, once its signature is known to be right. */
  function Opened(payload: seq<Octet>, fl: Floats): Loaded {
    match Base64.DecodedText(payload)
    case Malformed => Empty
    case Bytes(text) =>
      match ParseDocument(text, fl)
      case Rejected => Empty
      case Accepted(v) => if v.JDict? then Data(v.pairs) else Empty
  }

  method SignSession(pairs: seq<JPair>, secret: seq<Octet>, hmac: Signer, fl: Floats) returns (cookie: seq<Octet>)
    ensures cookie == Cookie(pairs, secret, hmac, fl)
  {
    hide Written, Base64.Encoded;
    var text := JsonCode.Write(JDict(pairs), [], fl);
    assert [] + Written(JDict(pairs), fl) == Written(JDict(pairs), fl);
    var payload := Base64.Encode(text);
    var mac := Base64.Encode(hmac(secret, payload));
    cookie := payload + [DOT] + mac;
  }

  /** Every byte is looked at, whatever the bytes before it were. */
  method ConstantTimeEqual(a: seq<Octet>, b: seq<Octet>) returns (same: bool)
    ensures same <==> a == b
  {
    if |a| != |b| {
      return false;
    }
    var diff: Octet := 0;
    for i := 0 to |a|
      invariant diff == 0 <==> a[..i] == b[..i]
    {
      Differ(diff, a[i], b[i]);
      assert a[..i + 1] == a[..i] + [a[i]] && b[..i + 1] == b[..i] + [b[i]];
      diff := diff | (a[i] ^ b[i]);
    }
    assert a[..|a|] == a && b[..|b|] == b;
    return diff == 0;
  }

  lemma Differ(diff: Octet, x: Octet, y: Octet)
    ensures diff | (x ^ y) == 0 <==> diff == 0 && x == y
  {
  }

  /** Where the last dot is, or the length when there is none. */
  method LastDot(cookie: seq<Octet>) returns (dot: nat)
    ensures dot <= |cookie| && (dot == |cookie| <==> DOT !in cookie)
    ensures dot < |cookie| ==> (cookie[dot] == DOT && DOT !in cookie[dot + 1..])
  {
    var i := |cookie|;
    while i > 0
      invariant 0 <= i <= |cookie| && forall k :: i <= k < |cookie| ==> cookie[k] != DOT
    {
      i := i - 1;
      if cookie[i] == DOT {
        return i;
      }
    }
    return |cookie|;
  }

  /** A cookie is split at its last dot; the session is what the payload says if the
    signature is right, and empty otherwise. */
  function Session(cookie: seq<Octet>, secret: seq<Octet>, hmac: Signer, fl: Floats): Loaded {
    if DOT !in cookie then Empty
    else
      var dot := DotOf(cookie);
      if cookie[dot + 1..] != Signature(cookie[..dot], secret, hmac) then Empty else Opened(cookie[..dot], fl)
  }

  function DotOf(cookie: seq<Octet>): (dot: nat)
    requires DOT in cookie
    ensures dot < |cookie| && cookie[dot] == DOT && DOT !in cookie[dot + 1..]
  {
    var last := |cookie| - 1;
    if cookie[last] == DOT then last
    else
      assert cookie == cookie[..last] + [cookie[last]];
      var dot := DotOf(cookie[..last]);
      assert cookie[dot + 1..] == cookie[..last][dot + 1..] + [cookie[last]];
      dot
  }

  method LoadSession(cookie: seq<Octet>, secret: seq<Octet>, hmac: Signer, fl: Floats) returns (loaded: Loaded)
    ensures loaded == Session(cookie, secret, hmac, fl)
  {
    hide ParseDocument, Base64.DecodedText, Base64.Encoded;
    var dot := LastDot(cookie);
    if dot == |cookie| {
      return Empty;
    }
    OneLastDot(cookie, dot, DotOf(cookie));
    var payload, given := cookie[..dot], cookie[dot + 1..];
    var expected := Base64.Encode(hmac(secret, payload));
    var same := ConstantTimeEqual(given, expected);
    if !same {
      return Empty;
    }
    var decoded := Base64.Decode(payload);
    if decoded.Malformed? {
      return Empty;
    }
    var parser := new JsonCode.Parser(decoded.bytes, fl);
    var doc := parser.Document();
    if doc.Rejected? || !doc.value.JDict? {
      return Empty;
    }
    return Data(doc.value.pairs);
  }

  lemma OneLastDot(cookie: seq<Octet>, a: nat, b: nat)
    requires a < |cookie| && cookie[a] == DOT && DOT !in cookie[a + 1..]
    requires b < |cookie| && cookie[b] == DOT && DOT !in cookie[b + 1..]
    ensures a == b
  {
    NoneAfter(cookie, a + 1);
    NoneAfter(cookie, b + 1);
  }

  lemma NoneAfter(s: seq<Octet>, from: nat)
    requires from <= |s| && DOT !in s[from..]
    ensures forall k :: from <= k < |s| ==> s[k] != DOT
  {
    forall k | from <= k < |s|
      ensures s[k] != DOT
    {
      assert s[from..][k - from] == s[k];
    }
  }

  /** Whatever the payload, its own signature is found behind the last dot. */
  lemma SignedIsSplit(payload: seq<Octet>, secret: seq<Octet>, hmac: Signer, fl: Floats)
    ensures Session(Signed(payload, secret, hmac), secret, hmac, fl) == Opened(payload, fl)
  {
    hide Opened, Base64.Encoded;
    var cookie, mac := Signed(payload, secret, hmac), Signature(payload, secret, hmac);
    Base64.EncodedIsPlain(hmac(secret, payload));
    var dot := |payload|;
    assert cookie[dot] == DOT && cookie[dot + 1..] == mac && cookie[..dot] == payload;
    OneLastDot(cookie, dot, DotOf(cookie));
  }

  /** Signing and loading with the same secret gives the dictionary back. */
  lemma SessionRoundTrip(pairs: seq<JPair>, secret: seq<Octet>, hmac: Signer, fl: Floats)
    requires Good(JDict(pairs)) && Depth(JDict(pairs)) <= MAX_DEPTH
    ensures Session(Cookie(pairs, secret, hmac, fl), secret, hmac, fl) == Data(pairs)
  {
    hide Good, Depth, Written, ParseDocument, Base64.Encoded, Base64.DecodedText, Session;
    SignedIsSplit(Payload(pairs, fl), secret, hmac, fl);
    Base64.RoundTrip(Written(JDict(pairs), fl));
    RoundTrip(JDict(pairs), fl);
  }

  /** The only cookies that are loaded are the signed ones, and they say what was signed:
    nothing can be put into a session without its signature. */
  lemma OnlySignedIsLoaded(cookie: seq<Octet>, secret: seq<Octet>, hmac: Signer, fl: Floats, pairs: seq<JPair>)
    ensures Session(cookie, secret, hmac, fl) == Data(pairs)
            <==> exists payload :: cookie == Signed(payload, secret, hmac) && Opened(payload, fl) == Data(pairs)
  {
    hide Opened, Base64.Encoded;
    if Session(cookie, secret, hmac, fl) == Data(pairs) {
      var dot := DotOf(cookie);
      var payload := cookie[..dot];
      assert cookie == payload + [DOT] + cookie[dot + 1..];
      assert cookie == Signed(payload, secret, hmac);
    }
    if payload :| cookie == Signed(payload, secret, hmac) && Opened(payload, fl) == Data(pairs) {
      SignedIsSplit(payload, secret, hmac, fl);
    }
  }

  /** A loaded session is within the limits of the parser. */
  lemma LoadedIsTame(cookie: seq<Octet>, secret: seq<Octet>, hmac: Signer, fl: Floats)
    requires Session(cookie, secret, hmac, fl).Data?
    ensures var v := JDict(Session(cookie, secret, hmac, fl).pairs);
            JsonCode.Tame(v) && Depth(v) <= MAX_DEPTH
  {
    hide ParseDocument, Base64.DecodedText, Base64.Encoded, JsonCode.Tame, Depth;
    var payload := cookie[..DotOf(cookie)];
    JsonCode.AcceptedIsTame(Base64.DecodedText(payload).bytes, fl);
  }
}

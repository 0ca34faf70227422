/** Development session tokens: unpadded base64url and a keyed signature (helpdesktool/development_auth.py). */
module SessionToken {
  import opened Text

  newtype Byte = n: int | 0 <= n < 256

  type Sextet = n: int | 0 <= n < 64

  // ---- base64url (section 5 of RFC 4648)

  function CharOf(v: Sextet): char {
    if v < 26 then ('A' as int + v) as char
    else if v < 52 then ('a' as int + v - 26) as char
    else if v < 62 then ('0' as int + v - 52) as char
    else if v == 62 then '-' else '_'
  }

  /** The decoder maps '-' and '_' to '+' and '/' first, so it takes both alphabets. */
  function ValueOf(c: char): Option<Sextet> {
    if 'A' <= c <= 'Z' then Some(c as int - 'A' as int)
    else if 'a' <= c <= 'z' then Some(c as int - 'a' as int + 26)
    else if '0' <= c <= '9' then Some(c as int - '0' as int + 52)
    else if c == '-' || c == '+' then Some(62)
    else if c == '_' || c == '/' then Some(63)
    else None
  }

  lemma ValueInvertsChar(v: Sextet)
    ensures ValueOf(CharOf(v)) == Some(v)
    ensures CharOf(v) != '=' && CharOf(v) != '.' && CharOf(v) as int < 128
  {
  }

  function Group(a: Byte, b: Byte, c: Byte): (s: string)
    ensures |s| == 4
  {
    var x, y, z := a as int, b as int, c as int;
    [CharOf(x / 4), CharOf(x % 4 * 16 + y / 16), CharOf(y % 16 * 4 + z / 64), CharOf(z % 64)]
  }

  /** urlsafe_b64encode: three bytes to four characters, the last group padded with '='. */
  function Encode(bytes: seq<Byte>): string {
    if |bytes| == 0 then ""
    else if |bytes| == 1 then Group(bytes[0], 0, 0)[..2] + "=="
    else if |bytes| == 2 then Group(bytes[0], bytes[1], 0)[..3] + "="
    else Group(bytes[0], bytes[1], bytes[2]) + Encode(bytes[3..])
  }

  /** rstrip(b"=") */
  function Strip(s: string): string {
    if s != "" && s[|s| - 1] == '=' then Strip(s[..|s| - 1]) else s
  }

  datatype Decoded = Bytes(bytes: seq<Byte>) | Malformed

  function Before(b: int, d: Decoded): Decoded
    requires 0 <= b < 256
  {
    if d.Bytes? then Bytes([b as Byte] + d.bytes) else Malformed
  }

  /** binascii's non-strict decoder: a position in the quad, the bits left over, and the pads seen in a row.
      Characters outside the alphabet are skipped, and enough pads end the input. */
  function Scan(s: string, quad: nat, left: nat, pads: nat): Decoded
    requires quad <= 3 && left < (if quad == 1 then 64 else if quad == 2 then 16 else if quad == 3 then 4 else 1)
    decreases |s|
  {
    if s == "" then
      if quad == 0 then Bytes([]) else Malformed
    else if s[0] == '=' then
      if quad < 2 then Scan(s[1..], quad, left, pads)
      else if quad + pads + 1 >= 4 then Bytes([])
      else Scan(s[1..], quad, left, pads + 1)
    else
      match ValueOf(s[0])
      case None => Scan(s[1..], quad, left, pads)
      case Some(v) =>
        if quad == 0 then Scan(s[1..], 1, v, 0)
        else if quad == 1 then Before(left * 4 + v / 16, Scan(s[1..], 2, v % 16, 0))
        else if quad == 2 then Before(left * 16 + v / 4, Scan(s[1..], 3, v % 4, 0))
        else Before(left * 64 + v, Scan(s[1..], 0, 0, 0))
  }

  predicate Ascii(s: string) {
    forall c <- s :: c as int < 128
  }

  function Pads(n: nat): (s: string)
    ensures |s| == n && forall c <- s :: c == '='
  {
    if n == 0 then "" else Pads(n - 1) + "="
  }

  /** -n % 4, where Python's remainder is that of the divisor's sign. */
  function PadCount(n: int): nat {
    -n % 4
  }

  /** _decode: the text is padded to a multiple of four first; characters beyond ASCII raise ValueError. */
  function Decode(text: string): Decoded {
    if Ascii(text) then Scan(text + Pads(PadCount(|text|)), 0, 0, 0) else Malformed
  }

  // ---- Stripping and padding are inverse

  lemma {:induction false} StripPads(s: string, n: nat)
    requires s == "" || s[|s| - 1] != '='
    ensures Strip(s + Pads(n)) == s
  {
    if n > 0 {
      assert (s + Pads(n))[..|s| + n - 1] == s + Pads(n - 1);
      StripPads(s, n - 1);
    } else {
      assert s + Pads(0) == s;
    }
  }

  /** The encoding without its pads. */
  function Body(bytes: seq<Byte>): string {
    if |bytes| == 0 then ""
    else if |bytes| == 1 then Group(bytes[0], 0, 0)[..2]
    else if |bytes| == 2 then Group(bytes[0], bytes[1], 0)[..3]
    else Group(bytes[0], bytes[1], bytes[2]) + Body(bytes[3..])
  }

  lemma {:induction false} BodyAlphabet(bytes: seq<Byte>)
    ensures forall c <- Body(bytes) :: c != '=' && c != '.' && c as int < 128
  {
    forall v: Sextet {
      ValueInvertsChar(v);
    }
    if |bytes| >= 3 {
      BodyAlphabet(bytes[3..]);
    }
  }

  lemma {:induction false} EncodeIsBodyPadded(bytes: seq<Byte>)
    ensures Encode(bytes) == Body(bytes) + Pads(PadCount(|Body(bytes)|))
  {
    if |bytes| == 0 {
    } else if |bytes| == 1 {
      assert PadCount(|Body(bytes)|) == 2 && Pads(2) == "==";
    } else if |bytes| == 2 {
      assert PadCount(|Body(bytes)|) == 1 && Pads(1) == "=";
    } else {
      var g, rest := Group(bytes[0], bytes[1], bytes[2]), Body(bytes[3..]);
      EncodeIsBodyPadded(bytes[3..]);
      PadsOfGroup(g, rest);
    }
  }

  lemma PadsOfGroup(group: string, rest: string)
    requires |group| == 4
    ensures group + (rest + Pads(PadCount(|rest|))) == (group + rest) + Pads(PadCount(|group + rest|))
  {
    var k := PadCount(|rest|);
    assert PadCount(|group + rest|) == k;
    assert group + (rest + Pads(k)) == (group + rest) + Pads(k);
  }

  lemma StripsToBody(bytes: seq<Byte>)
    ensures Strip(Encode(bytes)) == Body(bytes)
  {
    EncodeIsBodyPadded(bytes);
    BodyAlphabet(bytes);
    assert Body(bytes) != "" ==> Body(bytes)[|Body(bytes)| - 1] in Body(bytes);
    StripPads(Body(bytes), PadCount(|Body(bytes)|));
  }

  /** Padding by -len % 4 restores exactly the '=' signs that were stripped, for every byte string. */
  lemma PaddingRestored(bytes: seq<Byte>)
    ensures
      var text := Strip(Encode(bytes));
      text + Pads(PadCount(|text|)) == Encode(bytes) && forall c <- text :: c != '=' && c != '.' && c as int < 128
  {
    StripsToBody(bytes);
    EncodeIsBodyPadded(bytes);
    BodyAlphabet(bytes);
  }

  // ---- Decoding inverts encoding

  lemma ScanStep(v: Sextet, rest: string, quad: nat, left: nat)
    requires quad <= 3 && left < (if quad == 1 then 64 else if quad == 2 then 16 else if quad == 3 then 4 else 1)
    ensures
      Scan([CharOf(v)] + rest, quad, left, 0)
      == if quad == 0 then Scan(rest, 1, v, 0)
         else if quad == 1 then Before(left * 4 + v / 16, Scan(rest, 2, v % 16, 0))
         else if quad == 2 then Before(left * 16 + v / 4, Scan(rest, 3, v % 4, 0))
         else Before(left * 64 + v, Scan(rest, 0, 0, 0))
  {
    ValueInvertsChar(v);
    assert ([CharOf(v)] + rest)[1..] == rest;
  }

  /** The first two characters of a group give its first byte. */
  lemma ScanTwo(a: Byte, b: Byte, rest: string)
    ensures
      var g := Group(a, b, 0);
      Scan(g[..2] + rest, 0, 0, 0) == Before(a as int, Scan(rest, 2, b as int / 16, 0))
  {
    var g := Group(a, b, 0);
    ScanStep(a as int / 4, [g[1]] + rest, 0, 0);
    ScanStep(a as int % 4 * 16 + b as int / 16, rest, 1, a as int / 4);
    assert g[..2] + rest == [g[0]] + ([g[1]] + rest);
  }

  lemma MiddleBits(y: int, z: int)
    requires 0 <= y < 256 && 0 <= z < 256
    ensures
      var v := y % 16 * 4 + z / 64;
      0 <= v < 64 && y / 16 * 16 + v / 4 == y && v % 4 == z / 64
  {
  }

  lemma ScanThree(a: Byte, b: Byte, c: Byte, rest: string)
    ensures
      var g := Group(a, b, c);
      Scan(g[..3] + rest, 0, 0, 0) == Before(a as int, Before(b as int, Scan(rest, 3, c as int / 64, 0)))
  {
    var g := Group(a, b, c);
    ScanTwo(a, b, [g[2]] + rest);
    MiddleBits(b as int, c as int);
    ScanStep(b as int % 16 * 4 + c as int / 64, rest, 2, b as int / 16);
    assert g[..2] == Group(a, b, 0)[..2];
    assert g[..3] + rest == g[..2] + ([g[2]] + rest);
  }

  lemma ScanGroup(a: Byte, b: Byte, c: Byte, rest: string)
    ensures Scan(Group(a, b, c) + rest, 0, 0, 0)
        == Before(a as int, Before(b as int, Before(c as int, Scan(rest, 0, 0, 0))))
  {
    var g := Group(a, b, c);
    ScanThree(a, b, c, [g[3]] + rest);
    ScanStep(c as int % 64, rest, 3, c as int / 64);
    assert g + rest == g[..3] + ([g[3]] + rest);
  }

  lemma {:induction false} ScanInvertsEncode(bytes: seq<Byte>)
    ensures Scan(Encode(bytes), 0, 0, 0) == Bytes(bytes)
  {
    if |bytes| == 0 {
    } else if |bytes| == 1 {
      ScanTwo(bytes[0], 0, "==");
      assert Scan("=", 2, 0, 1) == Bytes([]);
      assert "=="[1..] == "=";
      assert bytes == [bytes[0]];
    } else if |bytes| == 2 {
      ScanThree(bytes[0], bytes[1], 0, "=");
      assert bytes == [bytes[0], bytes[1]];
    } else {
      ScanGroup(bytes[0], bytes[1], bytes[2], Encode(bytes[3..]));
      ScanInvertsEncode(bytes[3..]);
      assert bytes == [bytes[0]] + ([bytes[1]] + ([bytes[2]] + bytes[3..]));
    }
  }

  /** Decoding inverts stripped encoding on every byte string. */
  lemma DecodeInvertsEncode(bytes: seq<Byte>)
    ensures Decode(Strip(Encode(bytes))) == Bytes(bytes)
  {
    PaddingRestored(bytes);
    ScanInvertsEncode(bytes);
  }

  // ---- Sessions

  /** token.split(".", 1): both halves around the first dot, if there is one. */
  function Split(token: string): Option<(string, string)> {
    if token == "" then None
    else if token[0] == '.' then Some(("", token[1..]))
    else
      match Split(token[1..])
      case None => None
      case Some(halves) => Some(([token[0]] + halves.0, halves.1))
  }

  lemma {:induction false} SplitRecovers(head: string, tail: string)
    requires forall c <- head :: c != '.'
    ensures Split(head + "." + tail) == Some((head, tail))
  {
    var token := head + "." + tail;
    if head == "" {
      assert token[1..] == tail;
    } else {
      assert token[1..] == head[1..] + "." + tail;
      assert head[0] in head && forall c <- head[1..] :: c in head;
      SplitRecovers(head[1..], tail);
      assert [head[0]] + head[1..] == head;
    }
  }

  datatype Claims = Claims(exp: int, sub: string, tenant: string)

  /** What json.loads gives: an error, a non-object, or an object with the fields of the expected types. */
  datatype Parsed = NotJson | NotObject | Object(exp: Option<int>, sub: Option<string>, tenant: Option<string>)

  /** The libraries used: HMAC-SHA256 of a text under a secret, json.dumps and json.loads. */
  datatype Library = Library(
    mac: (string, string) -> seq<Byte>, dumps: Claims -> seq<Byte>, loads: seq<Byte> -> Parsed)
  {
    ghost predicate Lawful() {
      forall c: Claims :: loads(dumps(c)) == Object(Some(c.exp), Some(c.sub), Some(c.tenant))
    }

    ghost predicate Injective() {
      forall s, t, u, v :: mac(s, t) == mac(u, v) ==> s == u && t == v
    }
  }

  function Issue(l: Library, user: string, tenant: string, secret: string, minutes: int, now: int): string {
    var claims := Claims(now + minutes * 60, user, tenant);
    var payload := Strip(Encode(l.dumps(claims)));
    payload + "." + Strip(Encode(l.mac(secret, payload)))
  }

  datatype Verdict = Accepted(claims: Claims) | Invalid | Expired

  function Verify(l: Library, token: string, secret: string, now: int): Verdict {
    match Split(token)
    case None => Invalid
    case Some((payload, signature)) =>
      match Decode(signature)
      case Malformed => Invalid
      case Bytes(supplied) =>
        if supplied != l.mac(secret, payload) then Invalid
        else
          match Decode(payload)
          case Malformed => Invalid
          case Bytes(bytes) =>
            match l.loads(bytes)
            case Object(Some(exp), sub, tenant) =>
              if exp <= now then Expired
              else if sub.Some? && tenant.Some? then Accepted(Claims(exp, sub.value, tenant.value))
              else Invalid
            case _ => Invalid
  }

  /** A session issued at one time is accepted with exactly its claims at another, exactly while that is
      before its expiry; afterwards it is reported as expired. */
  lemma IssuedVerifies(l: Library, user: string, tenant: string, secret: string, minutes: int, issued: int, now: int)
    requires l.Lawful()
    ensures
      Verify(l, Issue(l, user, tenant, secret, minutes, issued), secret, now)
      == if now < issued + minutes * 60 then Accepted(Claims(issued + minutes * 60, user, tenant)) else Expired
  {
    var claims := Claims(issued + minutes * 60, user, tenant);
    var payload := Strip(Encode(l.dumps(claims)));
    var mac := l.mac(secret, payload);
    PaddingRestored(l.dumps(claims));
    SplitRecovers(payload, Strip(Encode(mac)));
    DecodeInvertsEncode(l.dumps(claims));
    DecodeInvertsEncode(mac);
    assert l.loads(l.dumps(claims)) == Object(Some(claims.exp), Some(claims.sub), Some(claims.tenant));
  }

  /** Under an ideal keyed hash, a token that carries an issued session's signature, however it is spelled,
      is accepted only with that session's own payload, secret and claims. */
  lemma SignatureBindsSession(
      l: Library, user: string, tenant: string, secret: string, minutes: int, issued: int,
      token: string, other: string, now: int)
    requires l.Lawful() && l.Injective()
    requires
      var mine, theirs := Split(Issue(l, user, tenant, secret, minutes, issued)), Split(token);
      mine.Some? && theirs.Some? && Decode(theirs.value.1) == Decode(mine.value.1)
    requires Verify(l, token, other, now).Accepted?
    ensures other == secret
    ensures Split(token).value.0 == Split(Issue(l, user, tenant, secret, minutes, issued)).value.0
    ensures Verify(l, token, other, now).claims == Claims(issued + minutes * 60, user, tenant)
  {
    var claims := Claims(issued + minutes * 60, user, tenant);
    var payload := Strip(Encode(l.dumps(claims)));
    var mac := l.mac(secret, payload);
    PaddingRestored(l.dumps(claims));
    SplitRecovers(payload, Strip(Encode(mac)));
    DecodeInvertsEncode(l.dumps(claims));
    DecodeInvertsEncode(mac);
    var halves := Split(token).value;
    assert Decode(halves.1) == Bytes(mac);
    assert l.mac(other, halves.0) == l.mac(secret, payload);
    assert l.loads(l.dumps(claims)) == Object(Some(claims.exp), Some(claims.sub), Some(claims.tenant));
  }
}

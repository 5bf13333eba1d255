/** The session token of labview/internal/access/session.go: `v1.<base64url(claims)>.<base64url(mac)>`.

    The MAC and the JSON reader are the two library calls this model cannot see; they are the fields of `Codec`. */
module Tokens {
  import opened Options
  import opened Base64Url
  import opened Usernames

  const TOKEN_VERSION := "v1"
  const MAX_TOKEN_BYTES := 1024
  const SECOND := 1_000_000_000
  const SESSION_TTL_FLOOR := 60 * SECOND
  const DEFAULT_SESSION_TTL := 720 * 60 * SECOND

  datatype LoginMethod = Passwd | Oidc

  /** `iat` and `exp` are Unix seconds. */
  datatype Claims = Claims(u: string, via: LoginMethod, iat: int, exp: int, jti: string)

  datatype Codec = Codec(mac: string -> seq<byte>, unmarshal: seq<byte> -> Option<Claims>)

  datatype Rejection = Malformed | Signature | Expired | Revoked

  datatype Verdict = Accepted(claims: Claims) | Rejected(why: Rejection, of: Option<Claims>)

  // ---------------------------------------------------------------------------
  // The claims as JSON
  // ---------------------------------------------------------------------------

  function Numeral(n: nat): (s: string)
    ensures |s| > 0 && forall i :: 0 <= i < |s| ==> '0' <= s[i] <= '9'
  {
    var last := ((n % 10) + 48) as char;
    if n < 10 then [last] else Numeral(n / 10) + [last]
  }

  function IntText(i: int): (s: string)
    ensures forall k :: 0 <= k < |s| ==> '0' <= s[k] <= '9' || s[k] == '-'
  {
    if i < 0 then "-" + Numeral(-i) else Numeral(i)
  }

  function ViaText(via: LoginMethod): string {
    match via case Passwd => "passwd" case Oidc => "oidc"
  }

  /** What `json.Marshal` writes for claims whose strings need no escaping. */
  function Marshal(c: Claims): string {
    "{\"u\":\"" + (c.u + ("\"" + (",\"via\":\"" + (ViaText(c.via) + ("\"" + (",\"iat\":" + (IntText(c.iat) + ("," +
    ("\"exp\":" + (IntText(c.exp) + ("," + ("\"jti\":\"" + (c.jti + ("\"" + "}"))))))))))))))
  }

  function Bytes(s: string): seq<byte> {
    seq(|s|, i requires 0 <= i < |s| => s[i] as int % 256)
  }

  predicate Plain(s: string) {
    forall i :: 0 <= i < |s| ==> s[i] < 128 as char && s[i] != '\"'
  }

  /** The source's integers are 64 bits wide. */
  predicate InInt64(i: int) { -0x8000_0000_0000_0000 <= i < 0x8000_0000_0000_0000 }

  /** Claims a signer can mint: a sanitised name, a base64url identifier and 64-bit times. Nothing in them needs
      escaping, and every number is one the reader's fields can hold. */
  predicate Mintable(c: Claims) {
    && (ValidUsername(c.u) || c.u == "?") && 0 < |c.jti| <= 22 && OverAlphabet(c.jti)
    && InInt64(c.iat) && InInt64(c.exp)
  }

  lemma MintableIsPlain(c: Claims)
    requires Mintable(c)
    ensures Plain(c.u) && Plain(c.jti)
  {
    forall i | 0 <= i < |c.u| && c.u != "?" ensures c.u[i] < 128 as char && c.u[i] != '\"' {
      assert UsernameByte(c.u[i]);
    }
    forall i | 0 <= i < |c.jti| ensures c.jti[i] < 128 as char && c.jti[i] != '\"' {
      assert Value(c.jti[i]).Some?;
    }
  }

  /** The library calls behave: a SHA-256 MAC is 32 bytes, and unmarshalling undoes marshalling. */
  ghost predicate Ideal(codec: Codec) {
    && (forall s :: |codec.mac(s)| == 32)
    && (forall c :: Mintable(c) ==> codec.unmarshal(Bytes(Marshal(c))) == Some(c))
  }

  lemma {:induction false} NumeralInjective(n: nat, m: nat)
    requires Numeral(n) == Numeral(m)
    ensures n == m
  {
    var s, t := Numeral(n), Numeral(m);
    assert s[|s| - 1] == ((n % 10) + 48) as char && t[|t| - 1] == ((m % 10) + 48) as char;
    assert n % 10 == m % 10;
    assert (n < 10 <==> |s| == 1) && (m < 10 <==> |t| == 1);
    if n >= 10 {
      assert s[..|s| - 1] == Numeral(n / 10) && t[..|t| - 1] == Numeral(m / 10);
      NumeralInjective(n / 10, m / 10);
    }
  }

  lemma IntTextInjective(i: int, j: int)
    requires IntText(i) == IntText(j)
    ensures i == j
  {
    assert (i < 0 <==> IntText(i)[0] == '-') && (j < 0 <==> IntText(j)[0] == '-');
    if i < 0 {
      assert IntText(i)[1..] == Numeral(-i) && IntText(j)[1..] == Numeral(-j);
      NumeralInjective(-i, -j);
    } else {
      NumeralInjective(i, j);
    }
  }

  /** A field that does not hold its own delimiter can be read back. */
  lemma FieldReadsBack(a: string, b: string, d: char, x: string, y: string)
    requires a + ([d] + x) == b + ([d] + y) && d !in a && d !in b
    ensures a == b && x == y
  {
    var s, t := a + ([d] + x), b + ([d] + y);
    assert s[|a|] == d && t[|b|] == d;
    assert forall i :: 0 <= i < |a| ==> s[i] == a[i] != d;
    assert forall i :: 0 <= i < |b| ==> t[i] == b[i] != d;
    assert |a| == |b|;
    assert s[..|a|] == a && t[..|b|] == b;
    assert s[|a| + 1..] == x && t[|b| + 1..] == y;
  }

  lemma TailsEqual(p: string, x: string, y: string)
    requires p + x == p + y
    ensures x == y
  {
    assert (p + x)[|p|..] == x && (p + y)[|p|..] == y;
  }

  /** Different claims are written differently, so an ideal reader can exist. */
  lemma MarshalInjective(c: Claims, d: Claims)
    requires Mintable(c) && Mintable(d) && Marshal(c) == Marshal(d)
    ensures c == d
  {
    var c7, d7 := "\"exp\":" + (IntText(c.exp) + ("," + ("\"jti\":\"" + (c.jti + ("\"" + "}"))))),
                  "\"exp\":" + (IntText(d.exp) + ("," + ("\"jti\":\"" + (d.jti + ("\"" + "}")))));
    var c4, d4 := ",\"iat\":" + (IntText(c.iat) + ("," + c7)), ",\"iat\":" + (IntText(d.iat) + ("," + d7));
    var c2, d2 := ",\"via\":\"" + (ViaText(c.via) + ("\"" + c4)), ",\"via\":\"" + (ViaText(d.via) + ("\"" + d4));
    TailsEqual("{\"u\":\"", c.u + ("\"" + c2), d.u + ("\"" + d2));
    MintableIsPlain(c);
    MintableIsPlain(d);
    FieldReadsBack(c.u, d.u, '\"', c2, d2);
    TailsEqual(",\"via\":\"", ViaText(c.via) + ("\"" + c4), ViaText(d.via) + ("\"" + d4));
    FieldReadsBack(ViaText(c.via), ViaText(d.via), '\"', c4, d4);
    TailsEqual(",\"iat\":", IntText(c.iat) + ("," + c7), IntText(d.iat) + ("," + d7));
    FieldReadsBack(IntText(c.iat), IntText(d.iat), ',', c7, d7);
    IntTextInjective(c.iat, d.iat);
    LastFields(c, d);
  }

  lemma LastFields(c: Claims, d: Claims)
    requires Mintable(c) && Mintable(d)
    requires "\"exp\":" + (IntText(c.exp) + ("," + ("\"jti\":\"" + (c.jti + ("\"" + "}")))))
          == "\"exp\":" + (IntText(d.exp) + ("," + ("\"jti\":\"" + (d.jti + ("\"" + "}")))))
    ensures c.exp == d.exp && c.jti == d.jti
  {
    var c9, d9 := "\"jti\":\"" + (c.jti + ("\"" + "}")), "\"jti\":\"" + (d.jti + ("\"" + "}"));
    TailsEqual("\"exp\":", IntText(c.exp) + ("," + c9), IntText(d.exp) + ("," + d9));
    FieldReadsBack(IntText(c.exp), IntText(d.exp), ',', c9, d9);
    IntTextInjective(c.exp, d.exp);
    TailsEqual("\"jti\":\"", c.jti + ("\"" + "}"), d.jti + ("\"" + "}"));
    MintableIsPlain(c);
    MintableIsPlain(d);
    FieldReadsBack(c.jti, d.jti, '\"', "}", "}");
  }

  predicate Ascii(s: string) {
    forall i :: 0 <= i < |s| ==> s[i] < 128 as char
  }

  lemma JoinAscii(a: string, b: string, c: string)
    requires Ascii(a) && Ascii(b) && Ascii(c)
    ensures Ascii(a + (b + c))
  {
  }

  lemma MarshalIsAscii(c: Claims)
    requires Mintable(c)
    ensures Ascii(Marshal(c))
  {
    var jti := "\"jti\":\"" + (c.jti + ("\"" + "}"));
    MintableIsPlain(c);
    JoinAscii("\"jti\":\"", c.jti, "\"" + "}");
    JoinAscii(IntText(c.exp), ",", jti);
    var exp := "\"exp\":" + (IntText(c.exp) + ("," + jti));
    JoinAscii(IntText(c.iat), ",", exp);
    var iat := ",\"iat\":" + (IntText(c.iat) + ("," + exp));
    JoinAscii(ViaText(c.via), "\"", iat);
    var via := ",\"via\":\"" + (ViaText(c.via) + ("\"" + iat));
    JoinAscii("\"", via, "");
    JoinAscii("{\"u\":\"", c.u, "\"" + via);
  }

  lemma BytesInjective(s: string, t: string)
    requires Ascii(s) && Ascii(t)
    requires Bytes(s) == Bytes(t)
    ensures s == t
  {
    forall i | 0 <= i < |s| ensures s[i] == t[i] {
      assert Bytes(s)[i] == Bytes(t)[i];
    }
  }

  ghost function ReadBack(b: seq<byte>): Option<Claims> {
    if exists c :: Mintable(c) && Bytes(Marshal(c)) == b then
      var c :| Mintable(c) && Bytes(Marshal(c)) == b;
      Some(c)
    else None
  }

  lemma ReadBackReads(c: Claims)
    requires Mintable(c)
    ensures ReadBack(Bytes(Marshal(c))) == Some(c)
  {
    var d := ReadBack(Bytes(Marshal(c))).value;
    MarshalIsAscii(c);
    MarshalIsAscii(d);
    BytesInjective(Marshal(c), Marshal(d));
    MarshalInjective(c, d);
  }

  /** The hypothesis on the library calls can be met. */
  lemma IdealCodecExists(m: string -> seq<byte>)
    requires forall s :: |m(s)| == 32
    ensures exists u :: Ideal(Codec(m, u))
  {
    forall c | Mintable(c) ensures ReadBack(Bytes(Marshal(c))) == Some(c) {
      ReadBackReads(c);
    }
    assert Ideal(Codec(m, ReadBack));
  }

  // ---------------------------------------------------------------------------
  // Cutting a token
  // ---------------------------------------------------------------------------

  /** The position of the first `.`, or the length. */
  function FirstDot(s: string): (k: nat)
    ensures k <= |s| && '.' !in s[..k] && (k < |s| ==> s[k] == '.')
  {
    if s == "" || s[0] == '.' then 0 else
      var k := FirstDot(s[1..]);
      assert s[..k + 1] == [s[0]] + s[1..][..k];
      k + 1
  }

  /** `cut`: exactly three parts, the last two not empty. */
  function Cut(token: string): (r: Option<(string, string, string)>)
    ensures r.Some? ==>
      var (v, b, m) := r.value;
      token == v + "." + b + "." + m && '.' !in v && '.' !in b && '.' !in m && b != "" && m != ""
  {
    var first := FirstDot(token);
    if first == |token| then None else
      var rest := token[first + 1..];
      var second := FirstDot(rest);
      if second == |rest| then None else
        var body, mac := rest[..second], rest[second + 1..];
        if body == "" || mac == "" || '.' in mac then None
        else
          assert rest == body + "." + mac;
          assert token == token[..first] + "." + rest;
          Some((token[..first], body, mac))
  }

  lemma FirstDotIs(v: string, rest: string)
    requires '.' !in v
    ensures FirstDot(v + "." + rest) == |v|
  {
    var s := v + "." + rest;
    var k := FirstDot(s);
    assert s[|v|] == '.';
    assert forall i :: 0 <= i < |v| ==> s[i] == v[i] != '.';
    assert forall i :: 0 <= i < k ==> s[i] == s[..k][i] != '.';
  }

  /** Cutting undoes joining. */
  lemma CutRoundTrip(v: string, body: string, mac: string)
    requires '.' !in v && '.' !in body && '.' !in mac && body != "" && mac != ""
    ensures Cut(v + "." + body + "." + mac) == Some((v, body, mac))
  {
    var rest := body + "." + mac;
    var token := v + "." + body + "." + mac;
    assert token == v + "." + rest;
    FirstDotIs(v, rest);
    assert token[|v| + 1..] == rest && token[..|v|] == v;
    FirstDotIs(body, mac);
    assert rest[..|body|] == body && rest[|body| + 1..] == mac;
  }

  /** The token is these three parts joined, with no dot in them and the last two not empty. */
  ghost predicate Joined(token: string, v: string, body: string, mac: string) {
    token == v + "." + body + "." + mac && '.' !in v && '.' !in body && '.' !in mac && body != "" && mac != ""
  }

  /** And cuts exactly what joins. */
  lemma CutIs(token: string, v: string, body: string, mac: string)
    ensures Cut(token) == Some((v, body, mac)) <==> Joined(token, v, body, mac)
  {
    if Joined(token, v, body, mac) {
      CutRoundTrip(v, body, mac);
    }
  }
}

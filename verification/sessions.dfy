/** Minting, verifying and revoking sessions (labview/internal/access/session.go), and runs of all three. */
module Sessions {
  import opened Options
  import opened Base64Url
  import opened Usernames
  import opened Tokens
  import R = Revocations

  /** A TTL too short to be worth issuing means the default. */
  function EffectiveTTL(ttl: int): (t: int)
    ensures t >= SESSION_TTL_FLOOR
  {
    if ttl < SESSION_TTL_FLOOR then DEFAULT_SESSION_TTL else ttl
  }

  /** The claims `Mint` signs at `now` (in nanoseconds) with 16 random bytes. */
  function ClaimsFor(ttl: int, user: string, via: LoginMethod, random: seq<byte>, now: int): Claims {
    Claims(Username(user), via, now / SECOND, (now + ttl) / SECOND, Encode(random))
  }

  function TokenOf(codec: Codec, c: Claims): string {
    var encoded := Encode(Bytes(Marshal(c)));
    TOKEN_VERSION + "." + encoded + "." + Encode(codec.mac(encoded))
  }

  /** The checks before expiry: shape, MAC, payload. `Malformed` and `Signature` are the only refusals. */
  function ReadToken(codec: Codec, token: string): (Rejection, Option<Claims>) {
    if |token| > MAX_TOKEN_BYTES then (Malformed, None)
    else
      var parts := Cut(token);
      if parts.None? || parts.value.0 != TOKEN_VERSION then (Malformed, None)
      else
        var body, given := parts.value.1, Decode(parts.value.2);
        if given.None? then (Malformed, None)
        else if given.value != codec.mac(body) then (Signature, None)
        else
          var raw := Decode(body);
          if raw.None? then (Malformed, None)
          else
            var claims := codec.unmarshal(raw.value);
            if claims.None? || claims.value.u == "" || claims.value.jti == "" || claims.value.exp == 0 then (Malformed, None)
            else (Malformed, claims)
  }

  /** `Verify`: shape, MAC, expiry, revocation, in that order. */
  function VerifyToken(codec: Codec, revoked: R.Book, token: string, now: int): Verdict {
    var (why, claims) := ReadToken(codec, token);
    if claims.None? then Rejected(why, None)
    else if now >= claims.value.exp * SECOND then Rejected(Expired, claims)
    else if claims.value.jti in revoked then Rejected(Revoked, claims)
    else Accepted(claims.value)
  }

  class Signer {
    const codec: Codec
    const ttl: int
    const revoked: R.RevocationSet

    constructor (codec: Codec, ttl: int)
      ensures this.codec == codec && this.ttl == EffectiveTTL(ttl) && revoked.at == map[] && fresh(revoked)
    {
      this.codec, this.ttl := codec, EffectiveTTL(ttl);
      revoked := new R.RevocationSet();
    }

    method Mint(user: string, via: LoginMethod, random: seq<byte>, now: int) returns (token: string, claims: Claims)
      ensures claims == ClaimsFor(ttl, user, via, random, now) && token == TokenOf(codec, claims)
    {
      claims := Claims(Username(user), via, now / SECOND, (now + ttl) / SECOND, Encode(random));
      var encoded := Encode(Bytes(Marshal(claims)));
      token := TOKEN_VERSION + "." + encoded + "." + Encode(codec.mac(encoded));
    }

    method Verify(token: string, now: int) returns (v: Verdict)
      ensures v == VerifyToken(codec, revoked.at, token, now)
    {
      var (why, claims) := ReadToken(codec, token);
      if claims.None? {
        return Rejected(why, None);
      }
      if now >= claims.value.exp * SECOND {
        return Rejected(Expired, claims);
      }
      var gone := revoked.Has(claims.value.jti);
      v := if gone then Rejected(Revoked, claims) else Accepted(claims.value);
    }

    /** `Logout`: whatever verifies, or was already signed out, is revoked. */
    method Logout(token: string, now: int)
      requires |revoked.at| <= R.MAX_REVOCATIONS
      modifies revoked
      ensures R.AddStep(old(revoked.at), WriteOf(codec, LogoutEvent(token, now)), revoked.at)
      ensures |revoked.at| <= R.MAX_REVOCATIONS
    {
      var v := Verify(token, now);
      if v.Accepted? {
        revoked.Add(v.claims.jti, v.claims.exp * SECOND, now);
      } else if v.why == Revoked {
        revoked.Add(v.of.value.jti, v.of.value.exp * SECOND, now);
      }
    }
  }

  // ---------------------------------------------------------------------------
  // One token
  // ---------------------------------------------------------------------------

  function Pow10(k: nat): nat { if k == 0 then 1 else 10 * Pow10(k - 1) }

  lemma {:induction false} NumeralLength(n: nat, k: nat)
    requires k > 0 && n < Pow10(k)
    ensures |Numeral(n)| <= k
  {
    if n >= 10 {
      NumeralLength(n / 10, k - 1);
    }
  }

  lemma IntTextLength(i: int)
    requires InInt64(i)
    ensures |IntText(i)| <= 20
  {
    assert Pow10(5) == 100_000;
    assert Pow10(10) == 10_000_000_000;
    assert Pow10(15) == 1_000_000_000_000_000;
    assert Pow10(19) == 10_000_000_000_000_000_000;
    NumeralLength(if i < 0 then -i else i, 19);
  }

  lemma MarshalLength(c: Claims)
    ensures |Marshal(c)| == 40 + |c.u| + |ViaText(c.via)| + |IntText(c.iat)| + |IntText(c.exp)| + |c.jti|
  {
  }

  /** Every minted token fits the bound `Verify` puts on what it will parse. */
  lemma MintedTokenFits(codec: Codec, c: Claims)
    requires Ideal(codec) && Mintable(c)
    ensures |TokenOf(codec, c)| <= MAX_TOKEN_BYTES
  {
    IntTextLength(c.iat);
    IntTextLength(c.exp);
    MarshalLength(c);
    EncodeShape(Bytes(Marshal(c)));
    EncodeShape(codec.mac(Encode(Bytes(Marshal(c)))));
  }

  /** What `Mint` signs is always mintable while the clock fits the 64 bits of a Unix time. */
  lemma ClaimsAreMintable(ttl: int, user: string, via: LoginMethod, random: seq<byte>, now: int)
    requires |random| == 16 && InInt64(now / SECOND) && InInt64((now + ttl) / SECOND)
    ensures Mintable(ClaimsFor(ttl, user, via, random, now))
  {
    EncodeShape(random);
    EncodeIsOverAlphabet(random);
  }

  /** Reading back a minted token gives exactly the claims it was minted with; only claims that expire in the very
      first second of Unix time are refused. */
  lemma MintedTokenReads(codec: Codec, c: Claims)
    requires Ideal(codec) && Mintable(c)
    ensures ReadToken(codec, TokenOf(codec, c)) == (Malformed, if c.exp == 0 then None else Some(c))
  {
    var raw := Bytes(Marshal(c));
    var encoded := Encode(raw);
    var mac := codec.mac(encoded);
    MintedTokenFits(codec, c);
    EncodeShape(raw);
    EncodeShape(mac);
    CutRoundTrip(TOKEN_VERSION, encoded, Encode(mac));
    RoundTrip(raw);
    RoundTrip(mac);
  }

  // ---------------------------------------------------------------------------
  // What a verdict means
  // ---------------------------------------------------------------------------

  /** A token of the right version and shape, short enough to parse. */
  ghost predicate Shaped(token: string, body: string, tag: string) {
    |token| <= MAX_TOKEN_BYTES && Joined(token, TOKEN_VERSION, body, tag)
  }

  /** Its last part is the MAC of its middle part. */
  ghost predicate Signed(codec: Codec, body: string, tag: string) { Decode(tag) == Some(codec.mac(body)) }

  /** Its middle part reads as these claims, none of the required ones missing. */
  ghost predicate Says(codec: Codec, body: string, c: Claims) {
    Decode(body).Some? && codec.unmarshal(Decode(body).value) == Some(c) && c.u != "" && c.jti != "" && c.exp != 0
  }

  ghost predicate Carries(codec: Codec, token: string, body: string, tag: string, c: Claims) {
    Shaped(token, body, tag) && Signed(codec, body, tag) && Says(codec, body, c)
  }

  /** The token, in one way, carries these claims under a MAC of this signer. */
  ghost predicate Bears(codec: Codec, token: string, c: Claims) {
    exists body, tag :: Carries(codec, token, body, tag, c)
  }

  lemma ShapedIsCut(token: string, body: string, tag: string)
    ensures Shaped(token, body, tag) <==> |token| <= MAX_TOKEN_BYTES && Cut(token) == Some((TOKEN_VERSION, body, tag))
  {
    CutIs(token, TOKEN_VERSION, body, tag);
  }

  lemma CarriedIsRead(codec: Codec, token: string, body: string, tag: string, c: Claims)
    requires Carries(codec, token, body, tag, c)
    ensures ReadToken(codec, token) == (Malformed, Some(c))
  {
    ShapedIsCut(token, body, tag);
  }

  lemma ReadIsCarried(codec: Codec, token: string) returns (body: string, tag: string)
    requires ReadToken(codec, token).1.Some?
    ensures Carries(codec, token, body, tag, ReadToken(codec, token).1.value)
  {
    body, tag := Cut(token).value.1, Cut(token).value.2;
    ShapedIsCut(token, body, tag);
  }

  lemma ReadIsBorne(codec: Codec, token: string, c: Claims)
    ensures ReadToken(codec, token).1 == Some(c) <==> Bears(codec, token, c)
  {
    if ReadToken(codec, token).1.Some? {
      var body, tag := ReadIsCarried(codec, token);
    }
    if body, tag :| Carries(codec, token, body, tag, c) {
      CarriedIsRead(codec, token, body, tag, c);
    }
  }

  /** Claims are accepted, or refused as expired or revoked, only from a token that bears them under this signer's MAC;
      and of such a token the clock decides first and the revocation set second. */
  lemma VerdictMeans(codec: Codec, revoked: R.Book, token: string, now: int, c: Claims)
    ensures var v := VerifyToken(codec, revoked, token, now);
      && (v == Accepted(c) <==> Bears(codec, token, c) && now < c.exp * SECOND && c.jti !in revoked)
      && (v == Rejected(Expired, Some(c)) <==> Bears(codec, token, c) && now >= c.exp * SECOND)
      && (v == Rejected(Revoked, Some(c)) <==> Bears(codec, token, c) && now < c.exp * SECOND && c.jti in revoked)
  {
    ReadIsBorne(codec, token, c);
  }

  /** No other verdict carries claims. */
  lemma VerdictsOfClaims(codec: Codec, revoked: R.Book, token: string, now: int)
    ensures var v := VerifyToken(codec, revoked, token, now);
      && (v.Rejected? && (v.why == Expired || v.why == Revoked) <==> v.Rejected? && v.of.Some?)
      && (v.Accepted? || v.of.Some? ==> exists body, tag ::
           token == TOKEN_VERSION + "." + body + "." + tag && Decode(tag) == Some(codec.mac(body)))
  {
    var v := VerifyToken(codec, revoked, token, now);
    if v.Accepted? || v.of.Some? {
      var body, tag := ReadIsCarried(codec, token);
      assert token == TOKEN_VERSION + "." + body + "." + tag && Decode(tag) == Some(codec.mac(body));
    }
  }

  /** A well-shaped token whose last part is base64url of anything but the MAC is refused for its signature, whatever else
      is wrong with it, and no other token is. */
  lemma SignatureMeans(codec: Codec, revoked: R.Book, token: string, now: int)
    ensures VerifyToken(codec, revoked, token, now) == Rejected(Signature, None) <==>
      exists body, tag :: Shaped(token, body, tag) && Decode(tag).Some? && !Signed(codec, body, tag)
  {
    if body, tag :| Shaped(token, body, tag) && Decode(tag).Some? && !Signed(codec, body, tag) {
      ShapedIsCut(token, body, tag);
    }
    if ReadToken(codec, token) == (Signature, None) {
      var body, tag := Cut(token).value.1, Cut(token).value.2;
      ShapedIsCut(token, body, tag);
      assert Shaped(token, body, tag) && Decode(tag).Some? && !Signed(codec, body, tag);
    }
  }

  /** What `Mint` signs: the name sanitised, the times in whole seconds rounded down, and the identifier of its own bytes;
      so a session lasts its TTL to within the second its end falls in. */
  lemma MintedClaimsSay(ttl: int, user: string, via: LoginMethod, random: seq<byte>, now: int)
    ensures var c := ClaimsFor(ttl, user, via, random, now);
      && c.u == (if ValidUsername(user) then user else "?") && c.via == via && Decode(c.jti) == Some(random)
      && c.iat * SECOND <= now < (c.iat + 1) * SECOND && c.exp * SECOND <= now + ttl < (c.exp + 1) * SECOND
  {
    RoundTrip(random);
  }

  /** A token minted now is accepted at every time before its end, and as expired from then on. */
  lemma MintedTokenLives(codec: Codec, ttl: int, user: string, via: LoginMethod, random: seq<byte>, now: int, at: int)
    requires Ideal(codec) && |random| == 16 && InInt64(now / SECOND) && InInt64((now + ttl) / SECOND) && (now + ttl) / SECOND != 0
    ensures var c := ClaimsFor(ttl, user, via, random, now);
      VerifyToken(codec, map[], TokenOf(codec, c), at) == if at < (now + ttl) / SECOND * SECOND then Accepted(c) else Rejected(Expired, Some(c))
  {
    ClaimsAreMintable(ttl, user, via, random, now);
    MintedTokenReads(codec, ClaimsFor(ttl, user, via, random, now));
  }

  // ---------------------------------------------------------------------------
  // Runs
  // ---------------------------------------------------------------------------

  datatype Event = MintEvent(claims: Claims, now: int) | LogoutEvent(token: string, now: int)

  /** The claims a logout at `now` would act on. */
  function Presented(codec: Codec, e: Event): Option<Claims> {
    if e.LogoutEvent? then
      var claims := ReadToken(codec, e.token).1;
      if claims.Some? && e.now < claims.value.exp * SECOND then claims else None
    else None
  }

  /** What one event writes to the revocation set; the empty identifier writes nothing. */
  function WriteOf(codec: Codec, e: Event): R.Write {
    var p := Presented(codec, e);
    if p.Some? then R.Write(p.value.jti, p.value.exp * SECOND, e.now) else R.Write("", 0, e.now)
  }

  function Writes(codec: Codec, events: seq<Event>): seq<R.Write> {
    seq(|events|, i requires 0 <= i < |events| => WriteOf(codec, events[i]))
  }

  ghost predicate MintedAt(events: seq<Event>, i: nat, c: Claims) {
    i < |events| && events[i].MintEvent? && events[i].claims == c
  }

  /** Random identifiers do not collide. */
  ghost predicate FreshIds(events: seq<Event>) {
    forall i: nat, j: nat, c, d :: MintedAt(events, i, c) && MintedAt(events, j, d) && c.jti == d.jti ==> c == d
  }

  /** The token is two texts behind the version, the second the MAC of the first. */
  ghost predicate Presents(codec: Codec, e: Event, body: string, tag: string) {
    e.LogoutEvent? && e.token == TOKEN_VERSION + "." + body + "." + tag && Signed(codec, body, tag)
  }

  ghost predicate SignedBefore(events: seq<Event>, k: nat, body: string) {
    exists i: nat, c :: i < k && MintedAt(events, i, c) && body == Encode(Bytes(Marshal(c)))
  }

  /** Nobody but the signer can make a MAC: one is presented only of a text signed earlier in the run. */
  ghost predicate Unforged(codec: Codec, events: seq<Event>) {
    forall k: nat, body, tag :: k < |events| && Presents(codec, events[k], body, tag) ==> SignedBefore(events, k, body)
  }

  /** No logout acts on claims that were not minted earlier in the run. */
  ghost predicate OnlyMinted(codec: Codec, events: seq<Event>) {
    forall k: nat :: k < |events| && Presented(codec, events[k]).Some? ==>
      exists i: nat :: i < k && MintedAt(events, i, Presented(codec, events[k]).value)
  }

  ghost predicate MintedClaims(c: Claims) {
    Mintable(c) && c.exp != 0
  }

  /** A run of one signer, with a clock that does not go back. */
  ghost predicate IsSession(codec: Codec, events: seq<Event>, held: seq<R.Book>) {
    && Ideal(codec) && FreshIds(events) && Unforged(codec, events)
    && R.Held(Writes(codec, events), held)
    && (forall i, j :: 0 <= i < j < |events| ==> events[i].now <= events[j].now)
    && (forall i: nat, c :: MintedAt(events, i, c) ==> MintedClaims(c))
  }

  /** Since verification asks for the MAC, that follows. */
  lemma ActsOnlyOnMinted(codec: Codec, events: seq<Event>)
    requires Ideal(codec) && Unforged(codec, events) && forall i: nat, c :: MintedAt(events, i, c) ==> MintedClaims(c)
    ensures OnlyMinted(codec, events)
  {
    forall k: nat | k < |events| && Presented(codec, events[k]).Some?
      ensures exists i: nat :: i < k && MintedAt(events, i, Presented(codec, events[k]).value)
    {
      var body, tag := ReadIsCarried(codec, events[k].token);
      assert Presents(codec, events[k], body, tag);
      var i: nat, c :| i < k && MintedAt(events, i, c) && body == Encode(Bytes(Marshal(c)));
      RoundTrip(Bytes(Marshal(c)));
      assert MintedClaims(c);
    }
  }

  ghost predicate SignsOut(codec: Codec, events: seq<Event>, k: nat, c: Claims) {
    k < |events| && Presented(codec, events[k]) == Some(c)
  }

  /** Some event of the run signed this session out while it had not expired. */
  ghost predicate SignedOut(codec: Codec, events: seq<Event>, c: Claims) {
    exists k: nat :: SignsOut(codec, events, k, c)
  }

  /** Only the session an identifier was minted for can be what a logout acts on. */
  lemma OneSessionPerId(codec: Codec, events: seq<Event>, a: nat, c: Claims, k: nat, d: Claims)
    requires FreshIds(events) && OnlyMinted(codec, events) && MintedAt(events, a, c)
    requires SignsOut(codec, events, k, d) && d.jti == c.jti
    ensures d == c
  {
    var b: nat :| b < k && MintedAt(events, b, d);
  }

  lemma SameIdSameExpiry(codec: Codec, events: seq<Event>, i: nat, j: nat)
    requires FreshIds(events) && OnlyMinted(codec, events) && i < |events| && j < |events|
    requires WriteOf(codec, events[i]).jti == WriteOf(codec, events[j]).jti != ""
    ensures WriteOf(codec, events[i]).exp == WriteOf(codec, events[j]).exp
  {
    var c, d := Presented(codec, events[i]).value, Presented(codec, events[j]).value;
    var a: nat :| a < i && MintedAt(events, a, c);
    assert SignsOut(codec, events, j, d);
    OneSessionPerId(codec, events, a, c, j, d);
  }

  lemma WriteIsTimely(codec: Codec, e: Event)
    ensures var w := WriteOf(codec, e); w.now == e.now && (w.jti != "" ==> w.now < w.exp)
  {
  }

  lemma TimelyIsOrderly(ws: seq<R.Write>)
    requires forall i, j :: 0 <= i < j < |ws| ==> ws[i].now <= ws[j].now
    requires forall i :: 0 <= i < |ws| && ws[i].jti != "" ==> ws[i].now < ws[i].exp
    requires forall i: nat, j: nat :: i < |ws| && j < |ws| && ws[i].jti == ws[j].jti != "" ==> ws[i].exp == ws[j].exp
    ensures R.Orderly(ws)
  {
  }

  lemma WritesAreOrderly(codec: Codec, events: seq<Event>, held: seq<R.Book>)
    requires IsSession(codec, events, held)
    ensures R.Orderly(Writes(codec, events))
  {
    var ws := Writes(codec, events);
    ActsOnlyOnMinted(codec, events);
    forall i | 0 <= i < |ws| ensures ws[i].now == events[i].now && (ws[i].jti != "" ==> ws[i].now < ws[i].exp) {
      WriteIsTimely(codec, events[i]);
    }
    forall i: nat, j: nat | i < |ws| && j < |ws| && ws[i].jti == ws[j].jti != "" ensures ws[i].exp == ws[j].exp {
      SameIdSameExpiry(codec, events, i, j);
    }
    TimelyIsOrderly(ws);
  }

  /** The unbounded history holds a minted session's identifier exactly when the session was signed out. */
  lemma HistoryIsSignedOut(codec: Codec, events: seq<Event>, held: seq<R.Book>, a: nat, c: Claims)
    requires IsSession(codec, events, held) && MintedAt(events, a, c)
    ensures var all := R.History(Writes(codec, events));
      (c.jti in all <==> SignedOut(codec, events, c)) && (c.jti in all ==> all[c.jti] == c.exp * SECOND)
  {
    var ws := Writes(codec, events);
    assert MintedClaims(c);
    ActsOnlyOnMinted(codec, events);
    R.HistoryHolds(ws, c.jti);
    if SignedOut(codec, events, c) {
      var k: nat :| SignsOut(codec, events, k, c);
      assert ws[k].jti == c.jti;
    }
    if c.jti in R.History(ws) {
      var k :| 0 <= k < |ws| && ws[k].jti == c.jti && ws[k].exp == R.History(ws)[c.jti];
      OneSessionPerId(codec, events, a, c, k, Presented(codec, events[k]).value);
      assert SignsOut(codec, events, k, c);
    }
  }

  /** An identifier still in the set is there because its session was signed out, and with its session's own expiry. */
  lemma HeldIsSignedOut(codec: Codec, events: seq<Event>, held: seq<R.Book>, a: nat, c: Claims)
    requires IsSession(codec, events, held) && MintedAt(events, a, c)
    ensures c.jti in held[|events|] ==> SignedOut(codec, events, c) && held[|events|][c.jti] == c.exp * SECOND
  {
    var ws := Writes(codec, events);
    HeldComesFromHistory(ws, held, c.jti);
    ActsOnlyOnMinted(codec, events);
    if c.jti in held[|events|] {
      var k :| 0 <= k < |ws| && ws[k].jti == c.jti && ws[k].exp == held[|ws|][c.jti];
      OneSessionPerId(codec, events, a, c, k, Presented(codec, events[k]).value);
      assert SignsOut(codec, events, k, c);
    }
  }

  lemma {:induction false} HeldComesFromHistory(ws: seq<R.Write>, held: seq<R.Book>, j: string)
    requires R.Held(ws, held)
    ensures j in held[|ws|] ==> j != "" && exists k :: 0 <= k < |ws| && ws[k].jti == j && ws[k].exp == held[|ws|][j]
  {
    if ws != [] {
      var n := |ws| - 1;
      assert R.AddStep(held[n], ws[n], held[n + 1]);
      assert R.Held(ws[..n], held[..n + 1]);
      HeldComesFromHistory(ws[..n], held[..n + 1], j);
    }
  }

  /** No more than MAX_REVOCATIONS unexpired sessions are signed out. */
  ghost predicate Unsaturated(codec: Codec, events: seq<Event>, now: int) {
    |R.Live(R.History(Writes(codec, events)), now)| <= R.MAX_REVOCATIONS
  }

  /** Fewer than MAX_REVOCATIONS of the sessions signed out and not expired are to be given up after this one. */
  ghost predicate StillHeld(codec: Codec, events: seq<Event>, c: Claims, now: int) {
    var live := R.Live(R.History(Writes(codec, events)), now);
    c.jti in live && |R.After(live, c.jti)| < R.MAX_REVOCATIONS
  }

  /** A session signed out and not expired is still in the set exactly when it is among the last MAX_REVOCATIONS of
      those to be given up. */
  lemma SignedOutIsHeld(codec: Codec, events: seq<Event>, held: seq<R.Book>, a: nat, c: Claims, now: int)
    requires IsSession(codec, events, held) && MintedAt(events, a, c) && SignedOut(codec, events, c) && now < c.exp * SECOND
    requires forall i :: 0 <= i < |events| ==> events[i].now <= now
    ensures c.jti in held[|events|] <==> StillHeld(codec, events, c, now)
  {
    var ws := Writes(codec, events);
    WritesAreOrderly(codec, events, held);
    R.BoundedRefinesHistory(ws, held, now);
    HistoryIsSignedOut(codec, events, held, a, c);
    HeldIsSignedOut(codec, events, held, a, c);
    R.TopHas(R.MAX_REVOCATIONS, R.Live(held[|ws|], now), R.Live(R.History(ws), now), c.jti);
  }

  /** Under the cap that is every one of them. */
  lemma UnsaturatedHoldsAll(codec: Codec, events: seq<Event>, held: seq<R.Book>, a: nat, c: Claims, now: int)
    requires IsSession(codec, events, held) && MintedAt(events, a, c) && SignedOut(codec, events, c) && now < c.exp * SECOND
    requires Unsaturated(codec, events, now)
    ensures StillHeld(codec, events, c, now)
  {
    HistoryIsSignedOut(codec, events, held, a, c);
    R.FewerAfter(R.Live(R.History(Writes(codec, events)), now), c.jti);
  }

  /** A minted token verifies, to exactly its minted claims, at every time from the end of the run until it expires
      unless something signed it out; once signed out it is refused exactly while it is among the last MAX_REVOCATIONS
      of the unexpired sessions signed out, in the order they are given up; and that is always, as long as no more
      than MAX_REVOCATIONS of them are. */
  lemma SessionIsItsHistory(codec: Codec, events: seq<Event>, held: seq<R.Book>, a: nat, c: Claims, now: int)
    requires IsSession(codec, events, held) && MintedAt(events, a, c)
    requires forall i :: 0 <= i < |events| ==> events[i].now <= now
    ensures var v := VerifyToken(codec, held[|events|], TokenOf(codec, c), now);
      && (now >= c.exp * SECOND ==> v == Rejected(Expired, Some(c)))
      && (now < c.exp * SECOND && !SignedOut(codec, events, c) ==> v == Accepted(c))
      && (now < c.exp * SECOND && SignedOut(codec, events, c) ==>
            v == if StillHeld(codec, events, c, now) then Rejected(Revoked, Some(c)) else Accepted(c))
    ensures now < c.exp * SECOND && SignedOut(codec, events, c) && Unsaturated(codec, events, now) ==> StillHeld(codec, events, c, now)
  {
    assert MintedClaims(c);
    MintedTokenReads(codec, c);
    HeldIsSignedOut(codec, events, held, a, c);
    if now < c.exp * SECOND && SignedOut(codec, events, c) {
      SignedOutIsHeld(codec, events, held, a, c, now);
      if Unsaturated(codec, events, now) {
        UnsaturatedHoldsAll(codec, events, held, a, c, now);
      }
    }
  }

  /** Presenting a minted token before it expires is what signs its session out. */
  lemma LogoutSignsOut(codec: Codec, events: seq<Event>, held: seq<R.Book>, a: nat, c: Claims, k: nat)
    requires IsSession(codec, events, held) && MintedAt(events, a, c)
    requires k < |events| && events[k].LogoutEvent? && events[k].token == TokenOf(codec, c) && events[k].now < c.exp * SECOND
    ensures SignedOut(codec, events, c)
  {
    assert MintedClaims(c);
    MintedTokenReads(codec, c);
    assert SignsOut(codec, events, k, c);
  }
}

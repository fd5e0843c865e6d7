/** Access tokens: compact form, verification, and the two roundings of their lifetime. */
module Jwt {
  import opened Domain
  import opened Base64

  datatype Header = Header(alg: string, typ: string)

  datatype Claims = Claims(issuer: string, subject: string, audience: string, clientID: string, issuedAt: int,
      expiresAt: int, jti: string)

  /** JSON as the two encoders and decoders it is here. */
  datatype Codec = Codec(
    header: Header -> seq<Byte>, readHeader: seq<Byte> -> Option<Header>,
    claims: Claims -> seq<Byte>, readClaims: seq<Byte> -> Option<Claims>)

  /** Decoding undoes encoding, and no bytes at all are not JSON. */
  ghost predicate Lawful(c: Codec) {
    && (forall h :: c.readHeader(c.header(h)) == Some(h))
    && (forall m :: c.readClaims(c.claims(m)) == Some(m))
    && c.readHeader([]).None? && c.readClaims([]).None?
  }

  /** A server: `mac` is HMAC-SHA-256 under its signing key. */
  datatype Server = Server(issuer: string, resource: string, accessTokenTTL: Time, mac: string -> seq<Byte>,
      codec: Codec)

  ghost predicate Sound(s: Server) {
    Lawful(s.codec) && forall input :: |s.mac(input)| == 32
  }

  // ----- the compact form -----

  function IndexByte(s: string, c: char): (i: int)
    ensures -1 <= i < |s|
    ensures i >= 0 ==> s[i] == c && forall k :: 0 <= k < i ==> s[k] != c
    ensures i < 0 ==> c !in s
  {
    if s == "" then -1
    else if s[0] == c then 0
    else
      var rest := IndexByte(s[1..], c);
      assert s == [s[0]] + s[1..];
      if rest < 0 then -1 else rest + 1
  }

  datatype Segments = Segments(header: string, payload: string, signature: string)

  function SplitToken(token: string): Option<Segments> {
    var first := IndexByte(token, '.');
    if first < 0 then None
    else
      var rest := token[first + 1..];
      var second := IndexByte(rest, '.');
      if second < 0 then None
      else
        var header, payload, signature := token[..first], rest[..second], rest[second + 1..];
        if header == "" || payload == "" || signature == "" || '.' in signature then None
        else Some(Segments(header, payload, signature))
  }

  function Compact(p: Segments): string { p.header + "." + p.payload + "." + p.signature }

  predicate Segment(s: string) { s != "" && '.' !in s }

  predicate WellFormed(p: Segments) { Segment(p.header) && Segment(p.payload) && Segment(p.signature) }

  lemma FirstDot(a: string, b: string)
    requires '.' !in a
    ensures var s := a + "." + b; IndexByte(s, '.') == |a| && s[..|a|] == a && s[|a| + 1..] == b
  {
    var s := a + "." + b;
    assert s[|a|] == '.' && forall k :: 0 <= k < |a| ==> s[k] == a[k];
  }

  lemma SplitFinds(token: string)
    requires SplitToken(token).Some?
    ensures token == Compact(SplitToken(token).value) && WellFormed(SplitToken(token).value)
  {
    var first := IndexByte(token, '.');
    var rest := token[first + 1..];
    var second := IndexByte(rest, '.');
    assert token == token[..first] + "." + rest;
    assert rest == rest[..second] + "." + rest[second + 1..];
    var p := SplitToken(token).value;
    assert p.header + "." + (p.payload + "." + p.signature) == Compact(p);
  }

  lemma SplitCompact(p: Segments)
    requires WellFormed(p)
    ensures SplitToken(Compact(p)) == Some(p)
  {
    var rest := p.payload + "." + p.signature;
    assert Compact(p) == p.header + "." + rest;
    FirstDot(p.header, rest);
    FirstDot(p.payload, p.signature);
  }

  /** The three segments of a token are its only ones, and exactly the tokens made of three are split. */
  lemma SplitMeaning(token: string, p: Segments)
    ensures SplitToken(token) == Some(p) <==> token == Compact(p) && WellFormed(p)
  {
    if SplitToken(token).Some? { SplitFinds(token); }
    if WellFormed(p) { SplitCompact(p); }
  }

  // ----- minting and verifying -----

  const HEADER := Header("HS256", "JWT")

  function ClaimsFor(s: Server, tenantID: string, clientID: string, now: Time, jti: string): Claims {
    Claims(s.issuer, tenantID, s.resource, clientID, Unix(now), Unix(now + s.accessTokenTTL), jti)
  }

  function SigningInput(s: Server, tenantID: string, clientID: string, now: Time, jti: string): string {
    Encode(RAW_URL, s.codec.header(HEADER)) + "." + Encode(RAW_URL,
        s.codec.claims(ClaimsFor(s, tenantID, clientID, now, jti)))
  }

  function Mint(s: Server, tenantID: string, clientID: string, now: Time, jti: string): string {
    var input := SigningInput(s, tenantID, clientID, now, jti);
    input + "." + Encode(RAW_URL, s.mac(input))
  }

  function Verify(s: Server, token: string, now: Time): Option<Claims> {
    var split := SplitToken(token);
    if split.None? then None
    else
      var p := split.value;
      var header := Then(Decode(RAW_URL, p.header), s.codec.readHeader);
      if header.None? || header.value.alg != "HS256" || (header.value.typ != "" && header.value.typ != "JWT") then None
      else if Decode(RAW_URL, p.signature) != Some(s.mac(p.header + "." + p.payload)) then None
      else
        var claims := Then(Decode(RAW_URL, p.payload), s.codec.readClaims);
        if claims.None? then None
        else if claims.value.issuer != s.issuer || claims.value.audience != s.resource then None
        else if claims.value.subject == "" then None
        else if claims.value.expiresAt == 0 || !(now < Instant(claims.value.expiresAt)) then None
        else claims
  }

  function Then<T, U>(o: Option<T>, f: T -> Option<U>): Option<U> {
    match o
    case None => None
    case Some(v) => f(v)
  }

  /** What this server takes for an access token at this instant, and what it says: three segments, the third the MAC
      of the first two, a header that names HS256 and nothing but a JWT, and claims of this issuer for this resource
      that name a tenant and a deadline still ahead. */
  ghost predicate Trusted(s: Server, token: string, now: Time, claims: Claims) {
    exists p: Segments :: token == Compact(p) && Authentic(s, p) && Says(s, p, claims, now)
  }

  ghost predicate Authentic(s: Server, p: Segments) {
    && p.header != "" && '.' !in p.header && p.payload != "" && '.' !in p.payload
    && p.signature != "" && '.' !in p.signature
    && Decode(RAW_URL, p.signature) == Some(s.mac(p.header + "." + p.payload))
    && exists k: seq<Byte>, h: Header ::
         Decode(RAW_URL, p.header) == Some(k) && s.codec.readHeader(k) == Some(h)
         && h.alg == "HS256" && (h.typ == "" || h.typ == "JWT")
  }

  ghost predicate Says(s: Server, p: Segments, claims: Claims, now: Time) {
    && (exists k: seq<Byte> :: Decode(RAW_URL, p.payload) == Some(k) && s.codec.readClaims(k) == Some(claims))
    && claims.issuer == s.issuer && claims.audience == s.resource && claims.subject != ""
    && claims.expiresAt != 0 && now < Instant(claims.expiresAt)
  }

  /** Every string, whoever made it, is accepted exactly when it is a trusted token, and for what it says. */
  lemma VerifyMeaning(s: Server, token: string, now: Time, claims: Claims)
    ensures Verify(s, token, now) == Some(claims) <==> Trusted(s, token, now, claims)
  {
    var split := SplitToken(token);
    forall p: Segments ensures split == Some(p) <==> token == Compact(p) && WellFormed(p) { SplitMeaning(token, p); }
    if Verify(s, token, now) == Some(claims) {
      VerifiedParts(s, split.value, token, now, claims);
    }
    if Trusted(s, token, now, claims) {
      var p: Segments :| token == Compact(p) && Authentic(s, p) && Says(s, p, claims, now);
      assert split == Some(p);
    }
  }

  lemma VerifiedParts(s: Server, p: Segments, token: string, now: Time, claims: Claims)
    requires SplitToken(token) == Some(p) && Verify(s, token, now) == Some(claims)
    ensures token == Compact(p) && Authentic(s, p) && Says(s, p, claims, now)
  {
    SplitMeaning(token, p);
    var header, payload := Decode(RAW_URL, p.header).value, Decode(RAW_URL, p.payload).value;
    assert s.codec.readHeader(header).value.alg == "HS256";
    assert s.codec.readClaims(payload) == Some(claims);
  }

  lemma EncodedSegment(k: seq<Byte>)
    requires k != []
    ensures Segment(Encode(RAW_URL, k)) && Decode(RAW_URL, Encode(RAW_URL, k)) == Some(k)
  {
    EncodeIsClean(RAW_URL, k);
    RoundTrip(RAW_URL, k);
  }

  /** What one server minted, another accepts exactly when they share the signature, the issuer and the resource,
      the token names a tenant, and its deadline, in whole seconds, is to come; it then reads the minted claims. */
  lemma MintThenVerify(minter: Server, verifier: Server, tenantID: string, clientID: string, n: Time, jti: string,
      m: Time)
    requires Sound(minter) && Sound(verifier) && minter.codec == verifier.codec
    ensures var claims, input :=
            ClaimsFor(minter, tenantID, clientID, n, jti), SigningInput(minter, tenantID, clientID, n, jti);
            Verify(verifier, Mint(minter, tenantID, clientID, n, jti), m) ==
            if && minter.mac(input) == verifier.mac(input) && minter.issuer == verifier.issuer
                && minter.resource == verifier.resource
               && tenantID != "" && claims.expiresAt != 0 && m < Instant(claims.expiresAt)
            then Some(claims) else None
  {
    var codec, claims := minter.codec, ClaimsFor(minter, tenantID, clientID, n, jti);
    assert codec.readHeader(codec.header(HEADER)) == Some(HEADER)
        && codec.readClaims(codec.claims(claims)) == Some(claims);
    EncodedSegment(codec.header(HEADER));
    EncodedSegment(codec.claims(claims));
    var input := SigningInput(minter, tenantID, clientID, n, jti);
    EncodedSegment(minter.mac(input));
    SplitCompact(Segments(Encode(RAW_URL, codec.header(HEADER)), Encode(RAW_URL, codec.claims(claims)),
        Encode(RAW_URL, minter.mac(input))));
  }

  /** What a minted token is read as: who minted it and for what, for which tenant and client, when to the second,
      and under which identifier. */
  lemma MintedSays(minter: Server, verifier: Server, tenantID: string, clientID: string, n: Time, jti: string, m: Time)
    requires Sound(minter) && Sound(verifier) && minter.codec == verifier.codec
    ensures var read := Verify(verifier, Mint(minter, tenantID, clientID, n, jti), m);
            read.Some? ==>
              && read.value.issuer == minter.issuer && read.value.audience == minter.resource
              && read.value.subject == tenantID && read.value.clientID == clientID && read.value.jti == jti
              && Instant(read.value.issuedAt) <= n < Instant(read.value.issuedAt) + SECOND
              && m < Instant(read.value.expiresAt) <= n + minter.accessTokenTTL
  {
    MintThenVerify(minter, verifier, tenantID, clientID, n, jti, m);
    FloorLoss(n);
    FloorLoss(n + minter.accessTokenTTL);
  }

  // ----- lifetime -----

  predicate Accepts(s: Server, tenantID: string, clientID: string, n: Time, jti: string, m: Time) {
    Verify(s, Mint(s, tenantID, clientID, n, jti), m).Some?
  }

  /** The deadline a token minted at n carries. */
  function Deadline(s: Server, n: Time): Time { Instant(Unix(n + s.accessTokenTTL)) }

  /** A server accepts its own tokens of a tenant while their clock says so, and no others. */
  predicate Alive(expiresAt: int, m: Time) { expiresAt != 0 && m < Instant(expiresAt) }

  lemma AcceptsWhileAlive(s: Server, tenantID: string, clientID: string, n: Time, jti: string, m: Time, claims: Claims)
    requires Sound(s) && tenantID != "" && claims == ClaimsFor(s, tenantID, clientID, n, jti)
    ensures Accepts(s, tenantID, clientID, n, jti, m) <==> Alive(claims.expiresAt, m)
  {
    MintThenVerify(s, s, tenantID, clientID, n, jti, m);
  }

  lemma VerifiesWhileAlive(s: Server, tenantID: string, clientID: string, n: Time, jti: string, m: Time)
    requires Sound(s) && tenantID != "" && Alive(Unix(n + s.accessTokenTTL), m)
    ensures Verify(s, Mint(s, tenantID, clientID, n, jti), m) == Some(ClaimsFor(s, tenantID, clientID, n, jti))
  {
    MintThenVerify(s, s, tenantID, clientID, n, jti, m);
  }

  lemma AliveUntil(s: Server, n: Time, m: Time)
    requires Deadline(s, n) != 0
    ensures Alive(Unix(n + s.accessTokenTTL), m) <==> m < Deadline(s, n)
  {
  }

  lemma AcceptsUntil(s: Server, tenantID: string, clientID: string, n: Time, jti: string, m: Time)
    requires Sound(s) && tenantID != "" && Deadline(s, n) != 0
    ensures Accepts(s, tenantID, clientID, n, jti, m) <==> m < Deadline(s, n)
  {
    AliveUntil(s, n, m);
    AcceptsWhileAlive(s, tenantID, clientID, n, jti, m, ClaimsFor(s, tenantID, clientID, n, jti));
  }

  /** A token minted at n for a lifetime T is good for exactly as long as the whole seconds of n + T last: from n
      through n + T - 1s, and at no instant from n + T on. */
  lemma ExactLifetime(s: Server, tenantID: string, clientID: string, n: Time, jti: string, m: Time)
    requires Sound(s) && tenantID != "" && Deadline(s, n) != 0
    ensures Accepts(s, tenantID, clientID, n, jti, m) <==> m < Deadline(s, n)
    ensures n + s.accessTokenTTL - SECOND < Deadline(s, n) <= n + s.accessTokenTTL
  {
    AcceptsUntil(s, tenantID, clientID, n, jti, m);
    FloorLoss(n + s.accessTokenTTL);
  }

  /** The seconds left at n', cut toward zero. */
  function ExpiresIn(expiry: Time, n': Time): int {
    if expiry >= n' then Unix(expiry - n') else -Unix(n' - expiry)
  }

  /** The clock is further into its second at one instant than at the other. */
  predicate FurtherInSecond(t: Time, u: Time) { t - Instant(Unix(t)) > u - Instant(Unix(u)) }

  /** A token answered at n' still verifies one second before the announced expires_in is over. */
  lemma AnnouncedLifetime(s: Server, tenantID: string, clientID: string, n: Time, jti: string, n': Time)
    requires Sound(s) && tenantID != "" && Deadline(s, n) != 0 && n <= n' <= n + s.accessTokenTTL
    ensures Accepts(s, tenantID, clientID, n, jti, n' + Instant(ExpiresIn(n + s.accessTokenTTL, n') - 1))
  {
    Announced(n + s.accessTokenTTL, n');
    AcceptsUntil(s, tenantID, clientID, n, jti, n' + Instant(ExpiresIn(n + s.accessTokenTTL, n') - 1));
  }

  /** It verifies to the end of expires_in exactly when the clock at n' was further into its second than the
      deadline is into its own. */
  lemma AnnouncedToTheEnd(s: Server, tenantID: string, clientID: string, n: Time, jti: string, n': Time, end: Time)
    requires Sound(s) && tenantID != "" && Deadline(s, n) != 0 && n <= n' <= n + s.accessTokenTTL
    requires end == n' + Instant(ExpiresIn(n + s.accessTokenTTL, n'))
    ensures Accepts(s, tenantID, clientID, n, jti, end) <==> FurtherInSecond(n', n + s.accessTokenTTL)
  {
    AcceptsUntil(s, tenantID, clientID, n, jti, end);
    EndsBefore(s, n, n', end);
  }

  lemma EndsBefore(s: Server, n: Time, n': Time, end: Time)
    requires n' <= n + s.accessTokenTTL && end == n' + Instant(ExpiresIn(n + s.accessTokenTTL, n'))
    ensures end < Deadline(s, n) <==> FurtherInSecond(n', n + s.accessTokenTTL)
  {
    Announced(n + s.accessTokenTTL, n');
  }

  lemma Announced(expiry: Time, n': Time)
    requires n' <= expiry
    ensures n' + Instant(ExpiresIn(expiry, n') - 1) < Instant(Unix(expiry))
    ensures n' + Instant(ExpiresIn(expiry, n')) < Instant(Unix(expiry)) <==> FurtherInSecond(n', expiry)
  {
  }
}

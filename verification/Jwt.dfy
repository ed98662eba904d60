/** Signed tokens in JWS compact form: signing, verifying, and what verifying recovers. */
module Jwt {
  import opened Tables
  import opened Text
  import opened Base64Url

  /** JSON values; numbers are the integers that tokens carry. */
  datatype Json =
    | JNull
    | JBool(b: bool)
    | JNumber(n: int)
    | JString(s: string)
    | JArray(items: seq<Json>)
    | JObject(fields: map<string, Json>)

  type Claims = map<string, Json>

  /** What Node provides: JSON text, base64 decoding, RSA over PEM keys, hashing, and case mapping. */
  datatype Platform = Platform(
    stringify: Json -> seq<Byte>,
    parse: seq<Byte> -> Option<Json>,
    fromBase64: string -> seq<Byte>,
    sign: (string, string) -> seq<Byte>,
    check: (string, string, seq<Byte>) -> bool,
    isKeyPair: (string, string) -> bool,
    sha256Hex: string -> string,
    sha256Base64Url: string -> string,
    verifySecret: (string, string) -> bool,
    toLowerCase: string -> string,
    toUpperCase: string -> string)

  /** Parsing inverts printing, decoding inverts encoding, and a key pair accepts its signatures. */
  ghost predicate Sound(p: Platform) {
    && (forall j :: p.parse(p.stringify(j)) == Some(j) && p.stringify(j) != [])
    && (forall b: seq<Byte> :: p.fromBase64(Encode(b)) == b)
    && (forall priv, pub, input :: p.isKeyPair(priv, pub) ==> p.check(pub, input, p.sign(priv, input)))
    && (forall priv, input :: p.sign(priv, input) != [])
  }

  datatype RsaJwtSigner = RsaJwtSigner(keyId: string, issuer: string, privateKey: string, publicKey: string)

  datatype SignOptions = SignOptions(audience: string, subject: string, expiresInSeconds: int, claims: Claims)

  /** `tokenUse` lists the accepted uses; a single accepted use is a list of one. */
  datatype VerifyOptions = VerifyOptions(audience: Option<string>, issuer: Option<string>, tokenUse: Option<seq<string>>)

  datatype VerifiedJwt = VerifiedJwt(header: Claims, payload: Claims)

  /** `Math.floor(ms / 1000)`. */
  function Seconds(ms: int): int {
    ms / 1000
  }

  function Header(keyId: string): Claims {
    map["alg" := JString("RS256"), "typ" := JString("JWT"), "kid" := JString(keyId)]
  }

  function Payload(issuer: string, options: SignOptions, now: int): Claims {
    map["iss" := JString(issuer),
        "aud" := JString(options.audience),
        "sub" := JString(options.subject),
        "iat" := JNumber(Seconds(now)),
        "exp" := JNumber(Seconds(now) + options.expiresInSeconds)] + options.claims
  }

  function SigningInput(p: Platform, keyId: string, payload: Claims): string {
    Base64UrlEncode(p.stringify(JObject(Header(keyId)))) + "." + Base64UrlEncode(p.stringify(JObject(payload)))
  }

  function SignPayload(p: Platform, signer: RsaJwtSigner, payload: Claims): string {
    var input := SigningInput(p, signer.keyId, payload);
    input + "." + Base64UrlEncode(p.sign(signer.privateKey, input))
  }

  function Sign(p: Platform, signer: RsaJwtSigner, options: SignOptions, now: int): string {
    SignPayload(p, signer, Payload(signer.issuer, options, now))
  }

  /** `parseBase64UrlJson`; reading a property of `null` throws, of any other non-object finds nothing. */
  function ParsePart(p: Platform, part: string): Result<Claims> {
    match p.parse(p.fromBase64(ToBase64(part)))
    case None => Err("SyntaxError")
    case Some(JNull) => Err("TypeError")
    case Some(JObject(fields)) => Ok(fields)
    case Some(_) => Ok(map[])
  }

  function Claim(claims: Claims, name: string): Option<Json> {
    if name in claims then Some(claims[name]) else None
  }

  /** `[...].includes(value)` on a claim that is one value or an array of values. */
  predicate ClaimIncludes(claim: Option<Json>, value: string) {
    match claim
    case Some(JArray(items)) => JString(value) in items
    case _ => claim == Some(JString(value))
  }

  function Decimal(n: nat): string {
    var digit := [(('0' as int) + n % 10) as char];
    if n < 10 then digit else Decimal(n / 10) + digit
  }

  /** `String(value)`. */
  function JsString(j: Json): string {
    match j
    case JNull => "null"
    case JBool(b) => if b then "true" else "false"
    case JNumber(n) => if n < 0 then "-" + Decimal(-n) else Decimal(n)
    case JString(s) => s
    case JArray(items) => JsJoin(items)
    case JObject(_) => "[object Object]"
  }

  /** `items.join(',')`, which prints `null` as nothing. */
  function JsJoin(items: seq<Json>): string {
    if items == [] then ""
    else
      var head := if items[0].JNull? then "" else JsString(items[0]);
      if |items| == 1 then head else head + "," + JsJoin(items[1..])
  }

  /** `String(payload.token_use ?? '')`. */
  function TokenUse(payload: Claims): string {
    match Claim(payload, "token_use")
    case None => ""
    case Some(JNull) => ""
    case Some(j) => JsString(j)
  }

  predicate Expired(payload: Claims, now: int) {
    match Claim(payload, "exp")
    case Some(JNumber(n)) => n != 0 && n <= Seconds(now)
    case _ => false
  }

  /** `validateJwtPayload`: the first failing check, if any. */
  function ValidatePayload(payload: Claims, options: VerifyOptions, now: int): Option<string> {
    if Expired(payload, now) then Some("token_expired")
    else if Truthy(options.issuer) && Claim(payload, "iss") != Some(JString(options.issuer.value)) then Some("invalid_issuer")
    else if Truthy(options.audience) && !ClaimIncludes(Claim(payload, "aud"), options.audience.value) then Some("invalid_audience")
    else if options.tokenUse.Some? && TokenUse(payload) !in options.tokenUse.value then Some("invalid_token_use")
    else None
  }

  function Verify(p: Platform, keyId: string, publicKey: string, token: string, options: VerifyOptions,
                  now: int): Result<VerifiedJwt> {
    var parts := Split(token, '.');
    if |parts| < 3 || parts[0] == "" || parts[1] == "" || parts[2] == "" then Err("invalid_token_format")
    else
      var header := ParsePart(p, parts[0]);
      if header.Err? then Err(header.error)
      else if Claim(header.value, "alg") != Some(JString("RS256")) then Err("invalid_token_algorithm")
      else if Claim(header.value, "typ") != Some(JString("JWT")) then Err("invalid_token_type")
      else if Claim(header.value, "kid") != Some(JString(keyId)) then Err("invalid_token_key")
      else if !p.check(publicKey, parts[0] + "." + parts[1], p.fromBase64(ToBase64(parts[2]))) then Err("invalid_token_signature")
      else
        var payload := ParsePart(p, parts[1]);
        if payload.Err? then Err(payload.error)
        else
          var failure := ValidatePayload(payload.value, options, now);
          if failure.Some? then Err(failure.value) else Ok(VerifiedJwt(header.value, payload.value))
  }

  lemma PartParses(p: Platform, fields: Claims)
    requires Sound(p)
    ensures ParsePart(p, Base64UrlEncode(p.stringify(JObject(fields)))) == Ok(fields)
  {
    UrlRoundTrip(p.stringify(JObject(fields)));
  }

  /** The three parts of a signed token are the ones that were joined, and none is empty. */
  lemma SignedParts(p: Platform, signer: RsaJwtSigner, payload: Claims)
    requires Sound(p)
    ensures var parts := Split(SignPayload(p, signer, payload), '.');
            && |parts| == 3
            && parts[0] == Base64UrlEncode(p.stringify(JObject(Header(signer.keyId)))) != ""
            && parts[1] == Base64UrlEncode(p.stringify(JObject(payload))) != ""
            && parts[0] + "." + parts[1] == SigningInput(p, signer.keyId, payload)
            && parts[2] == Base64UrlEncode(p.sign(signer.privateKey, SigningInput(p, signer.keyId, payload))) != ""
  {
    var h := p.stringify(JObject(Header(signer.keyId)));
    var b := p.stringify(JObject(payload));
    var input := SigningInput(p, signer.keyId, payload);
    var g := p.sign(signer.privateKey, input);
    UrlRoundTrip(h);
    UrlRoundTrip(b);
    UrlRoundTrip(g);
    SplitThree(Base64UrlEncode(h), Base64UrlEncode(b), Base64UrlEncode(g));
  }

  lemma SplitThree(a: string, b: string, c: string)
    requires '.' !in a && '.' !in b && '.' !in c
    ensures Split(a + "." + b + "." + c, '.') == [a, b, c]
  {
    assert a + "." + b + "." + c == a + ['.'] + (b + ['.'] + c);
    SplitAppend(a, b + ['.'] + c, '.');
    SplitAppend(b, c, '.');
  }

  /**
   * Verifying with the matching public key recovers from a signed token the very header and payload
   * that were signed; the only way to fail is a claim check on that payload.
   */
  lemma VerifyRecovers(p: Platform, signer: RsaJwtSigner, payload: Claims, publicKey: string, options: VerifyOptions,
                       now: int)
    requires Sound(p) && p.isKeyPair(signer.privateKey, publicKey)
    ensures Verify(p, signer.keyId, publicKey, SignPayload(p, signer, payload), options, now)
            == match ValidatePayload(payload, options, now)
               case Some(failure) => Err(failure)
               case None => Ok(VerifiedJwt(Header(signer.keyId), payload))
  {
    SignedParts(p, signer, payload);
    PartParses(p, Header(signer.keyId));
    PartParses(p, payload);
    UrlRoundTrip(p.sign(signer.privateKey, SigningInput(p, signer.keyId, payload)));
  }

  /** Different payloads never give the same token. */
  lemma SignInjective(p: Platform, a: RsaJwtSigner, b: RsaJwtSigner, x: Claims, y: Claims)
    requires Sound(p) && SignPayload(p, a, x) == SignPayload(p, b, y)
    ensures x == y && a.keyId == b.keyId
  {
    SignedParts(p, a, x);
    SignedParts(p, b, y);
    PartParses(p, x);
    PartParses(p, y);
    PartParses(p, Header(a.keyId));
    PartParses(p, Header(b.keyId));
    assert Header(a.keyId)["kid"] == Header(b.keyId)["kid"];
  }
}

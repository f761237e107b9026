/**
 * The session token of src/lib/auth/session.ts: a JWS compact serialisation
 * (section 7.1 of RFC 7515) `header.payload.signature` whose signature is
 * HMAC-SHA256 (HS256, section 3.2 of RFC 7518) over `header.payload`, every part
 * base64url-encoded. JSON and base64url encoding and the HMAC are parameters;
 * the time is a parameter in milliseconds, as `Date.now()` gives it.
 */
module Session {
  import opened Common
  import opened AuthEnv

  /** `base64url(JSON.stringify({alg: 'HS256', typ: 'JWT'}))`, the same for every token. */
  const HeaderPart := "eyJhbGciOiJIUzI1NiIsInR5cCI6IkpXVCJ9"

  datatype SessionPayload = SessionPayload(sub: string, methods: seq<string>, iat: int, exp: int, jti: string)

  /**
   * A parsed payload as far as the verifiers look at it: `methods` is `None` when it is
   * not an array, `exp` is `None` when it is missing or not a number (a comparison
   * with it is then false, so it never counts as expired).
   */
  datatype Claims = Claims(sub: Option<string>, methods: Option<seq<string>>, iat: Option<int>, exp: Option<int>, jti: Option<string>)

  function ClaimsOf(p: SessionPayload): Claims {
    Claims(Some(p.sub), Some(p.methods), Some(p.iat), Some(p.exp), Some(p.jti))
  }

  /**
   * The encoders the module calls: a payload to its base64url JSON, a payload part back
   * to a parsed object (`None` when parsing throws), and the base64url HMAC-SHA256 of a
   * message under a secret.
   */
  datatype Codec = Codec(
    encodePayload: SessionPayload -> string,
    decodePayload: string -> Option<Claims>,
    sign: (string, string) -> string)

  /** What the encoders guarantee: base64url has no '.', and decoding an encoded payload gives it back. */
  ghost predicate Coherent(codec: Codec) {
    && (forall p :: '.' !in codec.encodePayload(p))
    && (forall secret, m :: '.' !in codec.sign(secret, m))
    && (forall p :: codec.decodePayload(codec.encodePayload(p)) == Some(ClaimsOf(p)))
  }

  /** `Math.floor(Date.now() / 1000)` */
  function Seconds(nowMs: int): int {
    nowMs / 1000
  }

  /** The payload `createSessionToken` signs. */
  function NewPayload(methods: seq<string>, nowMs: int, cfg: AuthConfig, jti: string): SessionPayload {
    SessionPayload("owner", methods, Seconds(nowMs), Seconds(nowMs) + cfg.sessionTtlSeconds, jti)
  }

  /** `createSessionToken(methods)` with `jti` the random hex id. */
  function CreateSessionToken(methods: seq<string>, nowMs: int, cfg: AuthConfig, jti: string, codec: Codec): (token: string)
    ensures StartsWith(token, HeaderPart + ".")
  {
    var payloadPart := codec.encodePayload(NewPayload(methods, nowMs, cfg, jti));
    var signature := codec.sign(cfg.sessionSecret, HeaderPart + "." + payloadPart);
    assert (HeaderPart + "." + payloadPart + "." + signature)[..|HeaderPart + "."|] == HeaderPart + ".";
    HeaderPart + "." + payloadPart + "." + signature
  }

  /** `verifySessionToken(token)`: the parsed payload, or `None` for `null`. */
  function VerifySessionToken(token: Option<string>, cfg: AuthConfig, nowMs: int, codec: Codec): Option<Claims> {
    if token.None? || token.value == [] || cfg.sessionSecret == [] then None
    else
      var parts := Split(token.value, '.');
      if |parts| != 3 then None
      else if !SameUtf8(parts[2], codec.sign(cfg.sessionSecret, parts[0] + "." + parts[1])) then None
      else match codec.decodePayload(parts[1])
        case None => None
        case Some(c) =>
          if c.sub != Some("owner") then None
          else if c.methods.None? then None
          else if c.exp.Some? && c.exp.value <= Seconds(nowMs) then None
          else Some(c)
  }

  /**
   * A token is accepted exactly when it is present, the secret is set, it has three
   * parts, the third is the signature of the first two, and the payload parses to an
   * owner session with a method list that has not expired; what comes back is that payload.
   */
  lemma VerifyIff(token: Option<string>, cfg: AuthConfig, nowMs: int, codec: Codec)
    ensures var r := VerifySessionToken(token, cfg, nowMs, codec);
      r.Some? <==>
        && token.Some? && token.value != [] && cfg.sessionSecret != []
        && |Split(token.value, '.')| == 3
        && Split(token.value, '.')[2] == codec.sign(cfg.sessionSecret, Split(token.value, '.')[0] + "." + Split(token.value, '.')[1])
        && codec.decodePayload(Split(token.value, '.')[1]).Some?
        && var c := codec.decodePayload(Split(token.value, '.')[1]).value;
           c.sub == Some("owner") && c.methods.Some? && (c.exp.None? || c.exp.value > Seconds(nowMs))
    ensures var r := VerifySessionToken(token, cfg, nowMs, codec);
      r.Some? ==> r == codec.decodePayload(Split(token.value, '.')[1])
  {
  }

  /**
   * Round trip: a token made now, checked before its lifetime runs out with the same
   * secret, gives back its payload, with the methods it was made for.
   */
  lemma CreateThenVerify(methods: seq<string>, nowMs: int, laterMs: int, cfg: AuthConfig, jti: string, codec: Codec)
    requires Coherent(codec) && cfg.sessionSecret != []
    requires Seconds(laterMs) < Seconds(nowMs) + cfg.sessionTtlSeconds
    ensures VerifySessionToken(Some(CreateSessionToken(methods, nowMs, cfg, jti, codec)), cfg, laterMs, codec)
      == Some(ClaimsOf(NewPayload(methods, nowMs, cfg, jti)))
    ensures VerifySessionToken(Some(CreateSessionToken(methods, nowMs, cfg, jti, codec)), cfg, laterMs, codec).value.methods
      == Some(methods)
  {
    var p := NewPayload(methods, nowMs, cfg, jti);
    var payloadPart := codec.encodePayload(p);
    var signature := codec.sign(cfg.sessionSecret, HeaderPart + "." + payloadPart);
    var token := CreateSessionToken(methods, nowMs, cfg, jti, codec);
    assert '.' !in HeaderPart;
    Join3(HeaderPart, payloadPart, signature, ".");
    SplitJoin([HeaderPart, payloadPart, signature], '.');
  }

  /** Once the lifetime has run out the same token is refused. */
  lemma ExpiredRefused(methods: seq<string>, nowMs: int, laterMs: int, cfg: AuthConfig, jti: string, codec: Codec)
    requires Coherent(codec)
    requires Seconds(laterMs) >= Seconds(nowMs) + cfg.sessionTtlSeconds
    ensures VerifySessionToken(Some(CreateSessionToken(methods, nowMs, cfg, jti, codec)), cfg, laterMs, codec).None?
  {
    var p := NewPayload(methods, nowMs, cfg, jti);
    var payloadPart := codec.encodePayload(p);
    var signature := codec.sign(cfg.sessionSecret, HeaderPart + "." + payloadPart);
    assert '.' !in HeaderPart;
    Join3(HeaderPart, payloadPart, signature, ".");
    SplitJoin([HeaderPart, payloadPart, signature], '.');
  }
}

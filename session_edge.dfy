/**
 * The verifier the route guard runs, src/lib/auth/session-edge.ts. It decodes
 * base64url itself (section 5 of RFC 4648: '-' and '_' back to '+' and '/', then
 * '=' padding to a multiple of four, then `atob`), compares the signature bytes
 * with its own constant-time loop, and checks the header's algorithm but not the
 * payload's method list. `atob`, JSON parsing and HMAC-SHA256 are parameters.
 */
module SessionEdge {
  import opened Common
  import opened AuthEnv
  import opened Session

  /** `value.replace(/-/g, '+').replace(/_/g, '/')` */
  function Normalize(value: string): (r: string)
    ensures |r| == |value| && '-' !in r && '_' !in r
  {
    ReplaceChar(ReplaceChar(value, '-', '+'), '_', '/')
  }

  /** `normalized.padEnd(Math.ceil(normalized.length / 4) * 4, '=')` */
  function Padded(value: string): (r: string) {
    var n := Normalize(value);
    var target := ((|n| + 3) / 4) * 4;
    n + Repeat('=', target - |n|)
  }

  /** The padded text is the normalised text plus fewer than four '=', and its length is a multiple of four. */
  lemma PaddedShape(value: string)
    ensures var k := |Padded(value)| - |value|;
      && 0 <= k < 4
      && Padded(value) == Normalize(value) + Repeat('=', k)
      && |Padded(value)| % 4 == 0
  {
  }

  /** The bytes of a binary string: `bytes[i] = raw.charCodeAt(i)` stored into a `Uint8Array`. */
  function Latin1(raw: string): (r: seq<bv8>)
    ensures |r| == |raw|
  {
    seq(|raw|, i requires 0 <= i < |raw| => ((raw[i] as int) % 256) as bv8)
  }

  /** `decodeBase64Url(value)`; `None` when `atob` throws. */
  function Base64UrlBytes(value: string, atob: string -> Option<string>): Option<seq<bv8>> {
    match atob(Padded(value))
    case None => None
    case Some(raw) => Some(Latin1(raw))
  }

  /** `decodeBase64Url(value)`: fills a byte array from the decoded binary string. */
  method DecodeBase64Url(value: string, atob: string -> Option<string>) returns (r: Option<seq<bv8>>)
    ensures r == Base64UrlBytes(value, atob)
  {
    var normalized := ReplaceChar(ReplaceChar(value, '-', '+'), '_', '/');
    var padded := normalized + Repeat('=', ((|normalized| + 3) / 4) * 4 - |normalized|);
    var decoded := atob(padded);
    if decoded.None? {
      return None;
    }
    var raw := decoded.value;
    var bytes := new bv8[|raw|];
    for i := 0 to |raw|
      invariant forall k :: 0 <= k < i ==> bytes[k] == ((raw[k] as int) % 256) as bv8
    {
      bytes[i] := ((raw[i] as int) % 256) as bv8;
    }
    assert padded == Padded(value);
    assert bytes[..] == Latin1(raw);
    r := Some(bytes[..]);
  }

  /**
   * `isEqual(a, b)`: equal exactly when the lengths and every byte agree; when the
   * lengths agree it looks at every byte, with no early exit.
   */
  method IsEqual(a: seq<bv8>, b: seq<bv8>) returns (equal: bool, ghost scanned: nat)
    ensures equal <==> a == b
    ensures |a| == |b| ==> scanned == |a|
  {
    scanned := 0;
    if |a| != |b| {
      return false, 0;
    }
    var diff: bv8 := 0;
    var i := 0;
    while i < |a|
      invariant 0 <= i <= |a| && scanned == i
      invariant diff == 0 <==> a[..i] == b[..i]
    {
      diff := diff | (a[i] ^ b[i]);
      assert a[..i + 1] == a[..i] + [a[i]] && b[..i + 1] == b[..i] + [b[i]];
      i := i + 1;
      scanned := scanned + 1;
    }
    assert a[..i] == a && b[..i] == b;
    equal := diff == 0;
  }

  /** What the edge verifier can end in: a payload, `null`, or a rejected promise. */
  datatype EdgeResult = EdgeAccepted(claims: Claims) | EdgeRejected | EdgeThrew

  /**
   * The primitives the edge verifier uses: `atob`, JSON parsing of the decoded header
   * (`None` when it throws, else its `alg`), JSON parsing of the decoded payload, and
   * the HMAC-SHA256 bytes of a message under a secret.
   */
  datatype EdgeCrypto = EdgeCrypto(
    atob: string -> Option<string>,
    parseHeader: seq<bv8> -> Option<Option<string>>,
    parsePayload: seq<bv8> -> Option<Claims>,
    hmac: (string, string) -> seq<bv8>)

  /** The `i`-th '.'-part, or "" where `token.split('.')` has none. */
  function Part(token: string, i: nat): string {
    var parts := Split(token, '.');
    if i < |parts| then parts[i] else ""
  }

  /** The header check, all inside the first `try`: it decodes, parses and names HS256. */
  predicate HeaderOk(headerPart: string, crypto: EdgeCrypto) {
    match Base64UrlBytes(headerPart, crypto.atob)
    case None => false
    case Some(bytes) => crypto.parseHeader(bytes) == Some(Some("HS256"))
  }

  /** `verifySessionTokenEdge(token)` */
  function VerifyEdge(token: Option<string>, cfg: AuthConfig, nowMs: int, crypto: EdgeCrypto): EdgeResult {
    if token.None? || token.value == [] || cfg.sessionSecret == [] then EdgeRejected
    else VerifyParts(Part(token.value, 0), Part(token.value, 1), Part(token.value, 2), cfg, nowMs, crypto)
  }

  /** The checks after the split, on the first three parts. */
  function VerifyParts(h: string, p: string, s: string, cfg: AuthConfig, nowMs: int, crypto: EdgeCrypto): EdgeResult {
    if h == [] || p == [] || s == [] then EdgeRejected
    else if !HeaderOk(h, crypto) then EdgeRejected
    else
      var expected := crypto.hmac(cfg.sessionSecret, h + "." + p);
      match Base64UrlBytes(s, crypto.atob)
      case None => EdgeThrew
      case Some(actual) =>
        if actual != expected then EdgeRejected
        else match Base64UrlBytes(p, crypto.atob)
          case None => EdgeRejected
          case Some(bytes) =>
            match crypto.parsePayload(bytes)
            case None => EdgeRejected
            case Some(c) =>
              if c.sub != Some("owner") then EdgeRejected
              else if c.exp.Some? && c.exp.value <= Seconds(nowMs) then EdgeRejected
              else EdgeAccepted(c)
  }

  /**
   * A payload comes back exactly when the token and secret are present, the first three
   * parts are non-empty, the header names HS256, the signature decodes to the HMAC of
   * `header.payload`, and the payload is an owner session that has not expired; its
   * method list is never looked at. Only a signature `atob` cannot decode makes it throw.
   */
  lemma VerifyEdgeIff(token: Option<string>, cfg: AuthConfig, nowMs: int, crypto: EdgeCrypto)
    ensures var r := VerifyEdge(token, cfg, nowMs, crypto);
      r.EdgeAccepted? <==>
        && token.Some? && token.value != [] && cfg.sessionSecret != []
        && var h, p, s := Part(token.value, 0), Part(token.value, 1), Part(token.value, 2);
        && h != [] && p != [] && s != [] && HeaderOk(h, crypto)
        && Base64UrlBytes(s, crypto.atob) == Some(crypto.hmac(cfg.sessionSecret, h + "." + p))
        && Base64UrlBytes(p, crypto.atob).Some?
        && crypto.parsePayload(Base64UrlBytes(p, crypto.atob).value).Some?
        && var c := crypto.parsePayload(Base64UrlBytes(p, crypto.atob).value).value;
           c.sub == Some("owner") && (c.exp.None? || c.exp.value > Seconds(nowMs))
    ensures var r := VerifyEdge(token, cfg, nowMs, crypto);
      r.EdgeThrew? ==> Base64UrlBytes(Part(token.value, 2), crypto.atob).None?
  {
  }

  /** Anything after a third '.' is ignored. */
  lemma ExtraPartsIgnored(token: string, extra: string, cfg: AuthConfig, nowMs: int, crypto: EdgeCrypto)
    requires |Split(token, '.')| >= 3
    ensures VerifyEdge(Some(token + "." + extra), cfg, nowMs, crypto) == VerifyEdge(Some(token), cfg, nowMs, crypto)
  {
    SplitAppend(token, extra, '.');
    var longer := token + "." + extra;
    assert longer == token + ['.'] + extra;
    assert Part(longer, 0) == Part(token, 0) && Part(longer, 1) == Part(token, 1) && Part(longer, 2) == Part(token, 2);

  }
}

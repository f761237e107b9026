/**
 * The owner PIN of src/lib/auth/pin.ts: the format rule, the hash (PBKDF2 with
 * HMAC-SHA256 as in section 5.2 of RFC 8018, 210000 iterations, a 32-byte key,
 * written as lower-case hex) and the comparison against the configured hash.
 * The key derivation is a parameter; the hex encoding is written out.
 */
module Pin {
  import opened Common
  import opened AuthEnv

  const PinIterations := 210000
  const PinKeyLength := 32
  const MinLength := 4
  const MaxLength := 12

  /** A derived key: always `PinKeyLength` bytes. */
  type Key = k: seq<bv8> | |k| == 32 witness seq(32, _ => 0)

  /** `pbkdf2Sync(pin, salt, 210000, 32, 'sha256')`, a deterministic function of the PIN and the salt. */
  type Derive = (string, string) -> Key

  /** `isPinFormatValid(pin)`: `/^\d+$/` and a length from 4 to 12. */
  predicate IsPinFormatValid(pin: string) {
    pin != [] && AllDigits(pin) && MinLength <= |pin| <= MaxLength
  }

  /** Leading or trailing white space never passes, which is why the login route trims first. */
  lemma PinFormatRejectsSpace(pin: string)
    requires pin != [] && (IsSpace(pin[0]) || IsSpace(pin[|pin| - 1]))
    ensures !IsPinFormatValid(pin)
  {
  }

  const HexDigits := "0123456789abcdef"

  /** The two lower-case hex digits of one byte, high nibble first. */
  function HexPair(b: bv8): (r: string)
    ensures |r| == 2 && r[0] in HexDigits && r[1] in HexDigits
  {
    [HexDigits[(b >> 4) as int], HexDigits[(b & 15) as int]]
  }

  /** `buffer.toString('hex')` */
  function Hex(bytes: seq<bv8>): (r: string)
    ensures |r| == 2 * |bytes|
    ensures forall i :: 0 <= i < |r| ==> r[i] in HexDigits
  {
    if bytes == [] then [] else HexPair(bytes[0]) + Hex(bytes[1..])
  }

  /** Different bytes never print alike. */
  lemma HexPairInjective(a: bv8, b: bv8)
    requires HexPair(a) == HexPair(b)
    ensures a == b
  {
    HexValueOf((a >> 4) as int);
    HexValueOf((b >> 4) as int);
    HexValueOf((a & 15) as int);
    HexValueOf((b & 15) as int);
    NibblesDetermine(a, b);
  }

  /** The value of a lower-case hex digit. */
  function HexValue(c: char): int {
    if '0' <= c <= '9' then c as int - '0' as int else c as int - 'a' as int + 10
  }

  lemma HexValueOf(i: int)
    requires 0 <= i < 16
    ensures HexValue(HexDigits[i]) == i
  {
  }

  lemma NibblesDetermine(a: bv8, b: bv8)
    requires (a >> 4) as int == (b >> 4) as int && (a & 15) as int == (b & 15) as int
    ensures a == b
  {
    assert a >> 4 == b >> 4 && a & 15 == b & 15;
  }

  /** Hex encoding is injective: the stored hash determines the key. */
  lemma {:induction false} HexInjective(a: seq<bv8>, b: seq<bv8>)
    requires Hex(a) == Hex(b)
    ensures a == b
  {
    if a != [] {
      assert Hex(a)[..2] == HexPair(a[0]) && Hex(b)[..2] == HexPair(b[0]);
      HexPairInjective(a[0], b[0]);
      assert Hex(a)[2..] == Hex(a[1..]) && Hex(b)[2..] == Hex(b[1..]);
      HexInjective(a[1..], b[1..]);
    }
  }

  /** `hashPin(pin, salt)`: the derived key as 64 lower-case hex digits. */
  function HashPin(derive: Derive, pin: string, salt: string): (h: string)
    ensures |h| == 2 * PinKeyLength
    ensures forall i :: 0 <= i < |h| ==> h[i] in HexDigits
  {
    Hex(derive(pin, salt))
  }

  /** `verifyPin(pin)` against the configured hash and salt. */
  predicate VerifyPin(cfg: AuthConfig, derive: Derive, pin: string) {
    if cfg.pinHash == [] || cfg.pinSalt == [] then false
    else SameUtf8(HashPin(derive, pin, cfg.pinSalt), cfg.pinHash)
  }

  /**
   * The PIN is accepted exactly when hash and salt are configured and the derived key,
   * in hex, is the configured hash; when the configured hash is the hex of some key,
   * exactly when the PIN derives that key.
   */
  lemma VerifyPinIff(cfg: AuthConfig, derive: Derive, pin: string)
    ensures VerifyPin(cfg, derive, pin) <==>
      cfg.pinHash != [] && cfg.pinSalt != [] && HashPin(derive, pin, cfg.pinSalt) == cfg.pinHash
    ensures forall k: Key :: cfg.pinHash == Hex(k) && cfg.pinSalt != [] ==>
      (VerifyPin(cfg, derive, pin) <==> derive(pin, cfg.pinSalt) == k)
  {
    forall k: Key | cfg.pinHash == Hex(k) && cfg.pinSalt != [] && VerifyPin(cfg, derive, pin)
      ensures derive(pin, cfg.pinSalt) == k
    {
      HexInjective(derive(pin, cfg.pinSalt), k);
    }
  }

  /** A configured hash that is not 64 hex digits accepts no PIN at all. */
  lemma MalformedHashRejectsAll(cfg: AuthConfig, derive: Derive, pin: string)
    requires |cfg.pinHash| != 64 || exists i :: 0 <= i < |cfg.pinHash| && cfg.pinHash[i] !in HexDigits
    ensures !VerifyPin(cfg, derive, pin)
  {
  }
}

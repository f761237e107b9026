/**
 * The owner-authentication settings of src/lib/auth/env.ts: each value read from
 * the environment with its default, the numeric parser behind the three numeric
 * settings, and the start-up assertion that names every missing required value.
 */
module AuthEnv {
  import opened Common

  /**
   * What `Number(s)` gives: a finite value or one of NaN and the infinities. The
   * conversion itself is a parameter; fractional values are not modelled.
   */
  datatype JsNumber = Finite(value: int) | NotFinite

  /** `parseNumberEnv(value, fallback)` */
  function ParseNumberEnv(value: Option<string>, fallback: int, number: string -> JsNumber): int {
    if value.None? || value.value == [] then fallback
    else match number(value.value)
      case Finite(v) => v
      case NotFinite => fallback
  }

  /** The fallback stands for a missing or empty value and for anything that is not a finite number. */
  lemma ParseNumberEnvCases(value: Option<string>, fallback: int, number: string -> JsNumber)
    ensures ParseNumberEnv(value, fallback, number) != fallback ==>
      value.Some? && value.value != [] && number(value.value) == Finite(ParseNumberEnv(value, fallback, number))
    ensures value.Some? && value.value != [] && number(value.value).Finite? ==>
      ParseNumberEnv(value, fallback, number) == number(value.value).value
  {
  }

  datatype AuthConfig = AuthConfig(
    sessionSecret: string, pinSalt: string, pinHash: string,
    webAuthnRpId: string, webAuthnOrigin: string, webAuthnRpName: string,
    pinMaxAttempts: int, pinLockMs: int, sessionTtlSeconds: int)

  function Lookup(env: map<string, string>, name: string): Option<string> {
    if name in env then Some(env[name]) else None
  }

  /** `process.env.NAME || d` */
  function StringOr(env: map<string, string>, name: string, d: string): string {
    if name in env && env[name] != [] then env[name] else d
  }

  /** `authConfig`, read from the environment. */
  function LoadConfig(env: map<string, string>, number: string -> JsNumber): AuthConfig {
    AuthConfig(
      StringOr(env, "AUTH_SESSION_SECRET", ""),
      StringOr(env, "AUTH_PIN_SALT", ""),
      StringOr(env, "AUTH_PIN_HASH", ""),
      StringOr(env, "AUTH_WEBAUTHN_RP_ID", ""),
      StringOr(env, "AUTH_WEBAUTHN_ORIGIN", ""),
      StringOr(env, "AUTH_WEBAUTHN_RP_NAME", "Biller"),
      ParseNumberEnv(Lookup(env, "AUTH_PIN_MAX_ATTEMPTS"), 5, number),
      ParseNumberEnv(Lookup(env, "AUTH_PIN_LOCK_MS"), 15 * 60 * 1000, number),
      ParseNumberEnv(Lookup(env, "AUTH_SESSION_TTL_SECONDS"), 60 * 60 * 8, number))
  }

  /** An empty environment gives five attempts, a fifteen-minute lock, eight-hour sessions and the name Biller. */
  lemma DefaultConfig(number: string -> JsNumber)
    ensures LoadConfig(map[], number) == AuthConfig("", "", "", "", "", "Biller", 5, 900000, 28800)
  {
  }

  /** The five values `assertAuthEnv` requires, by name, in the order it checks them. */
  const RequiredNames: seq<string> :=
    ["AUTH_SESSION_SECRET", "AUTH_PIN_SALT", "AUTH_PIN_HASH", "AUTH_WEBAUTHN_RP_ID", "AUTH_WEBAUTHN_ORIGIN"]

  function RequiredValues(c: AuthConfig): (r: seq<string>)
    ensures |r| == |RequiredNames|
  {
    [c.sessionSecret, c.pinSalt, c.pinHash, c.webAuthnRpId, c.webAuthnOrigin]
  }

  /** The positions from `from` on whose value is empty, in increasing order. */
  function EmptyFrom(values: seq<string>, from: nat): (r: seq<nat>)
    requires from <= |values|
    ensures forall k :: 0 <= k < |r| ==> from <= r[k] < |values| && values[r[k]] == []
    ensures forall i :: from <= i < |values| && values[i] == [] ==> i in r
    ensures forall a, b :: 0 <= a < b < |r| ==> r[a] < r[b]
    decreases |values| - from
  {
    if from == |values| then []
    else
      var rest := EmptyFrom(values, from + 1);
      if values[from] == [] then [from] + rest else rest
  }

  /** `required.filter(([, value]) => !value).map(([key]) => key)` */
  function Missing(c: AuthConfig): seq<string> {
    var idx := EmptyFrom(RequiredValues(c), 0);
    seq(|idx|, k requires 0 <= k < |idx| => RequiredNames[idx[k]])
  }

  /** A required name is listed exactly when its value is empty. */
  lemma MissingNames(c: AuthConfig)
    ensures forall i :: 0 <= i < |RequiredNames| ==> (RequiredNames[i] in Missing(c) <==> RequiredValues(c)[i] == [])
  {
    var idx := EmptyFrom(RequiredValues(c), 0);
    var r := Missing(c);
    RanksDistinct();
    forall i | 0 <= i < |RequiredNames| && RequiredNames[i] in r
      ensures RequiredValues(c)[i] == []
    {
      var k :| 0 <= k < |r| && r[k] == RequiredNames[i];
      assert Rank(r[k]) == i && Rank(r[k]) == idx[k];
    }
    forall i | 0 <= i < |RequiredNames| && RequiredValues(c)[i] == []
      ensures RequiredNames[i] in r
    {
      var k :| 0 <= k < |idx| && idx[k] == i;
      assert r[k] == RequiredNames[i];
    }
  }

  /** Only required names are listed, in the order `assertAuthEnv` checks them. */
  lemma MissingOrdered(c: AuthConfig)
    ensures forall x :: x in Missing(c) ==> x in RequiredNames
    ensures forall a, b :: 0 <= a < b < |Missing(c)| ==> Rank(Missing(c)[a]) < Rank(Missing(c)[b])
  {
    var idx := EmptyFrom(RequiredValues(c), 0);
    var r := Missing(c);
    RanksDistinct();
    assert forall k :: 0 <= k < |idx| ==> Rank(r[k]) == idx[k];
  }

  /** Nothing is listed exactly when all five values are set. */
  lemma MissingEmptyIff(c: AuthConfig)
    ensures Missing(c) == [] <==> forall i :: 0 <= i < |RequiredNames| ==> RequiredValues(c)[i] != []
  {
    var idx := EmptyFrom(RequiredValues(c), 0);
    if Missing(c) != [] {
      assert RequiredValues(c)[idx[0]] == [];
    }
  }

  /** The position of a required name in the fixed order (5 for any other name). */
  function Rank(name: string): nat {
    if name == RequiredNames[0] then 0
    else if name == RequiredNames[1] then 1
    else if name == RequiredNames[2] then 2
    else if name == RequiredNames[3] then 3
    else if name == RequiredNames[4] then 4
    else 5
  }

  lemma RanksDistinct()
    ensures forall i :: 0 <= i < |RequiredNames| ==> Rank(RequiredNames[i]) == i
  {
  }

  const MissingPrefix := "Missing required auth env vars: "

  /**
   * `assertAuthEnv()`: no error exactly when all five values are set; otherwise the
   * message names every missing one, in the fixed order.
   */
  function AssertAuthEnv(c: AuthConfig): (r: Option<string>)
    ensures r.None? <==> forall i :: 0 <= i < |RequiredNames| ==> RequiredValues(c)[i] != []
    ensures r.Some? ==> r.value == MissingPrefix + Join(Missing(c), ", ")
  {
    MissingEmptyIff(c);
    var missing := Missing(c);
    if |missing| > 0 then Some(MissingPrefix + Join(missing, ", ")) else None
  }

  /** Once `assertAuthEnv()` passes, each of the five required values is set. */
  lemma ReadyValues(c: AuthConfig)
    requires AssertAuthEnv(c).None?
    ensures c.sessionSecret != [] && c.pinSalt != [] && c.pinHash != []
    ensures c.webAuthnRpId != [] && c.webAuthnOrigin != []
  {
    assert RequiredValues(c)[0] != [] && RequiredValues(c)[1] != [] && RequiredValues(c)[2] != [];
    assert RequiredValues(c)[3] != [] && RequiredValues(c)[4] != [];
  }
}

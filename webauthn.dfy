/**
 * The fingerprint (WebAuthn) endpoints under src/app/api/auth/webauthn/ and the
 * session status endpoint. Registration (section 7.1 of the W3C Web Authentication
 * Level 2 recommendation) and sign-in (section 7.2) share one challenge slot in the
 * auth state, valid for five minutes. The library calls that generate challenges
 * and verify responses are parameters; so are the session the cookie carries, the
 * clock and base64url encoding.
 */
module WebAuthn {
  import opened Common
  import opened AuthEnv
  import opened RateLimit
  import opened Session
  import opened AuthStates

  const ChallengeTtlMs := 5 * 60 * 1000
  const TimeoutMs := 60000
  const LoginRateMax := 30
  const LoginWindowMs := 5 * 60 * 1000

  /** `{ id, transports }`, one entry of `excludeCredentials` or `allowCredentials`. */
  datatype Descriptor = Descriptor(id: string, transports: seq<string>)

  /** The arguments given to `generateRegistrationOptions`, and the challenge it made. */
  datatype RegistrationOptions = RegistrationOptions(
    rpName: string, rpId: string, userName: string, timeout: int, attestationType: string,
    authenticatorAttachment: string, userVerification: string, residentKey: string,
    excludeCredentials: seq<Descriptor>, challenge: string)

  /** The arguments given to `generateAuthenticationOptions`, and the challenge it made. */
  datatype AuthenticationOptions = AuthenticationOptions(
    rpId: string, userVerification: string, timeout: int, allowCredentials: seq<Descriptor>, challenge: string)

  /** The answers: 500, 401, 429, 400, and 200 with options, a success flag, or a session cookie holding `token`. */
  datatype Reply =
    | ServerError(message: string)
    | Unauthorized(error: string)
    | TooManyAttempts(retryAfterSeconds: int)
    | BadRequest(error: string)
    | RegistrationChallenge(registration: RegistrationOptions)
    | AuthenticationChallenge(authentication: AuthenticationOptions)
    | Registered
    | SignedIn(token: string)

  function Status(r: Reply): int {
    match r
    case ServerError(_) => 500
    case Unauthorized(_) => 401
    case TooManyAttempts(_) => 429
    case BadRequest(_) => 400
    case _ => 200
  }

  /** `error.message || fallback` */
  function OrElse(message: string, fallback: string): string {
    if message == [] then fallback else message
  }

  /** The WebAuthn part of the auth state: the challenge slot and the credentials. */
  datatype Slot = Slot(challenge: Option<string>, expiresAt: Option<int>, credentials: seq<Credential>)

  /** `!authState.currentChallenge || !authState.challengeExpiresAt` fails. */
  predicate HasChallenge(st: Slot) {
    st.challenge.Some? && st.challenge.value != [] && st.expiresAt.Some?
  }

  /** The stored credentials as descriptors, `id` and `transports` each. */
  function Descriptors(creds: seq<Credential>): (r: seq<Descriptor>)
    ensures |r| == |creds|
    ensures forall i :: 0 <= i < |creds| ==> r[i].id == creds[i].credentialId && r[i].transports == creds[i].transports
  {
    seq(|creds|, i requires 0 <= i < |creds| => Descriptor(creds[i].credentialId, creds[i].transports))
  }

  /** A slot holding a fresh challenge for five minutes, over the same credentials. */
  function Issue(st: Slot, challenge: string, now: int): Slot {
    st.(challenge := Some(challenge), expiresAt := Some(now + ChallengeTtlMs))
  }

  // ---- register/options ----

  function RegistrationOptionsFor(cfg: AuthConfig, creds: seq<Credential>, challenge: string): RegistrationOptions {
    RegistrationOptions(cfg.webAuthnRpName, cfg.webAuthnRpId, "owner", TimeoutMs, "none",
                        "platform", "required", "preferred", Descriptors(creds), challenge)
  }

  /** `POST` of register/options: the slot afterwards and the reply. */
  function RegisterOptionsRoute(cfg: AuthConfig, session: Option<Claims>, now: int, challenge: string, st: Slot): (Slot, Reply) {
    match AssertAuthEnv(cfg)
    case Some(message) => (st, ServerError(message))
    case None =>
      if session.None? then (st, Unauthorized("Unauthorized"))
      else (Issue(st, challenge, now), RegistrationChallenge(RegistrationOptionsFor(cfg, st.credentials, challenge)))
  }

  /**
   * Options come back only to a signed-in owner with a complete configuration; they ask
   * for a platform authenticator with user verification and exclude every enrolled
   * credential, in stored order. Only the challenge slot is written, and only then.
   */
  lemma RegisterOptionsFacts(cfg: AuthConfig, session: Option<Claims>, now: int, challenge: string, st: Slot)
    ensures var (ns, r) := RegisterOptionsRoute(cfg, session, now, challenge, st);
      && ns.credentials == st.credentials
      && (r.RegistrationChallenge? <==> AssertAuthEnv(cfg).None? && session.Some?)
      && (AssertAuthEnv(cfg).None? && session.None? ==> r == Unauthorized("Unauthorized") && ns == st)
      && (r.RegistrationChallenge? ==>
            && ns == Slot(Some(challenge), Some(now + ChallengeTtlMs), st.credentials)
            && r.registration.authenticatorAttachment == "platform" && r.registration.userVerification == "required"
            && |r.registration.excludeCredentials| == |st.credentials|
            && (forall i :: 0 <= i < |st.credentials| ==> r.registration.excludeCredentials[i].id == st.credentials[i].credentialId)
            && r.registration.challenge == challenge)
      && (!r.RegistrationChallenge? ==> ns == st)
  {
  }

  // ---- register/verify ----

  /** What the registration verifier is told to expect. */
  datatype Expectation = Expectation(challenge: string, origin: string, rpId: string, requireUserVerification: bool)

  /** A binary value that the library may hand over as text or as bytes. */
  datatype Blob = Text(text: string) | Binary(bytes: seq<bv8>)

  function AsText(b: Blob, toBase64Url: seq<bv8> -> string): string {
    match b
    case Text(t) => t
    case Binary(bytes) => toBase64Url(bytes)
  }

  /** `registrationInfo.credential`, or the older top-level fields. */
  datatype NewCredential = NewCredential(id: Blob, publicKey: Blob, counter: Option<int>, transports: Option<seq<string>>)

  datatype RegistrationInfo = RegistrationInfo(
    credential: Option<NewCredential>,
    credentialId: Blob, credentialPublicKey: Blob, counter: Option<int>, transports: Option<seq<string>>,
    credentialDeviceType: Option<string>, credentialBackedUp: Option<bool>)

  /** What `verifyRegistrationResponse` does: it throws, or reports `verified` and maybe `registrationInfo`. */
  datatype RegistrationOutcome = RegistrationThrew(message: string) | RegistrationChecked(verified: bool, info: Option<RegistrationInfo>)

  /** `credential.counter || 0` */
  function CounterOr0(c: Option<int>): int {
    if c.Some? then c.value else 0
  }

  /** The credential `$push`ed after a verified registration. */
  function StoredCredential(info: RegistrationInfo, toBase64Url: seq<bv8> -> string): (c: Credential)
    ensures c.labelText.None? && c.createdAt.None? && c.lastUsedAt.None?
    ensures info.credentialDeviceType.None? || info.credentialDeviceType.value == [] ==> c.deviceType == "singleDevice"
    ensures info.credentialBackedUp.None? ==> !c.backedUp
    ensures info.credential.Some? ==>
      && c.credentialId == AsText(info.credential.value.id, toBase64Url)
      && c.publicKey == AsText(info.credential.value.publicKey, toBase64Url)
      && (info.credential.value.counter.None? ==> c.counter == 0)
      && (info.credential.value.transports.None? ==> c.transports == [])
    ensures info.credential.None? ==>
      c.credentialId == AsText(info.credentialId, toBase64Url) && c.publicKey == AsText(info.credentialPublicKey, toBase64Url)
  {
    var nc := if info.credential.Some? then info.credential.value
      else NewCredential(info.credentialId, info.credentialPublicKey, info.counter, Some(info.transports.GetOr([])));
    Credential(AsText(nc.id, toBase64Url), AsText(nc.publicKey, toBase64Url), CounterOr0(nc.counter), nc.transports.GetOr([]),
               if info.credentialDeviceType.Some? && info.credentialDeviceType.value != [] then info.credentialDeviceType.value else "singleDevice",
               info.credentialBackedUp.GetOr(false), None, None, None)
  }

  /** `POST` of register/verify; `parseError` is set when the body is not JSON. */
  function RegisterVerifyRoute(cfg: AuthConfig, session: Option<Claims>, now: int, parseError: Option<string>,
                               verify: Expectation -> RegistrationOutcome, toBase64Url: seq<bv8> -> string, st: Slot): (Slot, Reply)
  {
    match AssertAuthEnv(cfg)
    case Some(message) => (st, ServerError(message))
    case None =>
      if session.None? then (st, Unauthorized("Unauthorized"))
      else if !HasChallenge(st) then (st, BadRequest("No active challenge"))
      else if st.expiresAt.value < now then (st, BadRequest("Challenge expired"))
      else if parseError.Some? then (st, ServerError(OrElse(parseError.value, "Failed to verify registration response")))
      else match verify(Expectation(st.challenge.value, cfg.webAuthnOrigin, cfg.webAuthnRpId, true))
        case RegistrationThrew(message) => (st, ServerError(OrElse(message, "Failed to verify registration response")))
        case RegistrationChecked(verified, info) =>
          if !verified || info.None? then (st, BadRequest("Registration verification failed"))
          else (Slot(None, None, Enroll(st.credentials, StoredCredential(info.value, toBase64Url))), Registered)
  }

  /**
   * A registration is stored exactly when the configuration is complete, the owner is
   * signed in, a challenge is pending and not past its expiry (it is still good at the
   * expiry itself), the body parses, and the verifier, told the stored challenge, the
   * configured origin and RP ID and that user verification is required, reports a
   * verified registration with its details. Then the slot is cleared and the new
   * credential replaces any with its ID, at the end; otherwise nothing changes.
   */
  lemma RegisterVerifyFacts(cfg: AuthConfig, session: Option<Claims>, now: int, parseError: Option<string>,
                            verify: Expectation -> RegistrationOutcome, toBase64Url: seq<bv8> -> string, st: Slot)
    ensures var (ns, r) := RegisterVerifyRoute(cfg, session, now, parseError, verify, toBase64Url, st);
      && (r == Registered <==>
            && AssertAuthEnv(cfg).None? && session.Some? && HasChallenge(st) && now <= st.expiresAt.value
            && parseError.None?
            && var outcome := verify(Expectation(st.challenge.value, cfg.webAuthnOrigin, cfg.webAuthnRpId, true));
               outcome.RegistrationChecked? && outcome.verified && outcome.info.Some?)
      && (r == Registered ==>
            var c := StoredCredential(verify(Expectation(st.challenge.value, cfg.webAuthnOrigin, cfg.webAuthnRpId, true)).info.value, toBase64Url);
            && ns.challenge.None? && ns.expiresAt.None?
            && CountId(ns.credentials, c.credentialId) == 1
            && ns.credentials[|ns.credentials| - 1] == c
            && ns.credentials[..|ns.credentials| - 1] == Without(st.credentials, c.credentialId))
      && (r != Registered ==> ns == st)
      && (AssertAuthEnv(cfg).None? && session.None? ==> r == Unauthorized("Unauthorized"))
  {
    if AssertAuthEnv(cfg).None? && session.Some? && HasChallenge(st) && now <= st.expiresAt.value && parseError.None? {
      var outcome := verify(Expectation(st.challenge.value, cfg.webAuthnOrigin, cfg.webAuthnRpId, true));
      if outcome.RegistrationChecked? && outcome.verified && outcome.info.Some? {
        EnrollFacts(st.credentials, StoredCredential(outcome.info.value, toBase64Url));
      }
    }
  }

  // ---- login/options ----

  function AuthenticationOptionsFor(cfg: AuthConfig, creds: seq<Credential>, challenge: string): AuthenticationOptions {
    AuthenticationOptions(cfg.webAuthnRpId, "required", TimeoutMs, Descriptors(creds), challenge)
  }

  /** `POST` of login/options on the bucket under `webauthn-options:<ip>`. */
  function LoginOptionsRoute(cfg: AuthConfig, bucket: Option<Bucket>, now: int, challenge: string, st: Slot): (Slot, Reply) {
    match AssertAuthEnv(cfg)
    case Some(message) => (st, ServerError(message))
    case None =>
      var v := Step(bucket, LoginRateMax, LoginWindowMs, now).1;
      if !v.ok then (st, TooManyAttempts(v.retryAfterSeconds))
      else if |st.credentials| == 0 then (st, BadRequest("No fingerprint credential registered yet."))
      else (Issue(st, challenge, now), AuthenticationChallenge(AuthenticationOptionsFor(cfg, st.credentials, challenge)))
  }

  /**
   * Options come back exactly when the configuration is complete, the rate limit lets
   * the call through and a credential is enrolled; they allow exactly the enrolled
   * credentials, in order, and the shared slot then holds the new challenge whatever
   * was pending. Without credentials the answer is 400 and the slot is untouched.
   */
  lemma LoginOptionsFacts(cfg: AuthConfig, bucket: Option<Bucket>, now: int, challenge: string, st: Slot)
    ensures var (ns, r) := LoginOptionsRoute(cfg, bucket, now, challenge, st);
      && ns.credentials == st.credentials
      && (r.AuthenticationChallenge? <==>
            AssertAuthEnv(cfg).None? && Step(bucket, LoginRateMax, LoginWindowMs, now).1.ok && |st.credentials| > 0)
      && (r.AuthenticationChallenge? ==>
            && ns == Slot(Some(challenge), Some(now + ChallengeTtlMs), st.credentials)
            && r.authentication.allowCredentials == Descriptors(st.credentials)
            && r.authentication.userVerification == "required")
      && (!r.AuthenticationChallenge? ==> ns == st)
      && (AssertAuthEnv(cfg).None? && Step(bucket, LoginRateMax, LoginWindowMs, now).1.ok && |st.credentials| == 0 ==>
            r == BadRequest("No fingerprint credential registered yet."))
  {
  }

  // ---- login/verify ----

  /** The stored credential as the authentication verifier gets it; the public key is still base64url. */
  datatype StoredView = StoredView(id: string, publicKey: string, counter: int, transports: seq<string>)

  /** What the authentication verifier is told to expect. */
  datatype Assertion = Assertion(challenge: string, origin: string, rpId: string, requireUserVerification: bool, credential: StoredView)

  /** What `verifyAuthenticationResponse` does; `newCounter` is `None` when it is not a number. */
  datatype AuthenticationOutcome = AuthenticationThrew(message: string) | AuthenticationChecked(verified: bool, newCounter: Option<int>)

  /** The body: JSON that does not parse, or `response?.id`, `None` when missing or empty. */
  datatype LoginBody = LoginUnparsable(message: string) | LoginResponse(id: Option<string>)

  function ViewOf(c: Credential): StoredView {
    StoredView(c.credentialId, c.publicKey, c.counter, c.transports)
  }

  /** `POST` of login/verify on the bucket under `webauthn-verify:<ip>`. */
  function LoginVerifyRoute(cfg: AuthConfig, bucket: Option<Bucket>, now: int, body: LoginBody,
                            verify: Assertion -> AuthenticationOutcome, jti: string, codec: Codec, st: Slot): (Slot, Reply)
  {
    match AssertAuthEnv(cfg)
    case Some(message) => (st, ServerError(message))
    case None =>
      var v := Step(bucket, LoginRateMax, LoginWindowMs, now).1;
      if !v.ok then (st, TooManyAttempts(v.retryAfterSeconds))
      else if !HasChallenge(st) then (st, BadRequest("No active challenge"))
      else if st.expiresAt.value < now then (st, BadRequest("Challenge expired"))
      else match body
        case LoginUnparsable(message) => (st, ServerError(OrElse(message, "Failed to verify fingerprint")))
        case LoginResponse(id) =>
          if id.None? || id.value == [] then (st, BadRequest("Invalid credential response"))
          else AssertStage(cfg, id.value, verify, now, jti, codec, st)
  }

  /** The route once a challenge is pending and the response names a credential. */
  function AssertStage(cfg: AuthConfig, id: string, verify: Assertion -> AuthenticationOutcome,
                       now: int, jti: string, codec: Codec, st: Slot): (Slot, Reply)
    requires HasChallenge(st)
  {
    match FindCredential(st.credentials, id)
    case None => (st, BadRequest("Credential not recognized"))
    case Some(i) =>
      match verify(Assertion(st.challenge.value, cfg.webAuthnOrigin, cfg.webAuthnRpId, true, ViewOf(st.credentials[i])))
      case AuthenticationThrew(message) => (st, ServerError(OrElse(message, "Failed to verify fingerprint")))
      case AuthenticationChecked(verified, newCounter) =>
        if !verified then (st, Unauthorized("Fingerprint verification failed"))
        else
          var creds := if newCounter.Some? then SetCounter(st.credentials, id, newCounter.value) else st.credentials;
          (Slot(None, None, creds), SignedIn(CreateSessionToken(["webauthn"], now, cfg, jti, codec)))
  }

  /**
   * An unknown credential is refused with 400 whatever the verifier would say, and nothing
   * changes. A known one is checked against the pending challenge, the configured origin
   * and RP ID, with user verification required, and its stored counter and transports. A
   * failed check answers 401 and leaves the challenge pending and every counter as it was.
   * A passed one clears the challenge, gives the first credential with the ID the new
   * counter when there is one, changes no other credential, and signs in with `webauthn`.
   */
  lemma AssertStageFacts(cfg: AuthConfig, id: string, verify: Assertion -> AuthenticationOutcome,
                         other: Assertion -> AuthenticationOutcome, now: int, jti: string, codec: Codec, st: Slot)
    requires HasChallenge(st)
    ensures var (ns, r) := AssertStage(cfg, id, verify, now, jti, codec, st);
      && (FindCredential(st.credentials, id).None? ==>
            r == BadRequest("Credential not recognized") && ns == st
            && AssertStage(cfg, id, other, now, jti, codec, st) == (ns, r))
      && (FindCredential(st.credentials, id).Some? ==>
            var i := FindCredential(st.credentials, id).value;
            var outcome := verify(Assertion(st.challenge.value, cfg.webAuthnOrigin, cfg.webAuthnRpId, true, ViewOf(st.credentials[i])));
            && (outcome.AuthenticationChecked? && !outcome.verified ==>
                  r == Unauthorized("Fingerprint verification failed") && ns == st)
            && (outcome.AuthenticationChecked? && outcome.verified ==>
                  && r == SignedIn(CreateSessionToken(["webauthn"], now, cfg, jti, codec))
                  && ns.challenge.None? && ns.expiresAt.None?
                  && |ns.credentials| == |st.credentials|
                  && (forall k :: 0 <= k < |st.credentials| && k != i ==> ns.credentials[k] == st.credentials[k])
                  && ns.credentials[i] == (if outcome.newCounter.Some? then st.credentials[i].(counter := outcome.newCounter.value)
                                           else st.credentials[i])))
      && (r.SignedIn? <==>
            && FindCredential(st.credentials, id).Some?
            && var outcome := verify(Assertion(st.challenge.value, cfg.webAuthnOrigin, cfg.webAuthnRpId, true,
                                               ViewOf(st.credentials[FindCredential(st.credentials, id).value])));
               outcome.AuthenticationChecked? && outcome.verified)
  {
    if FindCredential(st.credentials, id).Some? {
      var i := FindCredential(st.credentials, id).value;
      var outcome := verify(Assertion(st.challenge.value, cfg.webAuthnOrigin, cfg.webAuthnRpId, true, ViewOf(st.credentials[i])));
      if outcome.AuthenticationChecked? && outcome.verified && outcome.newCounter.Some? {
        SetCounterFacts(st.credentials, id, outcome.newCounter.value);
      }
    }
  }

  /**
   * `AssertStage` with the counter update of login/verify/route.ts:74-83 as it is written.
   * The call goes to the loaded document's `updateOne(update, options)`, so the filter
   * object is the update and the positional `$set` is only an options object: no counter
   * is ever set. `write` is what the database makes of that update, which is outside the
   * code: `Some(message)` when it refuses the dotted path through the credential array and
   * the call throws, `None` when it lets the update through without effect. A refusal
   * reaches the handler's catch, after the challenge has been cleared.
   */
  function AssertStageAsWritten(cfg: AuthConfig, id: string, verify: Assertion -> AuthenticationOutcome,
                                write: Option<string>, now: int, jti: string, codec: Codec, st: Slot): (Slot, Reply)
    requires HasChallenge(st)
  {
    match FindCredential(st.credentials, id)
    case None => (st, BadRequest("Credential not recognized"))
    case Some(i) =>
      match verify(Assertion(st.challenge.value, cfg.webAuthnOrigin, cfg.webAuthnRpId, true, ViewOf(st.credentials[i])))
      case AuthenticationThrew(message) => (st, ServerError(OrElse(message, "Failed to verify fingerprint")))
      case AuthenticationChecked(verified, newCounter) =>
        if !verified then (st, Unauthorized("Fingerprint verification failed"))
        else
          var cleared := Slot(None, None, st.credentials);
          if newCounter.Some? && write.Some? then (cleared, ServerError(OrElse(write.value, "Failed to verify fingerprint")))
          else (cleared, SignedIn(CreateSessionToken(["webauthn"], now, cfg, jti, codec)))
  }

  /**
   * As written, no outcome changes a stored counter, whatever the database does with the
   * update. An unknown credential gives 400 and a failed check 401, as intended; sign-in
   * needs a verified assertion and, when the verifier returned a counter, a database that
   * lets the misplaced update through. When the verifier returns a counter different from the stored one,
   * the intended stage stores it and the stage as written does not. When the database
   * refuses the update, the answer is 500 and no session, yet the challenge is already gone.
   */
  lemma AsWrittenCounterNeverSet(cfg: AuthConfig, id: string, verify: Assertion -> AuthenticationOutcome,
                                 write: Option<string>, now: int, jti: string, codec: Codec, st: Slot)
    requires HasChallenge(st)
    ensures var (ns, r) := AssertStageAsWritten(cfg, id, verify, write, now, jti, codec, st);
      && ns.credentials == st.credentials
      && (FindCredential(st.credentials, id).None? ==> r == BadRequest("Credential not recognized") && ns == st)
      && (r.SignedIn? <==>
            && FindCredential(st.credentials, id).Some?
            && var outcome := verify(Assertion(st.challenge.value, cfg.webAuthnOrigin, cfg.webAuthnRpId, true,
                                               ViewOf(st.credentials[FindCredential(st.credentials, id).value])));
               outcome.AuthenticationChecked? && outcome.verified && !(outcome.newCounter.Some? && write.Some?))
      && (FindCredential(st.credentials, id).Some? ==>
            var i := FindCredential(st.credentials, id).value;
            var outcome := verify(Assertion(st.challenge.value, cfg.webAuthnOrigin, cfg.webAuthnRpId, true, ViewOf(st.credentials[i])));
            && (outcome.AuthenticationChecked? && !outcome.verified ==>
                  r == Unauthorized("Fingerprint verification failed") && ns == st)
            && (outcome.AuthenticationChecked? && outcome.verified && outcome.newCounter.Some?
                && outcome.newCounter.value != st.credentials[i].counter ==>
                  AssertStage(cfg, id, verify, now, jti, codec, st).0.credentials[i].counter == outcome.newCounter.value
                  && ns.credentials[i].counter != outcome.newCounter.value)
            && (outcome.AuthenticationChecked? && outcome.verified && outcome.newCounter.Some? && write.Some? ==>
                  && r == ServerError(OrElse(write.value, "Failed to verify fingerprint"))
                  && ns.challenge.None? && ns.expiresAt.None? && st.challenge.Some?))
  {
    if FindCredential(st.credentials, id).Some? {
      var i := FindCredential(st.credentials, id).value;
      var outcome := verify(Assertion(st.challenge.value, cfg.webAuthnOrigin, cfg.webAuthnRpId, true, ViewOf(st.credentials[i])));
      if outcome.AuthenticationChecked? && outcome.verified && outcome.newCounter.Some? {
        SetCounterFacts(st.credentials, id, outcome.newCounter.value);
      }
    }
  }

  /**
   * The checks before a credential is looked up: the configuration, the rate limit, a
   * pending challenge not past its expiry, a body that parses and names a credential.
   * Each failure leaves the slot as it was.
   */
  lemma LoginVerifyFacts(cfg: AuthConfig, bucket: Option<Bucket>, now: int, body: LoginBody,
                         verify: Assertion -> AuthenticationOutcome, jti: string, codec: Codec, st: Slot)
    ensures var (ns, r) := LoginVerifyRoute(cfg, bucket, now, body, verify, jti, codec, st);
      && (r.SignedIn? ==>
            && AssertAuthEnv(cfg).None? && Step(bucket, LoginRateMax, LoginWindowMs, now).1.ok
            && HasChallenge(st) && now <= st.expiresAt.value && body.LoginResponse? && body.id.Some? && body.id.value != []
            && FindCredential(st.credentials, body.id.value).Some?
            && ns.challenge.None? && ns.expiresAt.None?)
      && ((AssertAuthEnv(cfg).None? && Step(bucket, LoginRateMax, LoginWindowMs, now).1.ok && HasChallenge(st)
            && now <= st.expiresAt.value && body.LoginResponse? && body.id.Some? && body.id.value != []) ==>
            (ns, r) == AssertStage(cfg, body.id.value, verify, now, jti, codec, st))
      && ((AssertAuthEnv(cfg).None? && Step(bucket, LoginRateMax, LoginWindowMs, now).1.ok && HasChallenge(st)
            && st.expiresAt.value < now) ==> r == BadRequest("Challenge expired") && ns == st)
      && (!r.SignedIn? && !r.Unauthorized? ==> ns.challenge == st.challenge && ns.expiresAt == st.expiresAt)
  {
    if AssertAuthEnv(cfg).None? && Step(bucket, LoginRateMax, LoginWindowMs, now).1.ok && HasChallenge(st)
       && now <= st.expiresAt.value && body.LoginResponse? && body.id.Some? && body.id.value != [] {
      AssertStageFacts(cfg, body.id.value, verify, verify, now, jti, codec, st);
    }
  }

  // ---- credentials and session status ----

  /** One entry of the credential listing: no public key and no counter. */
  datatype CredentialView = CredentialView(
    credentialId: string, labelText: string, deviceType: string, backedUp: bool, transports: seq<string>,
    createdAt: Option<string>, lastUsedAt: Option<string>)

  /** `x || null` on an optional string. */
  function NonEmpty(x: Option<string>): Option<string> {
    if x.Some? && x.value != [] then x else None
  }

  function DefaultLabel(index: nat): string {
    "Fingerprint " + NatToString(index + 1)
  }

  function ViewAt(creds: seq<Credential>, i: nat): CredentialView
    requires i < |creds|
  {
    var c := creds[i];
    CredentialView(c.credentialId,
                   if c.labelText.Some? && c.labelText.value != [] then c.labelText.value else DefaultLabel(i),
                   if c.deviceType != [] then c.deviceType else "singleDevice",
                   c.backedUp, c.transports, NonEmpty(c.createdAt), NonEmpty(c.lastUsedAt))
  }

  /** `GET` of credentials: `None` is the 401 without a session. */
  function ListCredentials(session: Option<Claims>, creds: seq<Credential>): (r: Option<seq<CredentialView>>)
    ensures r.None? <==> session.None?
    ensures r.Some? ==> |r.value| == |creds|
    ensures r.Some? ==> forall i :: 0 <= i < |creds| ==> r.value[i] == ViewAt(creds, i)
  {
    if session.None? then None
    else Some(seq(|creds|, i requires 0 <= i < |creds| => ViewAt(creds, i)))
  }

  /**
   * The listing keeps the stored order and IDs; a credential with a label shows it, an
   * unlabelled or blank-labelled one is called "Fingerprint <position from 1>"; a device
   * type shows as stored unless empty, when it reads 'singleDevice'; dates show as
   * stored unless absent or empty, when they read as null.
   */
  lemma ListingDefaults(session: Option<Claims>, creds: seq<Credential>, i: nat)
    requires session.Some? && i < |creds|
    ensures var v := ListCredentials(session, creds).value[i];
      var c := creds[i];
      && v.credentialId == c.credentialId
      && (c.labelText.Some? && c.labelText.value != [] ==> v.labelText == c.labelText.value)
      && (c.labelText.None? || c.labelText.value == [] ==> v.labelText == DefaultLabel(i))
      && (c.deviceType != [] ==> v.deviceType == c.deviceType)
      && (c.deviceType == [] ==> v.deviceType == "singleDevice")
      && (c.createdAt.Some? && c.createdAt.value != [] ==> v.createdAt == c.createdAt)
      && (c.createdAt.None? || c.createdAt.value == [] ==> v.createdAt.None?)
      && (c.lastUsedAt.Some? && c.lastUsedAt.value != [] ==> v.lastUsedAt == c.lastUsedAt)
      && (c.lastUsedAt.None? || c.lastUsedAt.value == [] ==> v.lastUsedAt.None?)
      && v.backedUp == c.backedUp && v.transports == c.transports
  {
  }

  /** Different positions get different default labels. */
  lemma DefaultLabelsDistinct(i: nat, j: nat)
    requires DefaultLabel(i) == DefaultLabel(j)
    ensures i == j
  {
    var p := "Fingerprint ";
    assert NatToString(i + 1) == DefaultLabel(i)[|p|..];
    assert NatToString(j + 1) == DefaultLabel(j)[|p|..];
    NatToStringValue(i + 1);
    NatToStringValue(j + 1);
  }

  /** `{ authenticated, methods, hasBiometric }` of the session endpoint. */
  datatype SessionStatus = SessionStatus(authenticated: bool, methods: seq<string>, hasBiometric: bool)

  /** `GET` of session. */
  function SessionStatusOf(session: Option<Claims>, creds: seq<Credential>): (r: SessionStatus)
    ensures r.hasBiometric <==> |creds| > 0
    ensures r.authenticated <==> session.Some?
    ensures session.None? ==> r.methods == []
    ensures session.Some? && session.value.methods.Some? ==> r.methods == session.value.methods.value
  {
    var hasBiometric := |creds| > 0;
    if session.None? then SessionStatus(false, [], hasBiometric)
    else SessionStatus(true, session.value.methods.GetOr([]), hasBiometric)
  }

  // ---- the endpoints on the stored auth state ----

  function SlotOf(challenge: Option<string>, expiresAt: Option<int>, credentials: seq<Credential>): Slot {
    Slot(challenge, expiresAt, credentials)
  }

  /** `POST` of register/options. */
  method RegisterOptions(state: AuthState, cfg: AuthConfig, session: Option<Claims>, now: int, challenge: string)
    returns (reply: Reply)
    modifies state
    ensures var (ns, r) := RegisterOptionsRoute(cfg, session, now, challenge,
                                                SlotOf(old(state.currentChallenge), old(state.challengeExpiresAt), old(state.credentials)));
      && reply == r && state.currentChallenge == ns.challenge && state.challengeExpiresAt == ns.expiresAt
      && state.credentials == ns.credentials
    ensures state.pinFailedAttempts == old(state.pinFailedAttempts) && state.pinLockUntil == old(state.pinLockUntil)
  {
    var envError := AssertAuthEnv(cfg);
    if envError.Some? {
      return ServerError(envError.value);
    }
    if session.None? {
      return Unauthorized("Unauthorized");
    }
    var options := RegistrationOptionsFor(cfg, state.credentials, challenge);
    state.currentChallenge := Some(challenge);
    state.challengeExpiresAt := Some(now + ChallengeTtlMs);
    return RegistrationChallenge(options);
  }

  /** `POST` of register/verify. */
  method RegisterVerify(state: AuthState, cfg: AuthConfig, session: Option<Claims>, now: int, parseError: Option<string>,
                        verify: Expectation -> RegistrationOutcome, toBase64Url: seq<bv8> -> string)
    returns (reply: Reply)
    modifies state
    ensures var (ns, r) := RegisterVerifyRoute(cfg, session, now, parseError, verify, toBase64Url,
                                               SlotOf(old(state.currentChallenge), old(state.challengeExpiresAt), old(state.credentials)));
      && reply == r && state.currentChallenge == ns.challenge && state.challengeExpiresAt == ns.expiresAt
      && state.credentials == ns.credentials
    ensures state.pinFailedAttempts == old(state.pinFailedAttempts) && state.pinLockUntil == old(state.pinLockUntil)
  {
    var envError := AssertAuthEnv(cfg);
    if envError.Some? {
      return ServerError(envError.value);
    }
    if session.None? {
      return Unauthorized("Unauthorized");
    }
    if !state.HasChallenge() {
      return BadRequest("No active challenge");
    }
    if state.challengeExpiresAt.value < now {
      return BadRequest("Challenge expired");
    }
    if parseError.Some? {
      return ServerError(OrElse(parseError.value, "Failed to verify registration response"));
    }
    var outcome := verify(Expectation(state.currentChallenge.value, cfg.webAuthnOrigin, cfg.webAuthnRpId, true));
    if outcome.RegistrationThrew? {
      return ServerError(OrElse(outcome.message, "Failed to verify registration response"));
    }
    if !outcome.verified || outcome.info.None? {
      return BadRequest("Registration verification failed");
    }
    var credential := StoredCredential(outcome.info.value, toBase64Url);
    state.currentChallenge := None;
    state.challengeExpiresAt := None;
    state.credentials := Without(state.credentials, credential.credentialId);
    state.credentials := state.credentials + [credential];
    return Registered;
  }

  /** `POST` of login/options. */
  method LoginOptions(state: AuthState, limiter: RateLimiter, cfg: AuthConfig, ip: string, now: int, challenge: string)
    returns (reply: Reply)
    modifies state, limiter
    ensures var (ns, r) := LoginOptionsRoute(cfg, BucketOf(old(limiter.buckets), "webauthn-options:" + ip), now, challenge,
                                             SlotOf(old(state.currentChallenge), old(state.challengeExpiresAt), old(state.credentials)));
      && reply == r && state.currentChallenge == ns.challenge && state.challengeExpiresAt == ns.expiresAt
      && state.credentials == ns.credentials
    ensures state.pinFailedAttempts == old(state.pinFailedAttempts) && state.pinLockUntil == old(state.pinLockUntil)
    ensures AssertAuthEnv(cfg).Some? ==> limiter.buckets == old(limiter.buckets)
    ensures AssertAuthEnv(cfg).None? ==>
      limiter.buckets == old(limiter.buckets)["webauthn-options:" + ip :=
        Step(BucketOf(old(limiter.buckets), "webauthn-options:" + ip), LoginRateMax, LoginWindowMs, now).0]
  {
    var envError := AssertAuthEnv(cfg);
    if envError.Some? {
      return ServerError(envError.value);
    }
    var rate := limiter.Check("webauthn-options:" + ip, LoginRateMax, LoginWindowMs, now);
    if !rate.ok {
      return TooManyAttempts(rate.retryAfterSeconds);
    }
    if |state.credentials| == 0 {
      return BadRequest("No fingerprint credential registered yet.");
    }
    var options := AuthenticationOptionsFor(cfg, state.credentials, challenge);
    state.currentChallenge := Some(challenge);
    state.challengeExpiresAt := Some(now + ChallengeTtlMs);
    return AuthenticationChallenge(options);
  }

  /** `POST` of login/verify. */
  method LoginVerify(state: AuthState, limiter: RateLimiter, cfg: AuthConfig, ip: string, now: int, body: LoginBody,
                     verify: Assertion -> AuthenticationOutcome, jti: string, codec: Codec)
    returns (reply: Reply)
    modifies state, limiter
    ensures var (ns, r) := LoginVerifyRoute(cfg, BucketOf(old(limiter.buckets), "webauthn-verify:" + ip), now, body, verify, jti, codec,
                                            SlotOf(old(state.currentChallenge), old(state.challengeExpiresAt), old(state.credentials)));
      && reply == r && state.currentChallenge == ns.challenge && state.challengeExpiresAt == ns.expiresAt
      && state.credentials == ns.credentials
    ensures state.pinFailedAttempts == old(state.pinFailedAttempts) && state.pinLockUntil == old(state.pinLockUntil)
    ensures AssertAuthEnv(cfg).Some? ==> limiter.buckets == old(limiter.buckets)
    ensures AssertAuthEnv(cfg).None? ==>
      limiter.buckets == old(limiter.buckets)["webauthn-verify:" + ip :=
        Step(BucketOf(old(limiter.buckets), "webauthn-verify:" + ip), LoginRateMax, LoginWindowMs, now).0]
  {
    var envError := AssertAuthEnv(cfg);
    if envError.Some? {
      return ServerError(envError.value);
    }
    var rate := limiter.Check("webauthn-verify:" + ip, LoginRateMax, LoginWindowMs, now);
    if !rate.ok {
      return TooManyAttempts(rate.retryAfterSeconds);
    }
    if !state.HasChallenge() {
      return BadRequest("No active challenge");
    }
    if state.challengeExpiresAt.value < now {
      return BadRequest("Challenge expired");
    }
    if body.LoginUnparsable? {
      return ServerError(OrElse(body.message, "Failed to verify fingerprint"));
    }
    if body.id.None? || body.id.value == [] {
      return BadRequest("Invalid credential response");
    }
    reply := VerifyAssertion(state, cfg, body.id.value, verify, now, jti, codec);
  }

  /** The part of login/verify after the request checks: look up the credential, verify, sign in. */
  method VerifyAssertion(state: AuthState, cfg: AuthConfig, id: string, verify: Assertion -> AuthenticationOutcome,
                         now: int, jti: string, codec: Codec)
    returns (reply: Reply)
    requires state.HasChallenge()
    modifies state
    ensures var (ns, r) := AssertStage(cfg, id, verify, now, jti, codec,
                                       SlotOf(old(state.currentChallenge), old(state.challengeExpiresAt), old(state.credentials)));
      && reply == r && state.currentChallenge == ns.challenge && state.challengeExpiresAt == ns.expiresAt
      && state.credentials == ns.credentials
    ensures state.pinFailedAttempts == old(state.pinFailedAttempts) && state.pinLockUntil == old(state.pinLockUntil)
  {
    var found := FindCredential(state.credentials, id);
    if found.None? {
      return BadRequest("Credential not recognized");
    }
    var stored := state.credentials[found.value];
    var outcome := verify(Assertion(state.currentChallenge.value, cfg.webAuthnOrigin, cfg.webAuthnRpId, true, ViewOf(stored)));
    if outcome.AuthenticationThrew? {
      return ServerError(OrElse(outcome.message, "Failed to verify fingerprint"));
    }
    if !outcome.verified {
      return Unauthorized("Fingerprint verification failed");
    }
    state.currentChallenge := None;
    state.challengeExpiresAt := None;
    if outcome.newCounter.Some? {
      state.credentials := SetCounter(state.credentials, id, outcome.newCounter.value);
    }
    return SignedIn(CreateSessionToken(["webauthn"], now, cfg, jti, codec));
  }
}

/**
 * The PIN sign-in endpoint, src/app/api/auth/pin/login/route.ts. In order it checks
 * the configuration, the per-IP rate limit (20 calls per five minutes under
 * `pin:<ip>`), the PIN's format, the lock, and the PIN itself; a wrong PIN raises
 * the failure counter and sets the lock once the counter reaches the limit, a right
 * one clears both and issues a session for the method `pin`. The clock, the token
 * id, the key derivation and the encoders are parameters.
 */
module PinLogin {
  import opened Common
  import opened AuthEnv
  import opened Pin
  import opened RateLimit
  import opened Session
  import opened AuthStates

  const PinRateMax := 20
  const PinWindowMs := 5 * 60 * 1000

  /**
   * `getIP(request)`: the first `x-forwarded-for` entry, trimmed, else `x-real-ip`, else
   * "unknown"; an empty string counts as absent at each step.
   */
  function ClientIp(forwardedFor: Option<string>, realIp: Option<string>): (ip: string)
    ensures ip != []
    ensures forwardedFor.Some? && Trim(Split(forwardedFor.value, ',')[0]) != [] ==> ',' !in ip
  {
    var first := if forwardedFor.Some? then Trim(Split(forwardedFor.value, ',')[0]) else "";
    if first != [] then first
    else if realIp.Some? && realIp.value != [] then realIp.value
    else "unknown"
  }

  /** The request body: JSON that does not parse, or an object whose `pin` is a string or not. */
  datatype PinBody = Unparsable(message: string) | PinField(pin: Option<string>)

  /** The answers: 500, 429, 400, 423, 401, and 200 with a session cookie holding `token`. */
  datatype PinReply =
    | Failure(message: string)
    | TooManyAttempts(retryAfterSeconds: int)
    | InvalidFormat
    | Locked(retryAfterSeconds: int)
    | InvalidPin
    | LoggedIn(token: string)

  function Status(r: PinReply): int {
    match r
    case Failure(_) => 500
    case TooManyAttempts(_) => 429
    case InvalidFormat => 400
    case Locked(_) => 423
    case InvalidPin => 401
    case LoggedIn(_) => 200
  }

  /** `error.message || 'Authentication failed'` */
  function ErrorMessage(message: string): string {
    if message == [] then "Authentication failed" else message
  }

  /** The two lock fields of the auth state. */
  datatype LockState = LockState(attempts: int, lockUntil: Option<int>)

  /** What the lock stage decides: refused while locked, a wrong PIN, or a right one. */
  datatype Attempt = Refused(retryAfterSeconds: int) | Rejected | Accepted

  predicate IsLocked(s: LockState, now: int) {
    s.lockUntil.Some? && s.lockUntil.value > now
  }

  /** The lock check and, past it, the counter update for a PIN that is right or wrong. */
  function LockStep(s: LockState, now: int, correct: bool, cfg: AuthConfig): (LockState, Attempt) {
    if IsLocked(s, now) then
      var wait := CeilSeconds(s.lockUntil.value - now);
      (s, Refused(if wait > 1 then wait else 1))
    else if !correct then
      var failed := s.attempts + 1;
      (LockState(failed, if failed >= cfg.pinMaxAttempts then Some(now + cfg.pinLockMs) else s.lockUntil), Rejected)
    else (LockState(0, None), Accepted)
  }

  /**
   * While locked, nothing changes, the PIN is not looked at, and the caller is told to
   * wait the time the lock has left in whole seconds, rounded up. Otherwise a wrong PIN
   * raises the counter by one and sets the lock for `pinLockMs` exactly when the new
   * count reaches the limit, leaving it as it was otherwise; a right PIN clears both.
   */
  lemma LockStepFacts(s: LockState, now: int, correct: bool, cfg: AuthConfig)
    ensures var (ns, a) := LockStep(s, now, correct, cfg);
      && (IsLocked(s, now) ==>
            && ns == s && a.Refused? && LockStep(s, now, !correct, cfg) == (ns, a)
            && a.retryAfterSeconds >= 1
            && a.retryAfterSeconds * 1000 >= s.lockUntil.value - now
            && (a.retryAfterSeconds - 1) * 1000 < s.lockUntil.value - now)
      && (!IsLocked(s, now) && !correct ==>
            && a == Rejected && ns.attempts == s.attempts + 1
            && ns.lockUntil == (if s.attempts + 1 >= cfg.pinMaxAttempts then Some(now + cfg.pinLockMs) else s.lockUntil))
      && (!IsLocked(s, now) && correct ==> a == Accepted && ns == LockState(0, None))
      && (a == Accepted <==> !IsLocked(s, now) && correct)
  {
    if IsLocked(s, now) {
      CeilSecondsBounds(s.lockUntil.value - now);
    }
  }

  /** A lock is only ever set together with a counter at or past the limit. */
  predicate Consistent(s: LockState, cfg: AuthConfig) {
    s.lockUntil.Some? ==> s.attempts >= cfg.pinMaxAttempts
  }

  lemma LockStepConsistent(s: LockState, now: int, correct: bool, cfg: AuthConfig)
    requires Consistent(s, cfg)
    ensures Consistent(LockStep(s, now, correct, cfg).0, cfg)
  {
  }

  /**
   * The counter is not reset when a lock runs out: the first wrong PIN after a lock
   * has expired sets a fresh lock at once.
   */
  lemma RelockAfterExpiry(s: LockState, now: int, cfg: AuthConfig)
    requires Consistent(s, cfg) && s.lockUntil.Some? && !IsLocked(s, now)
    ensures LockStep(s, now, false, cfg) == (LockState(s.attempts + 1, Some(now + cfg.pinLockMs)), Rejected)
    ensures cfg.pinLockMs > 0 ==> IsLocked(LockStep(s, now, false, cfg).0, now)
  {
  }

  /** The lock fields after `n` wrong PINs at time `now`. */
  function Failures(s: LockState, now: int, n: nat, cfg: AuthConfig): LockState {
    if n == 0 then s else LockStep(Failures(s, now, n - 1, cfg), now, false, cfg).0
  }

  /** From the initial record, fewer wrong PINs than the limit set no lock. */
  lemma {:induction false} FailuresBelowLimit(now: int, n: nat, cfg: AuthConfig)
    requires n < cfg.pinMaxAttempts
    ensures Failures(LockState(0, None), now, n, cfg) == LockState(n, None)
  {
    if n > 0 {
      FailuresBelowLimit(now, n - 1, cfg);
    }
  }

  /** From the initial record, the wrong PIN that reaches the limit locks the PIN for `pinLockMs`. */
  lemma LockAtLimit(now: int, cfg: AuthConfig)
    requires cfg.pinMaxAttempts >= 1
    ensures Failures(LockState(0, None), now, cfg.pinMaxAttempts, cfg)
      == LockState(cfg.pinMaxAttempts, Some(now + cfg.pinLockMs))
  {
    FailuresBelowLimit(now, cfg.pinMaxAttempts - 1, cfg);
  }

  /** The whole route on the bucket under `pin:<ip>` and the lock fields: the new lock fields and the reply. */
  function PinRoute(cfg: AuthConfig, derive: Derive, ip: string, body: PinBody, now: int, jti: string, codec: Codec,
                    bucket: Option<Bucket>, s: LockState): (LockState, PinReply)
  {
    match AssertAuthEnv(cfg)
    case Some(message) => (s, Failure(message))
    case None =>
      var v := Step(bucket, PinRateMax, PinWindowMs, now).1;
      if !v.ok then (s, TooManyAttempts(v.retryAfterSeconds))
      else match body
        case Unparsable(message) => (s, Failure(ErrorMessage(message)))
        case PinField(raw) => PinStage(cfg, derive, if raw.Some? then Trim(raw.value) else "", now, jti, codec, s)
  }

  /** The route from the format check on, for the trimmed PIN. */
  function PinStage(cfg: AuthConfig, derive: Derive, pin: string, now: int, jti: string, codec: Codec,
                    s: LockState): (LockState, PinReply)
  {
    if !IsPinFormatValid(pin) then (s, InvalidFormat)
    else
      var (ns, a) := LockStep(s, now, VerifyPin(cfg, derive, pin), cfg);
      match a
      case Refused(wait) => (ns, Locked(wait))
      case Rejected => (ns, InvalidPin)
      case Accepted => (ns, LoggedIn(CreateSessionToken(["pin"], now, cfg, jti, codec)))
  }

  /**
   * A session is issued exactly when the configuration is complete, the rate limit lets
   * the call through, the trimmed PIN is well formed, the PIN is not locked and the PIN
   * is right; the lock fields change only on a wrong or right PIN past the lock check.
   */
  lemma PinRouteFacts(cfg: AuthConfig, derive: Derive, ip: string, body: PinBody, now: int, jti: string, codec: Codec,
                      bucket: Option<Bucket>, s: LockState)
    ensures var (ns, r) := PinRoute(cfg, derive, ip, body, now, jti, codec, bucket, s);
      && (r.LoggedIn? <==>
            && AssertAuthEnv(cfg).None? && Step(bucket, PinRateMax, PinWindowMs, now).1.ok
            && body.PinField? && body.pin.Some? && IsPinFormatValid(Trim(body.pin.value))
            && !IsLocked(s, now) && VerifyPin(cfg, derive, Trim(body.pin.value)))
      && (r.LoggedIn? ==> ns == LockState(0, None) && r.token == CreateSessionToken(["pin"], now, cfg, jti, codec))
      && (r.InvalidPin? ==> ns.attempts == s.attempts + 1)
      && (!r.LoggedIn? && !r.InvalidPin? ==> ns == s)
  {
    if AssertAuthEnv(cfg).None? && Step(bucket, PinRateMax, PinWindowMs, now).1.ok && body.PinField? {
      var pin := if body.pin.Some? then Trim(body.pin.value) else "";
      if IsPinFormatValid(pin) {
        LockStepFacts(s, now, VerifyPin(cfg, derive, pin), cfg);
      }
    }
  }

  /** The cookie a PIN sign-in sets holds a session for the method `pin` until its lifetime runs out. */
  lemma PinSessionVerifies(cfg: AuthConfig, derive: Derive, ip: string, body: PinBody, now: int, later: int, jti: string,
                           codec: Codec, bucket: Option<Bucket>, s: LockState)
    requires Coherent(codec)
    requires PinRoute(cfg, derive, ip, body, now, jti, codec, bucket, s).1.LoggedIn?
    requires Seconds(later) < Seconds(now) + cfg.sessionTtlSeconds
    ensures VerifySessionToken(Some(PinRoute(cfg, derive, ip, body, now, jti, codec, bucket, s).1.token), cfg, later, codec)
      == Some(ClaimsOf(NewPayload(["pin"], now, cfg, jti)))
  {
    PinRouteFacts(cfg, derive, ip, body, now, jti, codec, bucket, s);
    ReadyValues(cfg);
    CreateThenVerify(["pin"], now, later, cfg, jti, codec);
  }

  /** `POST(request)` on the stored auth state and the process's rate limiter. */
  method PinLoginPost(state: AuthState, limiter: RateLimiter, cfg: AuthConfig, derive: Derive, ip: string,
                      body: PinBody, now: int, jti: string, codec: Codec) returns (reply: PinReply)
    modifies state, limiter
    ensures var (ns, r) := PinRoute(cfg, derive, ip, body, now, jti, codec, BucketOf(old(limiter.buckets), "pin:" + ip),
                                    LockState(old(state.pinFailedAttempts), old(state.pinLockUntil)));
      reply == r && state.pinFailedAttempts == ns.attempts && state.pinLockUntil == ns.lockUntil
    ensures state.currentChallenge == old(state.currentChallenge) && state.challengeExpiresAt == old(state.challengeExpiresAt)
    ensures state.credentials == old(state.credentials)
    ensures AssertAuthEnv(cfg).Some? ==> limiter.buckets == old(limiter.buckets)
    ensures AssertAuthEnv(cfg).None? ==>
      limiter.buckets == old(limiter.buckets)["pin:" + ip := Step(BucketOf(old(limiter.buckets), "pin:" + ip), PinRateMax, PinWindowMs, now).0]
  {
    var envError := AssertAuthEnv(cfg);
    if envError.Some? {
      return Failure(envError.value);
    }
    var rate := limiter.Check("pin:" + ip, PinRateMax, PinWindowMs, now);
    if !rate.ok {
      return TooManyAttempts(rate.retryAfterSeconds);
    }
    if body.Unparsable? {
      return Failure(ErrorMessage(body.message));
    }
    var pin := if body.pin.Some? then Trim(body.pin.value) else "";
    reply := CheckPin(state, cfg, derive, pin, now, jti, codec);
  }

  /** The route from the format check on: the lock check and the counter update. */
  method CheckPin(state: AuthState, cfg: AuthConfig, derive: Derive, pin: string, now: int, jti: string, codec: Codec)
    returns (reply: PinReply)
    modifies state
    ensures var (ns, r) := PinStage(cfg, derive, pin, now, jti, codec, LockState(old(state.pinFailedAttempts), old(state.pinLockUntil)));
      reply == r && state.pinFailedAttempts == ns.attempts && state.pinLockUntil == ns.lockUntil
    ensures state.currentChallenge == old(state.currentChallenge) && state.challengeExpiresAt == old(state.challengeExpiresAt)
    ensures state.credentials == old(state.credentials)
  {
    if !IsPinFormatValid(pin) {
      return InvalidFormat;
    }
    if state.pinLockUntil.Some? && state.pinLockUntil.value > now {
      var wait := CeilSeconds(state.pinLockUntil.value - now);
      return Locked(if wait > 1 then wait else 1);
    }
    var isValid := VerifyPin(cfg, derive, pin);
    if !isValid {
      var failedAttempts := state.pinFailedAttempts + 1;
      state.pinFailedAttempts := failedAttempts;
      if failedAttempts >= cfg.pinMaxAttempts {
        state.pinLockUntil := Some(now + cfg.pinLockMs);
      }
      return InvalidPin;
    }
    state.pinFailedAttempts := 0;
    state.pinLockUntil := None;
    return LoggedIn(CreateSessionToken(["pin"], now, cfg, jti, codec));
  }
}

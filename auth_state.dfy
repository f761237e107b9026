/**
 * The single owner record of src/models/AuthState.js, as src/lib/auth/state.ts
 * fetches or creates it: the PIN failure counter and lock, the one pending
 * WebAuthn challenge shared by registration and login, and the enrolled
 * credentials in enrolment order. Times are milliseconds.
 */
module AuthStates {
  import opened Common

  /** One enrolled credential; ID and public key are base64url text. */
  datatype Credential = Credential(
    credentialId: string, publicKey: string, counter: int, transports: seq<string>,
    deviceType: string, backedUp: bool,
    labelText: Option<string>, createdAt: Option<string>, lastUsedAt: Option<string>)

  class AuthState {
    var pinFailedAttempts: int
    var pinLockUntil: Option<int>
    var currentChallenge: Option<string>
    var challengeExpiresAt: Option<int>
    var credentials: seq<Credential>

    /** The record `getAuthState()` inserts the first time: every field at its schema default. */
    constructor ()
      ensures pinFailedAttempts == 0 && pinLockUntil == None
      ensures currentChallenge == None && challengeExpiresAt == None && credentials == []
    {
      pinFailedAttempts := 0;
      pinLockUntil := None;
      currentChallenge := None;
      challengeExpiresAt := None;
      credentials := [];
    }

    /** A challenge is pending: both fields set and the challenge not empty. */
    predicate HasChallenge()
      reads this
    {
      currentChallenge.Some? && currentChallenge.value != [] && challengeExpiresAt.Some?
    }
  }

  /** The credentials with another ID, in their stored order (`$pull` by `credentialID`). */
  function Without(creds: seq<Credential>, id: string): (r: seq<Credential>)
    ensures |r| <= |creds|
    ensures forall c :: c in r <==> c in creds && c.credentialId != id
  {
    if creds == [] then []
    else
      var rest := Without(creds[..|creds| - 1], id);
      var last := creds[|creds| - 1];
      assert forall c :: c in creds <==> c in creds[..|creds| - 1] || c == last;
      if last.credentialId == id then rest else rest + [last]
  }

  /** Removing an ID no credential has changes nothing. */
  lemma {:induction false} WithoutAbsent(creds: seq<Credential>, id: string)
    requires forall i :: 0 <= i < |creds| ==> creds[i].credentialId != id
    ensures Without(creds, id) == creds
  {
    if creds != [] {
      WithoutAbsent(creds[..|creds| - 1], id);
      assert creds[..|creds| - 1] + [creds[|creds| - 1]] == creds;
    }
  }

  /** A single credential stays exactly when its ID differs. */
  lemma WithoutOne(c: Credential, id: string)
    ensures Without([c], id) == if c.credentialId == id then [] else [c]
  {
    assert [c][..0] == [];
  }

  /** The filter keeps the stored order: removing from two lists joined is removing from each and joining the results. */
  lemma {:induction false} WithoutAppend(a: seq<Credential>, b: seq<Credential>, id: string)
    ensures Without(a + b, id) == Without(a, id) + Without(b, id)
  {
    if b == [] {
      assert a + b == a;
    } else {
      var b' := b[..|b| - 1];
      var last := b[|b| - 1];
      WithoutAppend(a, b', id);
      assert (a + b)[..|a + b| - 1] == a + b';
      assert (a + b)[|a + b| - 1] == last;
      if last.credentialId != id {
        calc {
          Without(a + b, id);
          Without(a + b', id) + [last];
          Without(a, id) + (Without(b', id) + [last]);
          Without(a, id) + Without(b, id);
        }
      }
    }
  }

  /** How many stored credentials carry an ID. */
  function CountId(creds: seq<Credential>, id: string): nat {
    if creds == [] then 0
    else CountId(creds[..|creds| - 1], id) + (if creds[|creds| - 1].credentialId == id then 1 else 0)
  }

  lemma {:induction false} CountWithout(creds: seq<Credential>, id: string)
    ensures CountId(Without(creds, id), id) == 0
  {
    if creds != [] {
      var rest := Without(creds[..|creds| - 1], id);
      CountWithout(creds[..|creds| - 1], id);
      if creds[|creds| - 1].credentialId != id {
        assert (rest + [creds[|creds| - 1]])[..|rest|] == rest;
      }
    }
  }

  /** The `$pull` then `$push` of a registration. */
  function Enroll(creds: seq<Credential>, c: Credential): seq<Credential> {
    Without(creds, c.credentialId) + [c]
  }

  /**
   * After enrolment exactly one credential carries the new ID, it is the last one, and
   * the ones before it are the old ones with other IDs, in their old order.
   */
  lemma EnrollFacts(creds: seq<Credential>, c: Credential)
    ensures var r := Enroll(creds, c);
      && CountId(r, c.credentialId) == 1
      && r[|r| - 1] == c
      && r[..|r| - 1] == Without(creds, c.credentialId)
      && ((forall i :: 0 <= i < |creds| ==> creds[i].credentialId != c.credentialId) ==> r == creds + [c])
  {
    var r := Enroll(creds, c);
    CountWithout(creds, c.credentialId);
    assert r[..|r| - 1] == Without(creds, c.credentialId);
    if forall i :: 0 <= i < |creds| ==> creds[i].credentialId != c.credentialId {
      WithoutAbsent(creds, c.credentialId);
    }
  }

  /** `credentials.find(c => c.credentialID === id)`: the first match. */
  function FindCredential(creds: seq<Credential>, id: string): (r: Option<nat>)
    ensures r.None? <==> forall i :: 0 <= i < |creds| ==> creds[i].credentialId != id
    ensures r.Some? ==> r.value < |creds| && creds[r.value].credentialId == id
    ensures r.Some? ==> forall i :: 0 <= i < r.value ==> creds[i].credentialId != id
  {
    if creds == [] then None
    else if creds[0].credentialId == id then Some(0)
    else match FindCredential(creds[1..], id)
      case None => None
      case Some(k) => Some(k + 1)
  }

  /** The positional `$set` of `webAuthnCredentials.$.counter`: the first credential with the ID gets the counter. */
  function SetCounter(creds: seq<Credential>, id: string, counter: int): (r: seq<Credential>)
    ensures |r| == |creds|
  {
    match FindCredential(creds, id)
    case None => creds
    case Some(i) => creds[i := creds[i].(counter := counter)]
  }

  /** Only the first credential with the ID changes, and only in its counter. */
  lemma SetCounterFacts(creds: seq<Credential>, id: string, counter: int)
    ensures var r := SetCounter(creds, id, counter);
      && (forall i :: 0 <= i < |creds| && FindCredential(creds, id) != Some(i) ==> r[i] == creds[i])
      && (FindCredential(creds, id).Some? ==>
            var i := FindCredential(creds, id).value; r[i] == creds[i].(counter := counter))
      && (forall i :: 0 <= i < |creds| ==> r[i].credentialId == creds[i].credentialId)
  {
  }
}

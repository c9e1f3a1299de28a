/**
 * The request-time validator: resolves the client's short identifier to its
 * signed token, decodes it, checks the token type, optionally triggers a
 * refresh, and checks the required scopes. Failing any check before the scope
 * check is a 401; only a missing scope is a 403.
 */
module Validation {
  import opened Wrappers
  import opened Config
  import opened Codec
  import opened Login
  import opened Restriction
  import opened RefreshHandling
  import opened Authentication

  /** The validator's answer: the user's claims, or an HTTP error with its `WWW-Authenticate` value. */
  datatype Outcome =
    | Authorized(user: Claims)
    | Unauthenticated(challenge: string)   // 401
    | Forbidden(challenge: string)         // 403

  /** `" ".join(scopes)`. */
  function JoinScopes(scopes: seq<string>): string
  {
    if |scopes| == 0 then ""
    else if |scopes| == 1 then scopes[0]
    else scopes[0] + " " + JoinScopes(scopes[1..])
  }

  /** The `WWW-Authenticate` value both error responses carry. */
  function Challenge(required: seq<string>): (c: string)
    ensures c == "Bearer" <==> |required| == 0
    ensures |required| > 0 ==> |c| >= 13 && c[..13] == "Bearer scope=" && c[13..] == JoinScopes(required)
  {
    if |required| > 0 then "Bearer scope=" + JoinScopes(required) else "Bearer"
  }

  /** Every required scope is among the available ones. */
  predicate Granted(required: seq<string>, available: seq<string>)
  {
    forall i :: 0 <= i < |required| ==> required[i] in available
  }

  /** The checks that fail with 401: a stored, non-empty token that decodes and is an access token. */
  function Authenticated(stored: Option<SignedToken>, key: string, now: int): Option<Claims>
  {
    match stored
    case None => None
    case Some(jwt) =>
      if IsBlank(jwt) then None
      else match Decode(jwt, key, now)
        case Err(_) => None
        case Ok(claims) => if claims.tokenType == Some("access") then Some(claims) else None
  }

  /** The validator's decision for the token found in the session store. */
  function Decide(stored: Option<SignedToken>, required: seq<string>, key: string, now: int): (o: Outcome)
    ensures o.Unauthenticated? <==> Authenticated(stored, key, now).None?
    ensures o.Forbidden? <==> Authenticated(stored, key, now).Some? && !Granted(required, Authenticated(stored, key, now).value.scopes)
    ensures o.Authorized? ==> o.user == Authenticated(stored, key, now).value && Granted(required, o.user.scopes)
    ensures !o.Authorized? ==> o.challenge == Challenge(required)
  {
    match Authenticated(stored, key, now)
    case None => Unauthenticated(Challenge(required))
    case Some(claims) =>
      if Granted(required, claims.scopes) then Authorized(claims) else Forbidden(Challenge(required))
  }

  /** The scope loop: stops at the first required scope that is not available. */
  method ScopesGranted(required: seq<string>, available: seq<string>) returns (granted: bool)
    ensures granted == Granted(required, available)
  {
    var i := 0;
    while i < |required|
      invariant 0 <= i <= |required|
      invariant forall j :: 0 <= j < i ==> required[j] in available
    {
      if required[i] !in available {
        return false;
      }
      i := i + 1;
    }
    return true;
  }

  class AuthValidator {
    const login: LoginDb
    const service: RefreshHandler
    const jwtKey: string

    ghost predicate Valid()
    {
      service.Valid() && service.login == login && service.secrets.jwtKey == jwtKey
    }

    constructor (service: RefreshHandler)
      requires service.Valid()
      ensures Valid() && this.service == service && this.login == service.login
    {
      this.login := service.login;
      this.service := service;
      this.jwtKey := service.secrets.jwtKey;
    }

    /**
     * Asks the refresh service to rotate the pair; `delivered` is whether the call
     * reached it. A failed call is swallowed and changes nothing.
     */
    method TriggerRefresh(userId: string, token: string, delivered: bool, now: int)
      requires Valid()
      modifies login, service.restrict, login.journal
      ensures Stores(login.hashes, service.restrict.marks)
           == if delivered then Refresh(old(Stores(login.hashes, service.restrict.marks)), userId, token, service.secrets, now)
              else old(Stores(login.hashes, service.restrict.marks))
      ensures login.journal.writes == old(login.journal.writes)
           + if delivered then RefreshWrites(old(Stores(login.hashes, service.restrict.marks)), userId, token, service.secrets, now)
             else []
    {
      if delivered {
        service.RefreshToken(userId, token, now);
      }
    }

    /**
     * Validates a request. The outcome depends only on the session store as it
     * was on entry; a refresh is triggered only for a token that passed every 401
     * check, before the scope check, so a 403 request still triggers one.
     */
    method Call(required: seq<string>, token: string, userId: string, refresh: bool, delivered: bool, now: int)
      returns (outcome: Outcome)
      requires Valid()
      modifies login, service.restrict, login.journal
      ensures outcome == Decide(StoredToken(old(login.hashes), userId, token, now), required, jwtKey, now)
      ensures Stores(login.hashes, service.restrict.marks)
           == if refresh && delivered && Authenticated(StoredToken(old(login.hashes), userId, token, now), jwtKey, now).Some?
              then Refresh(old(Stores(login.hashes, service.restrict.marks)), userId, token, service.secrets, now)
              else old(Stores(login.hashes, service.restrict.marks))
      ensures login.journal.writes == old(login.journal.writes)
           + if refresh && delivered && Authenticated(StoredToken(old(login.hashes), userId, token, now), jwtKey, now).Some?
             then RefreshWrites(old(Stores(login.hashes, service.restrict.marks)), userId, token, service.secrets, now)
             else []
    {
      var challenge := Challenge(required);
      var jwt := login.GetToken(userId, token, now);
      if jwt.None? || IsBlank(jwt.value) {
        return Unauthenticated(challenge);
      }
      var payload := Decode(jwt.value, jwtKey, now);
      if payload.Err? {
        return Unauthenticated(challenge);
      }
      if payload.value.tokenType != Some("access") {
        return Unauthenticated(challenge);
      }
      var userInfo := payload.value;
      if refresh {
        TriggerRefresh(userId, token, delivered, now);
      }
      var granted := ScopesGranted(required, userInfo.scopes);
      if !granted {
        return Forbidden(challenge);
      }
      return Authorized(userInfo);
    }
  }

  /** Whether a request is a 401 does not depend on the scopes it requires: the 401 checks come first. */
  lemma UnauthenticatedIgnoresScopes(stored: Option<SignedToken>, required1: seq<string>, required2: seq<string>,
                                     key: string, now: int)
    ensures Decide(stored, required1, key, now).Unauthenticated? == Decide(stored, required2, key, now).Unauthenticated?
  {
  }

  /** A request that requires no scope is never a 403. */
  lemma NoScopesNeverForbidden(stored: Option<SignedToken>, key: string, now: int)
    ensures !Decide(stored, [], key, now).Forbidden?
  {
  }

  /** The required scopes are granted exactly when, as a set, they are a subset of the available ones. */
  lemma GrantedIsSubset(required: seq<string>, available: seq<string>)
    ensures Granted(required, available) <==> (set s | s in required) <= (set s | s in available)
  {
    var need := set s | s in required;
    var have := set s | s in available;
    if Granted(required, available) {
      forall s | s in need ensures s in have {
        var i :| 0 <= i < |required| && required[i] == s;
      }
    } else {
      var i :| 0 <= i < |required| && required[i] !in available;
      assert required[i] in need && required[i] !in have;
      assert !(need <= have);
    }
  }

  /**
   * A session just issued for an access-type payload is authorized exactly when
   * the payload grants the required scopes, and forbidden otherwise, until the
   * token's lifetime runs out; from then on every request is a 401.
   */
  lemma ValidateAfterLogin(s: Stores, userId: string, payload: Claims, required: seq<string>,
                           secrets: Secrets, now: int, later: int)
    requires payload.tokenType == Some("access")
    requires now <= later
    ensures var (s', id) := Issue(s, userId, payload, secrets, now);
            var o := Decide(StoredToken(s'.sessions, userId, id, later), required, secrets.jwtKey, later);
            if later < now + secrets.expiry * 60 then
              o == if Granted(required, payload.scopes) then Authorized(payload) else Forbidden(Challenge(required))
            else o == Unauthenticated(Challenge(required))
  {
    IssuedSession(s, userId, payload, secrets, now, later);
    SetThenGet(s.sessions, userId, Encode(payload, secrets.jwtKey, secrets.expiry, now), secrets.expiry, None, now, later);
  }

  /** The same login grants a scope it carries and forbids one it lacks. */
  lemma ReadButNotWrite(s: Stores, secrets: Secrets, now: int)
    requires secrets.expiry > 0
    ensures var user := Claims("u1", ["read"], Some("access"));
            var (s', id) := Issue(s, "u1", user, secrets, now);
            var stored := StoredToken(s'.sessions, "u1", id, now);
            Decide(stored, ["read"], secrets.jwtKey, now) == Authorized(user)
            && Decide(stored, ["write"], secrets.jwtKey, now) == Forbidden("Bearer scope=write")
  {
    var user := Claims("u1", ["read"], Some("access"));
    var read: seq<string> := ["read"];
    var write: seq<string> := ["write"];
    assert Granted(read, user.scopes);
    assert write[0] !in user.scopes;
    assert !Granted(write, user.scopes);
    assert Challenge(write) == "Bearer scope=write";
    ValidateAfterLogin(s, "u1", user, read, secrets, now, now);
    ValidateAfterLogin(s, "u1", user, write, secrets, now, now);
  }

  /**
   * A rotation keeps the pair valid: a request for the same scopes gets the same
   * answer from the rotated token, throughout its fresh lifetime.
   */
  lemma RefreshKeepsDecision(s: Stores, userId: string, token: string, required: seq<string>,
                             secrets: Secrets, now: int, later: int)
    requires NamedFieldsOnly(s.sessions)
    requires !IsRestricted(s.marks, userId, token, now)
    requires Authenticated(StoredToken(s.sessions, userId, token, now), secrets.jwtKey, now).Some?
    requires now <= later < now + secrets.expiry * 60
    ensures var s' := Refresh(s, userId, token, secrets, now);
            Decide(StoredToken(s'.sessions, userId, token, later), required, secrets.jwtKey, later)
            == Decide(StoredToken(s.sessions, userId, token, now), required, secrets.jwtKey, now)
  {
    RotationEffect(s, userId, token, secrets, now, later);
  }
}

/**
 * Login: signs the user's claims, stores the token under the identifier derived
 * from the user id, pre-marks that pair as restricted and hands the identifier
 * to the client in a cookie.
 */
module Authentication {
  import opened Wrappers
  import opened Config
  import opened Codec
  import opened ShortUuid
  import opened Trace
  import opened Login
  import opened Restriction
  import opened RefreshHandling

  /** `authenticate`'s effect on the stores, and the identifier it returns. */
  function Issue(s: Stores, userId: string, payload: Claims, secrets: Secrets, now: int): (Stores, string)
  {
    var jwt := Encode(payload, secrets.jwtKey, secrets.expiry, now);
    var (sessions, id) := PutToken(s.sessions, userId, jwt, secrets.expiry, None, now);
    (Stores(sessions, MarkRestricted(s.marks, userId, id, secrets.refreshRestrictMinutes, now)), id)
  }

  /** The HTTP response: only the cookie values are modelled. */
  class Response {
    var cookies: map<string, string>

    constructor ()
      ensures cookies == map[]
    {
      cookies := map[];
    }

    method SetCookie(key: string, value: string)
      modifies this
      ensures cookies == old(cookies)[key := value]
    {
      cookies := cookies[key := value];
    }
  }

  class AuthenticationHandler {
    const login: LoginDb
    const restrict: RestrictDb
    const secrets: Secrets

    ghost predicate Valid()
    {
      login.journal == restrict.journal && secrets.Valid()
    }

    constructor (login: LoginDb, restrict: RestrictDb, secrets: Secrets)
      requires login.journal == restrict.journal && secrets.Valid()
      ensures Valid() && this.login == login && this.restrict == restrict && this.secrets == secrets
    {
      this.login := login;
      this.restrict := restrict;
      this.secrets := secrets;
    }

    /**
     * Stores the session, then marks it, then sets the two cookies; the client's
     * `access_token` is the short identifier, never the signed token.
     */
    method Authenticate(response: Response, userId: string, payload: Claims, now: int) returns (token: string)
      requires Valid()
      modifies login, restrict, login.journal, response
      ensures (Stores(login.hashes, restrict.marks), token)
           == Issue(old(Stores(login.hashes, restrict.marks)), userId, payload, secrets, now)
      ensures login.journal.writes == old(login.journal.writes)
           + [FieldWrite(userId, token), FieldTtl(userId, token, secrets.expiry * 60),
              KeyWrite(Key(userId, token), secrets.refreshRestrictMinutes * 60)]
      ensures response.cookies == old(response.cookies)["user_id" := userId]["access_token" := token]
    {
      var jwt := Encode(payload, secrets.jwtKey, secrets.expiry, now);
      token := login.SetToken(userId, jwt, secrets.expiry, None, now);
      restrict.SetRestrictRefresh(userId, token, secrets, now);
      response.SetCookie("user_id", userId);
      response.SetCookie("access_token", token);
    }
  }

  /**
   * After login the identifier is the one derived from the user id, the token
   * under it decodes to the payload for the configured lifetime, and the pair is
   * restricted for the configured window.
   */
  lemma IssuedSession(s: Stores, userId: string, payload: Claims, secrets: Secrets, now: int, later: int)
    requires now <= later
    ensures var (s', id) := Issue(s, userId, payload, secrets, now);
            && id == DeriveId(userId)
            && (later < now + secrets.expiry * 60 ==>
                  StoredToken(s'.sessions, userId, id, later) == Some(Encode(payload, secrets.jwtKey, secrets.expiry, now))
                  && Decode(StoredToken(s'.sessions, userId, id, later).value, secrets.jwtKey, later) == Ok(payload))
            && (later < now + secrets.refreshRestrictMinutes * 60 ==> IsRestricted(s'.marks, userId, id, later))
  {
    var jwt := Encode(payload, secrets.jwtKey, secrets.expiry, now);
    SetThenGet(s.sessions, userId, jwt, secrets.expiry, None, now, later);
  }

  /** A refresh right after login, inside the restriction window, changes nothing. */
  lemma LoginThenRefresh(s: Stores, userId: string, payload: Claims, secrets: Secrets, now: int, later: int)
    requires now <= later < now + secrets.refreshRestrictMinutes * 60
    ensures var (s', id) := Issue(s, userId, payload, secrets, now);
            Refresh(s', userId, id, secrets, later) == s'
            && RefreshWrites(s', userId, id, secrets, later) == []
  {
    IssuedSession(s, userId, payload, secrets, now, later);
  }

  /** Two logins of one user land on the same identifier, and the later token wins. */
  lemma RepeatedLogin(s: Stores, userId: string, first: Claims, second: Claims, secrets: Secrets, now1: int, now2: int)
    ensures var (s1, id1) := Issue(s, userId, first, secrets, now1);
            var (s2, id2) := Issue(s1, userId, second, secrets, now2);
            id1 == id2 && s2 == Issue(s, userId, second, secrets, now2).0
  {
    var jwt1 := Encode(first, secrets.jwtKey, secrets.expiry, now1);
    var jwt2 := Encode(second, secrets.jwtKey, secrets.expiry, now2);
    LastWriteWins(s.sessions, userId, jwt1, secrets.expiry, now1, jwt2, secrets.expiry, now2, None);
    MarkTwice(s.marks, userId, DeriveId(userId), secrets.refreshRestrictMinutes, now1, now2);
  }

  /** Login keeps the session store free of fields named by the empty string. */
  lemma IssueNamesFields(s: Stores, userId: string, payload: Claims, secrets: Secrets, now: int)
    requires NamedFieldsOnly(s.sessions)
    ensures NamedFieldsOnly(Issue(s, userId, payload, secrets, now).0.sessions)
  {
    PutTokenNamesFields(s.sessions, userId, Encode(payload, secrets.jwtKey, secrets.expiry, now), secrets.expiry, None, now);
  }
}

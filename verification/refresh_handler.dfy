/**
 * The refresh procedure: rotates the signed token behind a short identifier,
 * unless the pair was rotated (or issued) within the restriction window.
 */
module RefreshHandling {
  import opened Wrappers
  import opened Config
  import opened Codec
  import opened Trace
  import opened Login
  import opened Restriction

  /** The contents of the two stores. */
  datatype Stores = Stores(sessions: Hashes, marks: Marks)

  /** The checks a refresh passes before it writes anything; `Ok` carries the decoded claims. */
  function Precheck(s: Stores, userId: string, token: string, secrets: Secrets, now: int): Result<Claims, ()>
  {
    if IsRestricted(s.marks, userId, token, now) then Err(())
    else match StoredToken(s.sessions, userId, token, now)
      case None => Err(())
      case Some(jwt) =>
        if IsBlank(jwt) then Err(())
        else match Decode(jwt, secrets.jwtKey, now)
          case Err(_) => Err(())
          case Ok(claims) => Ok(claims)
  }

  /** The two writes of a rotation: the re-signed claims under the same identifier, then the mark. */
  function Rotate(s: Stores, userId: string, token: string, claims: Claims, secrets: Secrets, now: int): Stores
  {
    var jwt := Encode(claims, secrets.jwtKey, secrets.expiry, now);
    var sessions := PutToken(s.sessions, userId, jwt, secrets.expiry, Some(token), now).0;
    Stores(sessions, MarkRestricted(s.marks, userId, token, secrets.refreshRestrictMinutes, now))
  }

  /** `RefreshToken`'s effect on the stores; on every early return nothing changes. */
  function Refresh(s: Stores, userId: string, token: string, secrets: Secrets, now: int): Stores
  {
    match Precheck(s, userId, token, secrets, now)
    case Err(_) => s
    case Ok(claims) => Rotate(s, userId, token, claims, secrets, now)
  }

  /** The writes a refresh performs, in order. */
  function RefreshWrites(s: Stores, userId: string, token: string, secrets: Secrets, now: int): seq<Write>
  {
    if Precheck(s, userId, token, secrets, now).Err? then []
    else
      var id := ChooseId(userId, Some(token));
      [FieldWrite(userId, id), FieldTtl(userId, id, secrets.expiry * 60),
       KeyWrite(Key(userId, token), secrets.refreshRestrictMinutes * 60)]
  }

  class RefreshHandler {
    const login: LoginDb
    const restrict: RestrictDb
    const secrets: Secrets

    ghost predicate Valid()
    {
      login.journal == restrict.journal && secrets.Valid()
    }

    constructor (login: LoginDb, restrict: RestrictDb, secrets: Secrets)
      requires login.journal == restrict.journal && secrets.Valid()
      ensures Valid() && this.login == login && this.restrict == restrict && this.secrets == secrets
    {
      this.login := login;
      this.restrict := restrict;
      this.secrets := secrets;
    }

    /**
     * Always acknowledges with nothing: a restricted pair, a missing or empty token
     * and a token that fails to decode all end the call without a write.
     */
    method RefreshToken(userId: string, token: string, now: int)
      requires Valid()
      modifies login, restrict, login.journal
      ensures Stores(login.hashes, restrict.marks)
           == Refresh(old(Stores(login.hashes, restrict.marks)), userId, token, secrets, now)
      ensures login.journal.writes
           == old(login.journal.writes) + RefreshWrites(old(Stores(login.hashes, restrict.marks)), userId, token, secrets, now)
    {
      ghost var before := Stores(login.hashes, restrict.marks);
      var restricted := restrict.IsRefreshRestricted(userId, token, now);
      if restricted {
        return;
      }
      var jwt := login.GetToken(userId, token, now);
      if jwt.None? || IsBlank(jwt.value) {
        return;
      }
      var payload := Decode(jwt.value, secrets.jwtKey, now);
      if payload.Err? {
        // the decode error is caught and discarded
        return;
      }
      var rotated := Encode(payload.value, secrets.jwtKey, secrets.expiry, now);
      var _ := login.SetToken(userId, rotated, secrets.expiry, Some(token), now);
      restrict.SetRestrictRefresh(userId, token, secrets, now);
      assert Stores(login.hashes, restrict.marks) == Rotate(before, userId, token, payload.value, secrets, now);
    }
  }

  /** Each early return leaves both stores as they were. */
  lemma EarlyReturns(s: Stores, userId: string, token: string, secrets: Secrets, now: int)
    requires IsRestricted(s.marks, userId, token, now)
          || StoredToken(s.sessions, userId, token, now).None?
          || IsBlank(StoredToken(s.sessions, userId, token, now).value)
          || Decode(StoredToken(s.sessions, userId, token, now).value, secrets.jwtKey, now).Err?
    ensures Refresh(s, userId, token, secrets, now) == s
    ensures RefreshWrites(s, userId, token, secrets, now) == []
  {
  }

  /**
   * A successful refresh rewrites only the pair's session field, under the same
   * identifier, with a token carrying the same claims and a fresh lifetime, and
   * marks only the pair's key.
   */
  lemma {:induction false} RotationEffect(s: Stores, userId: string, token: string, secrets: Secrets, now: int, later: int)
    requires NamedFieldsOnly(s.sessions)
    requires Precheck(s, userId, token, secrets, now).Ok?
    requires now <= later
    ensures var s' := Refresh(s, userId, token, secrets, now);
            var claims := Decode(StoredToken(s.sessions, userId, token, now).value, secrets.jwtKey, now).value;
            && FieldAt(s'.sessions, userId, token)
               == Some(Field(Record(Encode(claims, secrets.jwtKey, secrets.expiry, now), secrets.expiry), Some(now + secrets.expiry * 60)))
            && (later < now + secrets.expiry * 60 ==>
                  StoredToken(s'.sessions, userId, token, later).Some?
                  && Decode(StoredToken(s'.sessions, userId, token, later).value, secrets.jwtKey, later) == Ok(claims))
            && (forall k, f :: k != userId || f != token ==> FieldAt(s'.sessions, k, f) == FieldAt(s.sessions, k, f))
            && (later < now + secrets.refreshRestrictMinutes * 60 ==> IsRestricted(s'.marks, userId, token, later))
            && (forall k :: k != Key(userId, token) ==> (k in s'.marks <==> k in s.marks) && (k in s.marks ==> s'.marks[k] == s.marks[k]))
  {
    // the pair had a stored token, so its identifier names a field and is not empty
    assert FieldAt(s.sessions, userId, token).Some?;
    assert token != "";
    assert ChooseId(userId, Some(token)) == token;
  }

  /** Refreshing twice at the same moment is the same as refreshing once: the first rotation marks the pair. */
  lemma RefreshIdempotent(s: Stores, userId: string, token: string, secrets: Secrets, now: int)
    requires secrets.Valid()
    ensures var once := Refresh(s, userId, token, secrets, now);
            Refresh(once, userId, token, secrets, now) == once
  {
    var once := Refresh(s, userId, token, secrets, now);
    if Precheck(s, userId, token, secrets, now).Ok? {
      assert IsRestricted(once.marks, userId, token, now);
    }
  }

  /**
   * Two refreshes that both pass the checks before either writes (the accepted
   * race) end with one well-formed entry: the state the later rotation alone
   * would leave, since its writes land last in both stores.
   */
  lemma {:induction false} RacingRotations(s: Stores, userId: string, token: string, claims: Claims, secrets: Secrets,
                                           first: int, second: int)
    ensures Rotate(Rotate(s, userId, token, claims, secrets, first), userId, token, claims, secrets, second)
         == Rotate(s, userId, token, claims, secrets, second)
  {
    var jwt1 := Encode(claims, secrets.jwtKey, secrets.expiry, first);
    var jwt2 := Encode(claims, secrets.jwtKey, secrets.expiry, second);
    LastWriteWins(s.sessions, userId, jwt1, secrets.expiry, first, jwt2, secrets.expiry, second, Some(token));
    MarkTwice(s.marks, userId, token, secrets.refreshRestrictMinutes, first, second);
  }

  /** A refresh keeps the session store free of fields named by the empty string. */
  lemma RefreshNamesFields(s: Stores, userId: string, token: string, secrets: Secrets, now: int)
    requires NamedFieldsOnly(s.sessions)
    ensures NamedFieldsOnly(Refresh(s, userId, token, secrets, now).sessions)
  {
    var pre := Precheck(s, userId, token, secrets, now);
    if pre.Ok? {
      var jwt := Encode(pre.value, secrets.jwtKey, secrets.expiry, now);
      PutTokenNamesFields(s.sessions, userId, jwt, secrets.expiry, Some(token), now);
    }
  }
}

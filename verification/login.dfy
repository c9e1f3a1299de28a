/**
 * The session store: one hash per user id, mapping a short identifier to the
 * record `{token, expire}`, each field with its own expiry time. Time is a
 * number of seconds `now`; a field is gone from the moment its expiry time is
 * reached (eviction itself is not modelled).
 */
module Login {
  import opened Wrappers
  import opened Codec
  import opened ShortUuid
  import opened Trace

  /** The value stored under a short identifier; `expire` is the lifetime in minutes. */
  datatype Record = Record(token: SignedToken, expire: int)

  /** A hash field with its expiry time; `None` is a field without a TTL. */
  datatype Field = Field(record: Record, expiresAt: Option<int>)

  type Hashes = map<string, map<string, Field>>

  predicate Live(f: Field, now: int)
  {
    f.expiresAt.None? || now < f.expiresAt.value
  }

  /** The field `field` of hash `key`, whether live or not. */
  function FieldAt(h: Hashes, key: string, field: string): Option<Field>
  {
    if key in h && field in h[key] then Some(h[key][field]) else None
  }

  /** HSET: writes the field afresh, without a TTL, leaving the rest of the hash alone. */
  function HSet(h: Hashes, key: string, field: string, rec: Record): Hashes
  {
    h[key := (if key in h then h[key] else map[])[field := Field(rec, None)]]
  }

  /** HEXPIRE: gives an existing field an expiry `seconds` from now. */
  function HExpire(h: Hashes, key: string, field: string, seconds: int, now: int): Hashes
  {
    if key in h && field in h[key] then
      h[key := h[key][field := h[key][field].(expiresAt := Some(now + seconds))]]
    else h
  }

  /** `short_token or shortuuid.uuid(name=user_id)`: a missing or empty identifier is derived. */
  function ChooseId(userId: string, shortToken: Option<string>): (id: string)
    ensures id != ""
    ensures shortToken.Some? && shortToken.value != "" ==> id == shortToken.value
    ensures shortToken.None? || shortToken.value == "" ==> id == DeriveId(userId)
  {
    if shortToken.Some? && shortToken.value != "" then shortToken.value else DeriveId(userId)
  }

  /**
   * `set_token`: the new hashes and the identifier returned. Exactly one field is
   * written: it holds the token with `expire` equal to the minutes given and
   * expires `expireMinutes * 60` seconds from now.
   */
  function PutToken(h: Hashes, userId: string, token: SignedToken, expireMinutes: int,
                    shortToken: Option<string>, now: int): (r: (Hashes, string))
    ensures r.1 == ChooseId(userId, shortToken)
    ensures FieldAt(r.0, userId, r.1) == Some(Field(Record(token, expireMinutes), Some(now + expireMinutes * 60)))
    ensures forall k, f :: k != userId || f != r.1 ==> FieldAt(r.0, k, f) == FieldAt(h, k, f)
  {
    var id := ChooseId(userId, shortToken);
    (HExpire(HSet(h, userId, id, Record(token, expireMinutes)), userId, id, expireMinutes * 60, now), id)
  }

  /** `get_token`: the token of the live record, `None` when there is none. */
  function StoredToken(h: Hashes, userId: string, shortToken: string, now: int): Option<SignedToken>
  {
    match FieldAt(h, userId, shortToken)
    case Some(f) => if Live(f, now) then Some(f.record.token) else None
    case None => None
  }

  /** No field is named by the empty string: `set_token` never writes one. */
  ghost predicate NamedFieldsOnly(h: Hashes)
  {
    forall k :: k in h ==> "" !in h[k]
  }

  class LoginDb {
    var hashes: Hashes
    ghost const journal: Journal

    constructor (journal: Journal)
      ensures hashes == map[] && this.journal == journal
    {
      hashes := map[];
      this.journal := journal;
    }

    /** Writes the record, then its TTL, and returns the identifier used. */
    method SetToken(userId: string, token: SignedToken, expireMinutes: int, shortToken: Option<string>, now: int)
      returns (id: string)
      modifies this, journal
      ensures (hashes, id) == PutToken(old(hashes), userId, token, expireMinutes, shortToken, now)
      ensures journal.writes == old(journal.writes) + [FieldWrite(userId, id), FieldTtl(userId, id, expireMinutes * 60)]
    {
      id := ChooseId(userId, shortToken);
      hashes := HSet(hashes, userId, id, Record(token, expireMinutes));
      journal.writes := journal.writes + [FieldWrite(userId, id)];
      hashes := HExpire(hashes, userId, id, expireMinutes * 60, now);
      journal.writes := journal.writes + [FieldTtl(userId, id, expireMinutes * 60)];
    }

    /** Reads the record's token; the store is not changed. */
    method GetToken(userId: string, shortToken: string, now: int) returns (token: Option<SignedToken>)
      ensures token.Some? <==> exists f :: FieldAt(hashes, userId, shortToken) == Some(f) && Live(f, now)
      ensures token.Some? ==> token.value == FieldAt(hashes, userId, shortToken).value.record.token
      ensures token == StoredToken(hashes, userId, shortToken, now)
    {
      token := None;
      if userId in hashes && shortToken in hashes[userId] {
        var f := hashes[userId][shortToken];
        if Live(f, now) {
          token := Some(f.record.token);
        }
      }
    }
  }

  /** A stored token can be read back under the returned identifier until its TTL runs out, and not after. */
  lemma SetThenGet(h: Hashes, userId: string, token: SignedToken, expireMinutes: int,
                   shortToken: Option<string>, now: int, later: int)
    requires now <= later
    ensures var (h', id) := PutToken(h, userId, token, expireMinutes, shortToken, now);
            StoredToken(h', userId, id, later) == if later < now + expireMinutes * 60 then Some(token) else None
  {
  }

  /** Other sessions of the same user and all other users read exactly as before. */
  lemma SetTokenFrame(h: Hashes, userId: string, token: SignedToken, expireMinutes: int,
                      shortToken: Option<string>, now: int, k: string, f: string, later: int)
    requires k != userId || f != ChooseId(userId, shortToken)
    ensures StoredToken(PutToken(h, userId, token, expireMinutes, shortToken, now).0, k, f, later)
         == StoredToken(h, k, f, later)
  {
  }

  /** Writing the same field twice is the same as writing it once with the second token and TTL. */
  lemma {:induction false} LastWriteWins(h: Hashes, userId: string, first: SignedToken, firstMinutes: int, firstNow: int,
                                         second: SignedToken, secondMinutes: int, secondNow: int, shortToken: Option<string>)
    ensures PutToken(PutToken(h, userId, first, firstMinutes, shortToken, firstNow).0,
                     userId, second, secondMinutes, shortToken, secondNow)
         == PutToken(h, userId, second, secondMinutes, shortToken, secondNow)
  {
    var id := ChooseId(userId, shortToken);
    var once := PutToken(h, userId, first, firstMinutes, shortToken, firstNow).0;
    PutTokenShape(h, userId, first, firstMinutes, shortToken, firstNow);
    PutTokenShape(once, userId, second, secondMinutes, shortToken, secondNow);
    PutTokenShape(h, userId, second, secondMinutes, shortToken, secondNow);
    var base: map<string, Field> := if userId in h then h[userId] else map[];
    var last := Field(Record(second, secondMinutes), Some(secondNow + secondMinutes * 60));
    assert once[userId][id := last] == base[id := last];
    assert once[userId := base[id := last]] == h[userId := base[id := last]];
  }

  lemma PutTokenShape(h: Hashes, userId: string, token: SignedToken, expireMinutes: int,
                      shortToken: Option<string>, now: int)
    ensures PutToken(h, userId, token, expireMinutes, shortToken, now).0
         == h[userId := (if userId in h then h[userId] else map[])[ChooseId(userId, shortToken) := Field(Record(token, expireMinutes), Some(now + expireMinutes * 60))]]
  {
    var id := ChooseId(userId, shortToken);
    var base: map<string, Field> := if userId in h then h[userId] else map[];
    var ttl := Field(Record(token, expireMinutes), Some(now + expireMinutes * 60));
    var written := HSet(h, userId, id, Record(token, expireMinutes));
    assert written == h[userId := base[id := Field(Record(token, expireMinutes), None)]];
    assert written[userId][id := ttl] == base[id := ttl];
    assert HExpire(written, userId, id, expireMinutes * 60, now) == written[userId := base[id := ttl]];
    assert written[userId := base[id := ttl]] == h[userId := base[id := ttl]];
  }

  /** `set_token` keeps the store free of fields named by the empty string. */
  lemma PutTokenNamesFields(h: Hashes, userId: string, token: SignedToken, expireMinutes: int,
                            shortToken: Option<string>, now: int)
    requires NamedFieldsOnly(h)
    ensures NamedFieldsOnly(PutToken(h, userId, token, expireMinutes, shortToken, now).0)
  {
    var h' := PutToken(h, userId, token, expireMinutes, shortToken, now).0;
    forall k | k in h' ensures "" !in h'[k] {
      assert FieldAt(h', k, "") == FieldAt(h, k, "");
    }
  }
}

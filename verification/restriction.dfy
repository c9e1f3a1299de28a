/**
 * The refresh-restriction store: plain keys `user_id + "__" + token`, each holding
 * the value "restricted" until its expiry time.
 */
module Restriction {
  import opened Config
  import opened Trace

  datatype Mark = Mark(value: string, expiresAt: int)

  type Marks = map<string, Mark>

  /** The composite key of a (user id, short identifier) pair. */
  function Key(userId: string, token: string): string
  {
    userId + "__" + token
  }

  /** EXISTS: the key holds a value that has not yet expired. */
  predicate Exists(m: Marks, key: string, now: int)
  {
    key in m && now < m[key].expiresAt
  }

  /** `is_refresh_restricted`. */
  predicate IsRestricted(m: Marks, userId: string, token: string, now: int)
  {
    Exists(m, Key(userId, token), now)
  }

  /**
   * `set_restrict_refresh`: marks the pair for `minutes` minutes from now. Only its
   * key changes; an earlier mark of the same key is replaced, so its TTL restarts.
   */
  function MarkRestricted(m: Marks, userId: string, token: string, minutes: int, now: int): (m': Marks)
    ensures forall later :: now <= later < now + minutes * 60 ==> IsRestricted(m', userId, token, later)
    ensures forall later :: now + minutes * 60 <= later ==> !IsRestricted(m', userId, token, later)
    ensures forall k :: k != Key(userId, token) ==> (k in m' <==> k in m) && (k in m ==> m'[k] == m[k])
  {
    m[Key(userId, token) := Mark("restricted", now + minutes * 60)]
  }

  class RestrictDb {
    var marks: Marks
    ghost const journal: Journal

    constructor (journal: Journal)
      ensures marks == map[] && this.journal == journal
    {
      marks := map[];
      this.journal := journal;
    }

    method SetRestrictRefresh(userId: string, token: string, secrets: Secrets, now: int)
      requires secrets.Valid()
      modifies this, journal
      ensures marks == MarkRestricted(old(marks), userId, token, secrets.refreshRestrictMinutes, now)
      ensures journal.writes == old(journal.writes) + [KeyWrite(Key(userId, token), secrets.refreshRestrictMinutes * 60)]
    {
      var seconds := secrets.refreshRestrictMinutes * 60;
      marks := marks[Key(userId, token) := Mark("restricted", now + seconds)];
      journal.writes := journal.writes + [KeyWrite(Key(userId, token), seconds)];
    }

    /** Reads whether the pair's key exists; the store is not changed. */
    method IsRefreshRestricted(userId: string, token: string, now: int) returns (restricted: bool)
      ensures restricted == IsRestricted(marks, userId, token, now)
    {
      var key := userId + "__" + token;
      restricted := key in marks && now < marks[key].expiresAt;
    }
  }

  /** Marking twice leaves the pair restricted, as one mark made at the later time. */
  lemma MarkTwice(m: Marks, userId: string, token: string, minutes: int, first: int, second: int)
    ensures MarkRestricted(MarkRestricted(m, userId, token, minutes, first), userId, token, minutes, second)
         == MarkRestricted(m, userId, token, minutes, second)
  {
  }

  /** The key encoding is not injective: two different pairs share one key. */
  lemma KeyCollision()
    ensures ("a__b", "c") != ("a", "b__c")
    ensures Key("a__b", "c") == Key("a", "b__c")
  {
  }

  /** Marking a pair also restricts every pair whose key collides with it, for the whole window. */
  lemma CollidingPairRestricted(m: Marks, u1: string, t1: string, u2: string, t2: string,
                                minutes: int, now: int, later: int)
    requires Key(u1, t1) == Key(u2, t2)
    requires now <= later < now + minutes * 60
    ensures IsRestricted(MarkRestricted(m, u1, t1, minutes, now), u2, t2, later)
  {
  }

  /**
   * The encoding is injective on identifiers without an underscore, such as the
   * derived ones: the identifier is then everything after the last underscore.
   */
  lemma {:induction false} KeyInjective(u1: string, t1: string, u2: string, t2: string)
    requires '_' !in t1 && '_' !in t2
    requires Key(u1, t1) == Key(u2, t2)
    ensures u1 == u2 && t1 == t2
  {
    if |t1| < |t2| {
      SeparatorInLonger(u1, t1, u2, t2);
      assert false;
    } else if |t2| < |t1| {
      SeparatorInLonger(u2, t2, u1, t1);
      assert false;
    } else {
      var k := Key(u1, t1);
      assert t1 == k[|k| - |t1|..] == t2;
      assert u1 == k[..|u1|] == u2;
    }
  }

  /** When two keys agree, the separator of the one with the shorter identifier lies inside the longer identifier. */
  lemma SeparatorInLonger(u1: string, t1: string, u2: string, t2: string)
    requires |t1| < |t2|
    requires Key(u1, t1) == Key(u2, t2)
    ensures '_' in t2
  {
    var k := Key(u1, t1);
    var i := |k| - |t1| - 1;
    assert k[i] == '_';
    assert k[i] == t2[i - |u2| - 2];
  }
}

/**
 * The identifier `shortuuid.uuid(name=user_id)` derives from a user id: a 128-bit
 * name-based UUID rendered in base 57, most significant digit first, padded on
 * the left with the alphabet's first character to 22 characters.
 */
module ShortUuid {

  /**
   * shortuuid's default alphabet, in ascending order: the digits and letters
   * without the look-alikes 0, 1, I, O and l
   * ("23456789ABCDEFGHJKLMNPQRSTUVWXYZabcdefghijkmnopqrstuvwxyz").
   */
  const Alphabet: string :=
    Span('2', '9') + Span('A', 'H') + Span('J', 'N') + Span('P', 'Z') + Span('a', 'k') + Span('m', 'z')

  /** The characters from `lo` to `hi`, in order. */
  function Span(lo: char, hi: char): (s: string)
    requires lo <= hi && hi as int < 0xD800
    ensures |s| == hi as int - lo as int + 1
    ensures forall i :: 0 <= i < |s| ==> lo <= s[i] <= hi
    decreases hi as int - lo as int
  {
    if lo == hi then [lo] else [lo] + Span((lo as int + 1) as char, hi)
  }

  lemma AlphabetShape()
    ensures |Alphabet| == 57
    ensures '_' !in Alphabet
  {
  }

  /** The padded length of an encoded 128-bit UUID. */
  const Length: nat := 22

  const UuidBound: nat := 0x1_0000_0000_0000_0000_0000_0000_0000_0000

  /** The base-57 digits of `n`, most significant first; zero has none. */
  function Digits(n: nat): (s: string)
    ensures forall i :: 0 <= i < |s| ==> s[i] in Alphabet
    decreases n
  {
    AlphabetShape();
    if n == 0 then "" else Digits(n / |Alphabet|) + [Alphabet[n % |Alphabet|]]
  }

  function Repeat(c: char, k: nat): (s: string)
    ensures |s| == k && forall i :: 0 <= i < k ==> s[i] == c
  {
    if k == 0 then "" else Repeat(c, k - 1) + [c]
  }

  /** `int_to_string(n, alphabet, padding)`: the digits of `n`, left-padded with the zero digit. */
  function IntToString(n: nat, padding: nat): (s: string)
    ensures |s| >= padding
    ensures forall i :: 0 <= i < |s| ==> s[i] in Alphabet
    ensures |s| == if |Digits(n)| < padding then padding else |Digits(n)|
    ensures s[|s| - |Digits(n)|..] == Digits(n)
    ensures forall i :: 0 <= i < |s| - |Digits(n)| ==> s[i] == Alphabet[0]
  {
    var d := Digits(n);
    if |d| < padding then Repeat(Alphabet[0], padding - |d|) + d else d
  }

  /**
   * Stand-in for the SHA-1 based UUIDv5 digest of a name: a deterministic hash of
   * the name into the 128-bit range.
   */
  function NameDigest(name: string): (d: nat)
    ensures d < UuidBound
  {
    if name == [] then 0
    else (NameDigest(name[..|name| - 1]) * 131 + name[|name| - 1] as int) % UuidBound
  }

  /** The identifier derived from `userId` when no identifier is supplied. */
  function DeriveId(userId: string): (id: string)
    ensures |id| >= Length
    ensures '_' !in id
  {
    var id := IntToString(NameDigest(userId), Length);
    AlphabetShape();
    id
  }
}

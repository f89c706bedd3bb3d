/**
  MongoDB object identifiers as the handlers see them: `isObjectId` (api.cjs line 29),
  the anchored test `/^[0-9a-fA-F]{24}$/`, and the canonical lower-case hex form that
  `new ObjectId(s)` produces from such a string and that `String(_id)` gives back.
 */
module ObjectIds {

  /** Number of hex digits in an object identifier. */
  const OidLength: nat := 24

  /** The character class `[0-9a-fA-F]`. */
  predicate IsHexDigit(c: char)
  {
    '0' <= c <= '9' || 'a' <= c <= 'f' || 'A' <= c <= 'F'
  }

  /** A hex digit as it appears in a canonical (lower-case) identifier. */
  predicate IsLowerHexDigit(c: char)
  {
    '0' <= c <= '9' || 'a' <= c <= 'f'
  }

  /** Matches `s` against `[0-9a-fA-F]{n}` anchored at both ends: one character class per step. */
  predicate MatchesHexRun(s: string, n: nat)
  {
    if n == 0 then s == []
    else s != [] && IsHexDigit(s[0]) && MatchesHexRun(s[1..], n - 1)
  }

  /** `isObjectId(s)`: the regular expression `/^[0-9a-fA-F]{24}$/` accepts `s`. */
  predicate IsObjectId(s: string)
  {
    MatchesHexRun(s, OidLength)
  }

  /** The form in which the store keeps an identifier: 24 lower-case hex digits. */
  predicate IsCanonicalOid(s: string)
  {
    |s| == OidLength && forall i :: 0 <= i < |s| ==> IsLowerHexDigit(s[i])
  }

  function LowerHexDigit(c: char): (d: char)
    ensures IsHexDigit(c) ==> IsLowerHexDigit(d)
    ensures IsLowerHexDigit(c) ==> d == c
  {
    if 'A' <= c <= 'F' then (c as int - 'A' as int + 'a' as int) as char else c
  }

  /** The hex string of `new ObjectId(s)`: upper-case hex digits are lowered, nothing else changes. */
  function LowerHex(s: string): (r: string)
    ensures |r| == |s|
    ensures forall i :: 0 <= i < |s| ==> r[i] == LowerHexDigit(s[i])
  {
    seq(|s|, i requires 0 <= i < |s| => LowerHexDigit(s[i]))
  }

  // ---------------------------------------------------------------- lemmas

  lemma {:induction false} MatchesHexRunIff(s: string, n: nat)
    ensures MatchesHexRun(s, n) <==> |s| == n && forall i :: 0 <= i < |s| ==> IsHexDigit(s[i])
  {
    if n > 0 && s != [] {
      MatchesHexRunIff(s[1..], n - 1);
      if |s| == n && forall i :: 0 <= i < |s| ==> IsHexDigit(s[i]) {
        assert forall i :: 0 <= i < |s[1..]| ==> IsHexDigit(s[1..][i]) by {
          forall i | 0 <= i < |s[1..]| ensures IsHexDigit(s[1..][i]) {
            assert s[1..][i] == s[i + 1];
          }
        }
      }
      if MatchesHexRun(s, n) {
        forall i | 0 <= i < |s| ensures IsHexDigit(s[i]) {
          if i > 0 { assert s[i] == s[1..][i - 1]; }
        }
      }
    }
  }

  /** `isObjectId(s)` holds exactly when `s` has 24 characters, each a hexadecimal digit. */
  lemma IsObjectIdIff(s: string)
    ensures IsObjectId(s) <==> |s| == 24 && forall i :: 0 <= i < |s| ==> IsHexDigit(s[i])
  {
    MatchesHexRunIff(s, OidLength);
  }

  /** Every canonical identifier passes `isObjectId`, and lowering an accepted string makes it canonical. */
  lemma CanonicalOids(s: string)
    ensures IsCanonicalOid(s) ==> IsObjectId(s) && LowerHex(s) == s
    ensures IsObjectId(s) ==> IsCanonicalOid(LowerHex(s))
  {
    IsObjectIdIff(s);
  }
}

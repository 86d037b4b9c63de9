/** Case folding and substring search as the tips page uses them:
    `toLowerCase` restricted to ASCII, and `String.prototype.includes`. */
module Text {

  /** ASCII lower-casing of one character; every other character is kept. */
  function LowerChar(c: char): char
  {
    if 'A' <= c <= 'Z' then (c as int - 'A' as int + 'a' as int) as char else c
  }

  /** `toLowerCase` on ASCII: the result has the same length, each upper-case
      letter is replaced by the letter 32 code points above it, and every
      other character is kept. */
  function Lower(s: string): (low: string)
    ensures |low| == |s|
    ensures forall i :: 0 <= i < |s| && 'A' <= s[i] <= 'Z' ==> low[i] as int == s[i] as int + 32
    ensures forall i :: 0 <= i < |s| && !('A' <= s[i] <= 'Z') ==> low[i] == s[i]
  {
    seq(|s|, i requires 0 <= i < |s| => LowerChar(s[i]))
  }

  /** Lower-casing twice is lower-casing once, so a term already lower-cased
      searches exactly like the original. */
  lemma LowerIdempotent(s: string)
    ensures Lower(Lower(s)) == Lower(s)
    ensures forall i :: 0 <= i < |s| ==> !('A' <= Lower(s)[i] <= 'Z')
  {
  }

  predicate IsPrefix(p: string, s: string)
  {
    |p| <= |s| && s[..|p|] == p
  }

  /** `hay.includes(needle)`: the needle occurs at some position of the hay.
      The empty needle occurs in every string, and a needle longer than the
      hay in none. */
  predicate Contains(hay: string, needle: string): (found: bool)
    decreases |hay|
    ensures needle == [] ==> found
    ensures found ==> |needle| <= |hay|
  {
    IsPrefix(needle, hay) || (|hay| > 0 && Contains(hay[1..], needle))
  }

  /** The needle occurs in the hay starting at position k. */
  predicate OccursAt(hay: string, needle: string, k: int)
  {
    0 <= k && k + |needle| <= |hay| && hay[k..k + |needle|] == needle
  }

  /** The needle occurs in the hay at some position. */
  ghost predicate OccursIn(hay: string, needle: string)
  {
    exists k :: OccursAt(hay, needle, k)
  }

  /** The recursive search agrees with the positional definition of a substring. */
  lemma {:induction false} ContainsIffOccurs(hay: string, needle: string)
    ensures Contains(hay, needle) <==> OccursIn(hay, needle)
    decreases |hay|
  {
    assert OccursAt(hay, needle, 0) <==> IsPrefix(needle, hay);
    if |hay| > 0 {
      var tail := hay[1..];
      ContainsIffOccurs(tail, needle);
      forall k | 1 <= k
        ensures OccursAt(hay, needle, k) <==> OccursAt(tail, needle, k - 1)
      {
        if k + |needle| <= |hay| {
          forall i | k <= i < k + |needle|
            ensures hay[i] == tail[i - 1]
          {
          }
          assert hay[k..k + |needle|] == tail[k - 1..k - 1 + |needle|];
        }
      }
      if Contains(tail, needle) {
        var k :| OccursAt(tail, needle, k);
        assert OccursAt(hay, needle, k + 1);
      }
      if exists k :: OccursAt(hay, needle, k) {
        var k :| OccursAt(hay, needle, k);
        if k > 0 {
          assert OccursAt(tail, needle, k - 1);
        }
      }
    } else {
      forall k | OccursAt(hay, needle, k) ensures k == 0 { }
    }
  }

  /** An occurrence at a known position makes the search succeed. */
  lemma ContainsAt(hay: string, needle: string, k: int)
    requires OccursAt(hay, needle, k)
    ensures Contains(hay, needle)
  {
    ContainsIffOccurs(hay, needle);
  }

  /** Lower-casing works piecewise on a concatenation. */
  lemma LowerConcat(s: string, t: string)
    ensures Lower(s + t) == Lower(s) + Lower(t)
  {
    assert forall i :: 0 <= i < |s + t| ==> Lower(s + t)[i] == (Lower(s) + Lower(t))[i];
  }

  /** A needle found in the tail of a string is found in the whole string. */
  lemma ContainsInSuffix(s: string, t: string, needle: string)
    requires Contains(t, needle)
    ensures Contains(s + t, needle)
  {
    ContainsIffOccurs(t, needle);
    var k :| OccursAt(t, needle, k);
    assert (s + t)[k + |s|..k + |s| + |needle|] == t[k..k + |needle|];
    ContainsAt(s + t, needle, k + |s|);
  }

  /** No character folding to `a` is directly followed by one folding to `b`. */
  ghost predicate NoPair(s: string, a: char, b: char)
  {
    forall k :: 0 <= k < |s| - 1 ==> !(LowerChar(s[k]) == a && LowerChar(s[k + 1]) == b)
  }

  /** A pair absent from two strings and from their junction is absent from
      their concatenation. */
  lemma NoPairConcat(s: string, t: string, a: char, b: char)
    requires NoPair(s, a, b) && NoPair(t, a, b)
    requires s == [] || t == [] || !(LowerChar(s[|s| - 1]) == a && LowerChar(t[0]) == b)
    ensures NoPair(s + t, a, b)
  {
    var st := s + t;
    forall k | 0 <= k < |st| - 1
      ensures !(LowerChar(st[k]) == a && LowerChar(st[k + 1]) == b)
    {
      if k + 1 < |s| {
        assert st[k] == s[k] && st[k + 1] == s[k + 1];
      } else if k >= |s| {
        assert st[k] == t[k - |s|] && st[k + 1] == t[k + 1 - |s|];
      }
    }
  }

  /** If two adjacent characters of the needle never stand next to each other
      in the lower-cased hay, the lower-cased hay does not contain the needle. */
  lemma AbsentPairExcludes(hay: string, needle: string, p: nat)
    requires p + 1 < |needle|
    requires NoPair(hay, needle[p], needle[p + 1])
    ensures !Contains(Lower(hay), needle)
  {
    var low := Lower(hay);
    assert forall k :: 0 <= k < |low| - 1 ==> !(low[k] == needle[p] && low[k + 1] == needle[p + 1]);
    ContainsIffOccurs(low, needle);
    forall k | 0 <= k && k + |needle| <= |low|
      ensures !OccursAt(low, needle, k)
    {
      assert low[k..k + |needle|][p] == low[k + p];
      assert low[k..k + |needle|][p + 1] == low[k + p + 1];
    }
  }
}

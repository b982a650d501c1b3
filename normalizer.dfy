/**
 * escape_and_lower_characters, the comparison key both lambda files
 * (update_servicecatalog/sync_catalog.py and remove_portfolio/remove_portfolio.py)
 * compute for file names, section names and product names: remove every
 * character of a fixed punctuation set, then lowercase.
 */
module Normalizer {

  /** The characters removed, in the order the loop removes them. */
  const Escaped: string := "\\`*_{}[]()>#+-.!$/"

  predicate IsUpper(c: char) {
    'A' <= c <= 'Z'
  }

  function LowerChar(c: char): (r: char)
    ensures !IsUpper(r)
  {
    if IsUpper(c) then (c as int + 32) as char else c
  }

  /** `s.lower()` on ASCII letters. */
  function Lower(s: string): (r: string)
    ensures |r| == |s|
    ensures forall i :: 0 <= i < |s| ==> r[i] == LowerChar(s[i])
    decreases |s|
  {
    if s == [] then [] else [LowerChar(s[0])] + Lower(s[1..])
  }

  /** `s.replace(c, "")`. */
  function RemoveAll(s: string, c: char): string
    decreases |s|
  {
    if s == [] then [] else (if s[0] == c then [] else [s[0]]) + RemoveAll(s[1..], c)
  }

  /** `s` with every character of `cs` removed, the others kept in order. */
  function Strip(s: string, cs: string): (r: string)
    ensures |r| <= |s|
    ensures forall i :: 0 <= i < |r| ==> r[i] !in cs
    ensures forall c :: c in r ==> c in s
    decreases |s|
  {
    if s == [] then []
    else if s[0] in cs then Strip(s[1..], cs)
    else [s[0]] + Strip(s[1..], cs)
  }

  /** The comparison key. */
  function Normalize(s: string): string {
    Lower(Strip(s, Escaped))
  }

  lemma {:induction false} StripNothing(s: string)
    ensures Strip(s, "") == s
    decreases |s|
  {
    if s != [] {
      StripNothing(s[1..]);
      assert s == [s[0]] + s[1..];
    }
  }

  /** Removing one more character after a strip is the strip of the longer set. */
  lemma {:induction false} StripThenRemove(s: string, cs: string, c: char)
    ensures RemoveAll(Strip(s, cs), c) == Strip(s, cs + [c])
    decreases |s|
  {
    if s != [] {
      StripThenRemove(s[1..], cs, c);
      assert s[0] in cs + [c] <==> s[0] in cs || s[0] == c;
      if s[0] !in cs {
        assert ([s[0]] + Strip(s[1..], cs))[1..] == Strip(s[1..], cs);
      }
    }
  }

  /** A string holding none of the characters is left alone by the strip. */
  lemma {:induction false} StripNoop(s: string, cs: string)
    requires forall i :: 0 <= i < |s| ==> s[i] !in cs
    ensures Strip(s, cs) == s
    decreases |s|
  {
    if s != [] {
      StripNoop(s[1..], cs);
      assert s == [s[0]] + s[1..];
    }
  }

  /** A string without upper-case letters is left alone by the lowering. */
  lemma {:induction false} LowerNoop(s: string)
    requires forall i :: 0 <= i < |s| ==> !IsUpper(s[i])
    ensures Lower(s) == s
  {
  }

  /**
   * escape_and_lower_characters: the loop calls `replace(c, "")` for each escaped
   * character in turn, then lowercases.
   */
  method EscapeAndLower(text: string) returns (r: string)
    ensures r == Normalize(text)
  {
    r := text;
    StripNothing(text);
    assert Escaped[..0] == "";
    for i := 0 to |Escaped|
      invariant r == Strip(text, Escaped[..i])
    {
      StripThenRemove(text, Escaped[..i], Escaped[i]);
      assert Escaped[..i + 1] == Escaped[..i] + [Escaped[i]];
      r := RemoveAll(r, Escaped[i]);
    }
    assert Escaped[..|Escaped|] == Escaped;
    r := Lower(r);
  }

  /** The key contains no escaped character and no upper-case letter, and is no longer than its input. */
  lemma NormalizeShape(s: string)
    ensures |Normalize(s)| <= |s|
    ensures forall i :: 0 <= i < |Normalize(s)| ==> Normalize(s)[i] !in Escaped && !IsUpper(Normalize(s)[i])
  {
    var t := Strip(s, Escaped);
    forall i | 0 <= i < |t|
      ensures LowerChar(t[i]) !in Escaped
    {
      assert t[i] !in Escaped;
      if IsUpper(t[i]) {
        assert forall k :: 0 <= k < |Escaped| ==> !('a' <= Escaped[k] <= 'z');
      }
    }
  }

  /** Normalising twice is normalising once. */
  lemma NormalizeIdempotent(s: string)
    ensures Normalize(Normalize(s)) == Normalize(s)
  {
    NormalizeShape(s);
    StripNoop(Normalize(s), Escaped);
    LowerNoop(Normalize(s));
  }

  /** The strings a normalisation leaves unchanged are exactly those without escaped characters and upper-case letters. */
  lemma NormalizeFixedPoint(s: string)
    ensures Normalize(s) == s <==> forall i :: 0 <= i < |s| ==> s[i] !in Escaped && !IsUpper(s[i])
  {
    NormalizeShape(s);
    if forall i :: 0 <= i < |s| ==> s[i] !in Escaped && !IsUpper(s[i]) {
      StripNoop(s, Escaped);
      LowerNoop(s);
    }
  }

  /** A character outside the escaped set survives normalisation, so the key is not empty. */
  lemma {:induction false} NormalizeKeeps(s: string, i: nat)
    requires i < |s| && s[i] !in Escaped
    ensures |Normalize(s)| > 0
  {
    NormalizeAppend(s[..i], s[i..]);
    NormalizeAppend([s[i]], s[i + 1..]);
    assert s == s[..i] + s[i..] && s[i..] == [s[i]] + s[i + 1..];
  }

  /** Normalisation works character by character, so it distributes over concatenation. */
  lemma NormalizeAppend(a: string, b: string)
    ensures Normalize(a + b) == Normalize(a) + Normalize(b)
  {
    StripAppend(a, b, Escaped);
    LowerAppend(Strip(a, Escaped), Strip(b, Escaped));
  }

  lemma {:induction false} StripAppend(a: string, b: string, cs: string)
    ensures Strip(a + b, cs) == Strip(a, cs) + Strip(b, cs)
    decreases |a|
  {
    if a == [] {
      assert a + b == b;
    } else {
      StripAppend(a[1..], b, cs);
      assert (a + b)[1..] == a[1..] + b;
      assert (a + b)[0] == a[0];
    }
  }

  lemma LowerAppend(a: string, b: string)
    ensures Lower(a + b) == Lower(a) + Lower(b)
  {
  }
}

/** The few Python string operations the core relies on: `str.strip()`,
    `str.rstrip("/")`, `str.lower()` and the substring test `needle in hay`. */
module PyStrings {

  /** The characters for which Python's `str.isspace()` holds, which are
      exactly the characters `str.strip()` removes when given no argument. */
  predicate IsSpace(c: char)
  {
    || c == ' '
    || ('\t' <= c <= '\r')
    || ('\U{1c}' <= c <= '\U{1f}')
    || c == '\U{85}'
    || c == '\U{a0}'
    || c == '\U{1680}'
    || ('\U{2000}' <= c <= '\U{200a}')
    || c == '\U{2028}'
    || c == '\U{2029}'
    || c == '\U{202f}'
    || c == '\U{205f}'
    || c == '\U{3000}'
  }

  predicate AllSpace(s: string)
  {
    forall i :: 0 <= i < |s| ==> IsSpace(s[i])
  }

  /** `s.lstrip()`: what is left is a suffix of `s` that does not start
      with whitespace. */
  function LStrip(s: string): (r: string)
    ensures |r| <= |s| && r == s[|s| - |r|..]
    ensures r == [] || !IsSpace(r[0])
  {
    if s != [] && IsSpace(s[0]) then LStrip(s[1..]) else s
  }

  /** What `lstrip()` removes is whitespace. */
  lemma {:induction false} LStripRemovesSpace(s: string)
    ensures forall i :: 0 <= i < |s| - |LStrip(s)| ==> IsSpace(s[i])
  {
    if s != [] && IsSpace(s[0]) {
      var t := s[1..];
      LStripRemovesSpace(t);
      forall i | 1 <= i < |s| - |LStrip(s)|
        ensures IsSpace(s[i])
      {
        assert s[i] == t[i - 1];
      }
    }
  }

  /** `s.rstrip()`: what is left is a prefix of `s` that does not end with
      whitespace. */
  function RStrip(s: string): (r: string)
    ensures |r| <= |s| && r == s[..|r|]
    ensures r == [] || !IsSpace(r[|r| - 1])
  {
    if s != [] && IsSpace(s[|s| - 1]) then RStrip(s[..|s| - 1]) else s
  }

  /** What `rstrip()` removes is whitespace. */
  lemma {:induction false} RStripRemovesSpace(s: string)
    ensures forall i :: |RStrip(s)| <= i < |s| ==> IsSpace(s[i])
  {
    if s != [] && IsSpace(s[|s| - 1]) {
      var t := s[..|s| - 1];
      RStripRemovesSpace(t);
      forall i | |RStrip(s)| <= i < |s| - 1
        ensures IsSpace(s[i])
      {
        assert s[i] == t[i];
      }
    }
  }

  /** `s.strip()`: the result neither starts nor ends with whitespace. */
  function Strip(s: string): (r: string)
    ensures |r| <= |s|
    ensures r == [] || (!IsSpace(r[0]) && !IsSpace(r[|r| - 1]))
  {
    RStrip(LStrip(s))
  }

  /** `s` is some whitespace, then `s.strip()`, then some more whitespace. */
  lemma StripShape(s: string) returns (lead: string, trail: string)
    ensures s == lead + Strip(s) + trail
    ensures AllSpace(lead) && AllSpace(trail)
  {
    var t := LStrip(s);
    lead := LStripShape(s);
    trail := RStripShape(t);
    var r := RStrip(t);
    AppendAssoc(lead, r, trail);
  }

  /** Concatenation regroups freely; kept as its own lemma so that the
      shape lemmas do not search for it. */
  lemma AppendAssoc(a: string, b: string, c: string)
    ensures a + (b + c) == a + b + c
  {
  }

  /** `s` is some whitespace followed by `s.lstrip()`. */
  lemma LStripShape(s: string) returns (lead: string)
    ensures s == lead + LStrip(s) && AllSpace(lead)
  {
    lead := s[..|s| - |LStrip(s)|];
    LStripRemovesSpace(s);
    forall i | 0 <= i < |lead|
      ensures IsSpace(lead[i])
    {
      assert lead[i] == s[i];
    }
  }

  /** `s` is `s.rstrip()` followed by some whitespace. */
  lemma RStripShape(s: string) returns (trail: string)
    ensures s == RStrip(s) + trail && AllSpace(trail)
  {
    var r := RStrip(s);
    trail := s[|r|..];
    RStripRemovesSpace(s);
    forall i | 0 <= i < |trail|
      ensures IsSpace(trail[i])
    {
      assert trail[i] == s[|r| + i];
    }
  }

  /** `s.strip()` is empty exactly when `s` is all whitespace. */
  lemma StripBlankIff(s: string)
    ensures Strip(s) == [] <==> AllSpace(s)
  {
    var t := LStrip(s);
    var k := |s| - |t|;
    if Strip(s) == [] {
      LStripRemovesSpace(s);
      RStripRemovesSpace(t);
    } else {
      assert !IsSpace(s[k + |LStrip(s)| - |t|]);
    }
  }

  /** A string that neither starts nor ends with whitespace is left as it
      is by `strip()`; in particular `strip()` is idempotent. */
  lemma StripUnchanged(s: string)
    requires s == [] || (!IsSpace(s[0]) && !IsSpace(s[|s| - 1]))
    ensures Strip(s) == s
    ensures Strip(Strip(s)) == Strip(s)
  {
    assert LStrip(s) == s;
    assert RStrip(s) == s;
  }

  /** Whitespace in front of a string does not change what `strip()` gives. */
  lemma {:induction false} StripLeadingSpace(c: char, s: string)
    requires IsSpace(c)
    ensures Strip([c] + s) == Strip(s)
  {
    assert ([c] + s)[1..] == s;
  }

  /** `s.rstrip("/")`: what is left is a prefix of `s`, everything removed
      is a slash, and what is left does not end with a slash. */
  function RStripSlash(s: string): (r: string)
    ensures |r| <= |s| && r == s[..|r|]
    ensures forall i :: |r| <= i < |s| ==> s[i] == '/'
    ensures r == [] || r[|r| - 1] != '/'
  {
    if s != [] && s[|s| - 1] == '/' then RStripSlash(s[..|s| - 1]) else s
  }

  /** A run of `n` slashes. */
  function Slashes(n: nat): (r: string)
    ensures |r| == n
    ensures forall i :: 0 <= i < n ==> r[i] == '/'
  {
    if n == 0 then [] else Slashes(n - 1) + ['/']
  }

  /** Two strings that differ only in how many slashes they end with. */
  ghost predicate SameUpToTrailingSlashes(x: string, y: string)
  {
    exists c: string, i: nat, j: nat :: x == c + Slashes(i) && y == c + Slashes(j)
  }

  lemma {:induction false} RStripSlashAppend(c: string, n: nat)
    ensures RStripSlash(c + Slashes(n)) == RStripSlash(c)
  {
    if n > 0 {
      var x := c + Slashes(n);
      assert x[..|x| - 1] == c + Slashes(n - 1);
      RStripSlashAppend(c, n - 1);
    } else {
      assert c + Slashes(n) == c;
    }
  }

  /** `rstrip("/")` splits a string into a part and its trailing slashes. */
  lemma RStripSlashSplit(s: string)
    ensures s == RStripSlash(s) + Slashes(|s| - |RStripSlash(s)|)
  {
    var r := RStripSlash(s);
    assert s == r + s[|r|..];
    assert s[|r|..] == Slashes(|s| - |r|);
  }

  /** Comparing after `rstrip("/")` is comparing up to trailing slashes. */
  lemma RStripSlashEqIff(x: string, y: string)
    ensures RStripSlash(x) == RStripSlash(y) <==> SameUpToTrailingSlashes(x, y)
  {
    if RStripSlash(x) == RStripSlash(y) {
      RStripSlashSplit(x);
      RStripSlashSplit(y);
      var c := RStripSlash(x);
      assert x == c + Slashes(|x| - |c|) && y == c + Slashes(|y| - |c|);
    }
    if SameUpToTrailingSlashes(x, y) {
      var c: string, i: nat, j: nat :| x == c + Slashes(i) && y == c + Slashes(j);
      RStripSlashAppend(c, i);
      RStripSlashAppend(c, j);
    }
  }

  /** The character that Python's `str.lower()` gives for an ASCII letter;
      other characters are kept as they are. */
  function LowerChar(c: char): char
  {
    if 'A' <= c <= 'Z' then (c as int - 'A' as int + 'a' as int) as char else c
  }

  /** `s.lower()` restricted to ASCII letters: same length, each character
      mapped on its own, and no upper-case ASCII letter is left. */
  function Lower(s: string): (r: string)
    ensures |r| == |s|
    ensures forall i :: 0 <= i < |s| ==> r[i] == LowerChar(s[i])
    ensures forall i :: 0 <= i < |r| ==> !('A' <= r[i] <= 'Z')
  {
    seq(|s|, i requires 0 <= i < |s| => LowerChar(s[i]))
  }

  /** `needle` occurs in `hay` starting at position `i`. */
  predicate OccursAt(hay: string, needle: string, i: int)
  {
    0 <= i && i + |needle| <= |hay| && hay[i..i + |needle|] == needle
  }

  /** Python's `needle in hay` on strings, scanning from the left. */
  function Contains(hay: string, needle: string): bool
  {
    if |needle| > |hay| then false
    else if hay[..|needle|] == needle then true
    else Contains(hay[1..], needle)
  }

  /** `needle in hay` holds exactly when some position of `hay` starts an
      occurrence of `needle`. */
  lemma {:induction false} ContainsIff(hay: string, needle: string)
    ensures Contains(hay, needle) <==> exists i :: OccursAt(hay, needle, i)
  {
    if |needle| > |hay| {
    } else if hay[..|needle|] == needle {
      assert OccursAt(hay, needle, 0);
    } else {
      ContainsIff(hay[1..], needle);
      if exists i :: OccursAt(hay, needle, i) {
        var i :| OccursAt(hay, needle, i);
        assert i != 0;
        assert hay[1..][i - 1..i - 1 + |needle|] == hay[i..i + |needle|];
        assert OccursAt(hay[1..], needle, i - 1);
      }
      if exists i :: OccursAt(hay[1..], needle, i) {
        var i :| OccursAt(hay[1..], needle, i);
        assert hay[1..][i..i + |needle|] == hay[i + 1..i + 1 + |needle|];
        assert OccursAt(hay, needle, i + 1);
      }
    }
  }

  /** A string placed between any two others is found in the result. */
  lemma ContainsInfix(x: string, needle: string, y: string)
    ensures Contains(x + needle + y, needle)
  {
    var hay := x + needle + y;
    assert hay[|x|..|x| + |needle|] == needle;
    assert OccursAt(hay, needle, |x|);
    ContainsIff(hay, needle);
  }
}

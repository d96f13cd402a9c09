/** The string operations the source relies on: substring search (`in`),
    `str.replace`, `str.strip`, `str.lower` and decimal rendering of integers. */
module Text {

  /** `pat` occurs in `s` starting at index `i`. */
  predicate OccursAt(s: string, pat: string, i: nat)
  {
    i + |pat| <= |s| && s[i..i + |pat|] == pat
  }

  /** Python's `pat in s` for strings. */
  predicate Contains(s: string, pat: string)
    ensures Contains(s, pat) ==> |pat| <= |s|
    ensures pat == [] ==> Contains(s, pat)
  {
    assert pat == [] ==> OccursAt(s, pat, 0);
    exists i :: 0 <= i <= |s| && OccursAt(s, pat, i)
  }

  lemma OccursAtTail(s: string, pat: string, i: nat)
    requires |s| > 0
    ensures OccursAt(s[1..], pat, i) <==> OccursAt(s, pat, i + 1)
  {
    if i + 1 + |pat| <= |s| {
      assert s[1..][i..i + |pat|] == s[i + 1..i + 1 + |pat|];
    }
  }

  /** Every prefix of a pattern occurs wherever the pattern does. */
  lemma ContainsPrefix(s: string, pat: string, short: string)
    requires Contains(s, pat) && short <= pat
    ensures Contains(s, short)
  {
    var i :| 0 <= i <= |s| && OccursAt(s, pat, i);
    assert s[i..i + |short|] == pat[..|short|];
    assert OccursAt(s, short, i);
  }

  /** Python's `s.replace(pat, rep)`: every non-overlapping occurrence of
      `pat`, scanned from the left, is replaced by `rep`. */
  function Replace(s: string, pat: string, rep: string): (r: string)
    requires pat != []
    ensures |pat| <= |rep| ==> |s| <= |r|
    decreases |s|
  {
    if |s| < |pat| then s
    else if s[..|pat|] == pat then rep + Replace(s[|pat|..], pat, rep)
    else [s[0]] + Replace(s[1..], pat, rep)
  }

  /** Replacing a pattern that does not occur leaves the string unchanged. */
  lemma {:induction false} ReplaceWithoutMatch(s: string, pat: string, rep: string)
    requires pat != [] && !Contains(s, pat)
    ensures Replace(s, pat, rep) == s
  {
    if |s| >= |pat| {
      assert s[0..|pat|] == s[..|pat|];
      assert !OccursAt(s, pat, 0);
      forall i | 0 <= i <= |s[1..]|
        ensures !OccursAt(s[1..], pat, i)
      {
        OccursAtTail(s, pat, i);
      }
      ReplaceWithoutMatch(s[1..], pat, rep);
      assert [s[0]] + s[1..] == s;
    }
  }

  /** Replacing a pattern that does occur leaves at least one copy of the replacement. */
  lemma {:induction false} ReplaceIntroduces(s: string, pat: string, rep: string)
    requires pat != [] && Contains(s, pat)
    ensures Contains(Replace(s, pat, rep), rep)
  {
    var i :| 0 <= i <= |s| && OccursAt(s, pat, i);
    var r := Replace(s, pat, rep);
    if s[..|pat|] == pat {
      assert r == rep + Replace(s[|pat|..], pat, rep);
      assert r[0..|rep|] == rep;
      assert OccursAt(r, rep, 0);
    } else {
      assert s[0..|pat|] == s[..|pat|];
      assert i != 0;
      OccursAtTail(s, pat, i - 1);
      ReplaceIntroduces(s[1..], pat, rep);
      var t := Replace(s[1..], pat, rep);
      var j :| 0 <= j <= |t| && OccursAt(t, rep, j);
      assert r == [s[0]] + t;
      assert r[1..] == t;
      OccursAtTail(r, rep, j);
      assert OccursAt(r, rep, j + 1);
    }
  }

  /** The characters Python's `str.strip()` removes, restricted to ASCII. */
  predicate IsSpace(c: char)
  {
    c == ' ' || c == '\t' || c == '\n' || c == '\r' || c == '\U{B}' || c == '\U{C}'
    || c == '\U{1C}' || c == '\U{1D}' || c == '\U{1E}' || c == '\U{1F}'
  }

  /** `s.lstrip()`. */
  function TrimStart(s: string): (r: string)
    ensures |r| <= |s|
  {
    if s != [] && IsSpace(s[0]) then TrimStart(s[1..]) else s
  }

  /** `s.rstrip()`. */
  function TrimEnd(s: string): (r: string)
    ensures |r| <= |s|
  {
    if s != [] && IsSpace(s[|s| - 1]) then TrimEnd(s[..|s| - 1]) else s
  }

  /** `lstrip` keeps the longest suffix that does not start with whitespace. */
  lemma {:induction false} TrimStartSpec(s: string)
    ensures var r := TrimStart(s);
      && |r| <= |s| && r == s[|s| - |r|..]
      && (forall i :: 0 <= i < |s| - |r| ==> IsSpace(s[i]))
      && (r != [] ==> !IsSpace(r[0]))
  {
    if s != [] && IsSpace(s[0]) {
      TrimStartSpec(s[1..]);
    }
  }

  /** `rstrip` keeps the longest prefix that does not end with whitespace. */
  lemma {:induction false} TrimEndSpec(s: string)
    ensures var r := TrimEnd(s);
      && |r| <= |s| && r == s[..|r|]
      && (forall i :: |r| <= i < |s| ==> IsSpace(s[i]))
      && (r != [] ==> !IsSpace(r[|r| - 1]))
  {
    if s != [] && IsSpace(s[|s| - 1]) {
      TrimEndSpec(s[..|s| - 1]);
    }
  }

  /** `strip` keeps a contiguous slice of `s`, removes only whitespace, and
      leaves no whitespace at either end. */
  lemma StripSpec(s: string)
    ensures exists a, b :: 0 <= a <= b <= |s| && Strip(s) == s[a..b]
                           && (forall i :: 0 <= i < a ==> IsSpace(s[i]))
                           && (forall i :: b <= i < |s| ==> IsSpace(s[i]))
    ensures Strip(s) != [] ==> !IsSpace(Strip(s)[0]) && !IsSpace(Strip(s)[|Strip(s)| - 1])
  {
    var t := TrimStart(s);
    TrimStartSpec(s);
    TrimEndSpec(t);
    var a := |s| - |t|;
    var b := a + |TrimEnd(t)|;
    assert Strip(s) == TrimEnd(t) == s[a..b];
    forall i | b <= i < |s|
      ensures IsSpace(s[i])
    {
      assert s[i] == t[i - a];
    }
    if Strip(s) != [] {
      assert Strip(s)[0] == t[0];
    }
  }

  /** `s.strip()`. */
  function Strip(s: string): (r: string)
    ensures |r| <= |s|
  {
    TrimEnd(TrimStart(s))
  }

  /** `c.lower()` for ASCII letters; every other character is kept. */
  function LowerChar(c: char): (r: char)
  {
    if 'A' <= c <= 'Z' then (c as int + 32) as char else c
  }

  /** `s.lower()`, character by character. */
  function Lower(s: string): (r: string)
    ensures |r| == |s|
    ensures forall i :: 0 <= i < |s| ==> r[i] == LowerChar(s[i])
  {
    if s == [] then [] else [LowerChar(s[0])] + Lower(s[1..])
  }

  function DigitChar(d: nat): char
    requires d < 10
  {
    "0123456789"[d]
  }

  /** The number a string of decimal digits denotes, read by Horner's rule
      (a character that is not a digit counts as 0). */
  function DigitsValue(s: string): nat
  {
    if s == [] then 0
    else
      var c := s[|s| - 1];
      DigitsValue(s[..|s| - 1]) * 10 + (if '0' <= c <= '9' then c as int - '0' as int else 0)
  }

  /** `str(n)` for a natural number: its decimal digits, no leading zero. */
  function NatToString(n: nat): (r: string)
    ensures |r| >= 1
    ensures forall i :: 0 <= i < |r| ==> '0' <= r[i] <= '9'
    ensures |r| > 1 ==> r[0] != '0'
    ensures DigitsValue(r) == n
  {
    if n < 10 then
      assert [DigitChar(n)][..0] == [];
      [DigitChar(n)]
    else
      var front := NatToString(n / 10);
      var r := front + [DigitChar(n % 10)];
      assert r[..|r| - 1] == front;
      r
  }

  /** `str(i)` for any integer: a minus sign before the digits of `-i` when `i` is negative. */
  function IntToString(i: int): (r: string)
    ensures r != []
    ensures (r[0] == '-') <==> i < 0
    ensures forall k :: (if i < 0 then 1 else 0) <= k < |r| ==> '0' <= r[k] <= '9'
    ensures |r| > (if i < 0 then 2 else 1) ==> r[if i < 0 then 1 else 0] != '0'
    ensures i >= 0 ==> DigitsValue(r) == i
    ensures i < 0 ==> |r| >= 2 && DigitsValue(r[1..]) == -i
  {
    if i < 0 then
      var r := "-" + NatToString(-i);
      assert r[1..] == NatToString(-i);
      r
    else NatToString(i)
  }

  // ---------- properties of stripping and case folding ----------

  /** Leading whitespace does not survive `lstrip`. */
  lemma {:induction false} TrimStartSkipsSpaces(p: string, s: string)
    requires forall i :: 0 <= i < |p| ==> IsSpace(p[i])
    ensures TrimStart(p + s) == TrimStart(s)
  {
    if p == [] {
      assert p + s == s;
    } else {
      assert (p + s)[0] == p[0];
      assert (p + s)[1..] == p[1..] + s;
      TrimStartSkipsSpaces(p[1..], s);
    }
  }

  /** Trailing whitespace does not survive `rstrip`. */
  lemma {:induction false} TrimEndSkipsSpaces(s: string, q: string)
    requires forall i :: 0 <= i < |q| ==> IsSpace(q[i])
    ensures TrimEnd(s + q) == TrimEnd(s)
  {
    if q == [] {
      assert s + q == s;
    } else {
      assert (s + q)[|s + q| - 1] == q[|q| - 1];
      assert (s + q)[..|s + q| - 1] == s + q[..|q| - 1];
      TrimEndSkipsSpaces(s, q[..|q| - 1]);
    }
  }

  /** `lstrip` distributes over appended whitespace once the string has a
      non-space character, and swallows it all otherwise. */
  lemma {:induction false} TrimStartAppend(s: string, q: string)
    requires forall i :: 0 <= i < |q| ==> IsSpace(q[i])
    ensures TrimStart(s) != [] ==> TrimStart(s + q) == TrimStart(s) + q
    ensures TrimStart(s) == [] ==> TrimStart(s + q) == []
  {
    if s == [] {
      assert s + q == q;
      TrimStartSkipsSpaces(q, []);
      assert q + [] == q;
    } else if IsSpace(s[0]) {
      assert (s + q)[1..] == s[1..] + q;
      TrimStartAppend(s[1..], q);
    }
  }

  /** Surrounding whitespace does not change the stripped string. */
  lemma StripIgnoresPadding(p: string, s: string, q: string)
    requires forall i :: 0 <= i < |p| ==> IsSpace(p[i])
    requires forall i :: 0 <= i < |q| ==> IsSpace(q[i])
    ensures Strip(p + s + q) == Strip(s)
  {
    assert p + s + q == p + (s + q);
    TrimStartSkipsSpaces(p, s + q);
    TrimStartAppend(s, q);
    if TrimStart(s) != [] {
      TrimEndSkipsSpaces(TrimStart(s), q);
    }
  }

  /** Case folding never turns a character into or out of whitespace. */
  lemma LowerCharKeepsSpace(c: char)
    ensures IsSpace(LowerChar(c)) == IsSpace(c)
  {
  }

  lemma {:induction false} LowerTrimStart(s: string)
    ensures Lower(TrimStart(s)) == TrimStart(Lower(s))
  {
    if s != [] {
      LowerCharKeepsSpace(s[0]);
      assert Lower(s)[1..] == Lower(s[1..]);
      LowerTrimStart(s[1..]);
    }
  }

  lemma {:induction false} LowerPrefix(s: string, n: nat)
    requires n <= |s|
    ensures Lower(s[..n]) == Lower(s)[..n]
  {
  }

  lemma {:induction false} LowerTrimEnd(s: string)
    ensures Lower(TrimEnd(s)) == TrimEnd(Lower(s))
  {
    if s != [] {
      LowerCharKeepsSpace(s[|s| - 1]);
      LowerPrefix(s, |s| - 1);
      LowerTrimEnd(s[..|s| - 1]);
    }
  }

  /** Stripping and case folding commute. */
  lemma LowerStrip(s: string)
    ensures Lower(Strip(s)) == Strip(Lower(s))
  {
    LowerTrimStart(s);
    LowerTrimEnd(TrimStart(s));
  }
}

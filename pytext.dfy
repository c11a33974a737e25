/**
  Python's string operations that the core relies on, restricted to ASCII:
  `str.isspace` and `\s`, `\w`, `lower`, `upper`, `capitalize`, `strip`,
  `str.replace(pattern, "")`, `endswith` and `str()` of an integer.  A
  character outside ASCII is treated as neither a word character nor
  whitespace and is left alone by the case conversions.
 */
module PyText {

  /** `c.isspace()` and `\s` on ASCII: tab, line feed, vertical tab, form
      feed, carriage return, the separators 0x1c-0x1f, and space. */
  predicate IsSpace(c: char) {
    9 <= c as int <= 13 || 28 <= c as int <= 32
  }

  predicate IsUpper(c: char) { 'A' <= c <= 'Z' }

  predicate IsLower(c: char) { 'a' <= c <= 'z' }

  predicate IsDigit(c: char) { '0' <= c <= '9' }

  /** `\w` on ASCII: letters, digits and underscore. */
  predicate IsWordChar(c: char) {
    IsUpper(c) || IsLower(c) || IsDigit(c) || c == '_'
  }

  function ToLower(c: char): (r: char)
    ensures !IsUpper(r)
    ensures IsWordChar(c) <==> IsWordChar(r)
    ensures IsSpace(c) <==> IsSpace(r)
    ensures !IsUpper(c) ==> r == c
  {
    if IsUpper(c) then (c as int + 32) as char else c
  }

  function ToUpper(c: char): (r: char)
    ensures !IsLower(r)
    ensures !IsLower(c) ==> r == c
  {
    if IsLower(c) then (c as int - 32) as char else c
  }

  /** `s.lower()` */
  function Lower(s: string): (r: string)
    ensures |r| == |s|
    ensures forall i :: 0 <= i < |s| ==> r[i] == ToLower(s[i])
  {
    seq(|s|, i requires 0 <= i < |s| => ToLower(s[i]))
  }

  /** Lower-casing changes nothing in a string without upper-case letters. */
  lemma LowerOfLowerCase(s: string)
    requires forall i :: 0 <= i < |s| ==> !IsUpper(s[i])
    ensures Lower(s) == s
  {
    assert forall i :: 0 <= i < |s| ==> Lower(s)[i] == s[i];
  }

  /** `s.capitalize()`: first character upper case, the rest lower case. */
  function Capitalize(s: string): (r: string)
    ensures |r| == |s|
    ensures s != [] ==> r[0] == ToUpper(s[0]) && r[1..] == Lower(s[1..])
  {
    if s == [] then [] else [ToUpper(s[0])] + Lower(s[1..])
  }

  /** `s.lstrip()` */
  function TrimStart(s: string): (r: string)
    ensures |r| <= |s|
  {
    if s != [] && IsSpace(s[0]) then TrimStart(s[1..]) else s
  }

  /** `s.rstrip()` */
  function TrimEnd(s: string): (r: string)
    ensures |r| <= |s|
  {
    if s != [] && IsSpace(s[|s| - 1]) then TrimEnd(s[..|s| - 1]) else s
  }

  /** `lstrip` drops exactly the leading whitespace. */
  lemma {:induction false} TrimStartSpec(s: string)
    ensures var r := TrimStart(s);
      && r == s[|s| - |r|..]
      && (forall i :: 0 <= i < |s| - |r| ==> IsSpace(s[i]))
      && (r != [] ==> !IsSpace(r[0]))
    decreases |s|
  {
    if s != [] && IsSpace(s[0]) {
      TrimStartSpec(s[1..]);
    }
  }

  /** `rstrip` drops exactly the trailing whitespace. */
  lemma {:induction false} TrimEndSpec(s: string)
    ensures var r := TrimEnd(s);
      && r == s[..|r|]
      && (forall i :: |r| <= i < |s| ==> IsSpace(s[i]))
      && (r != [] ==> !IsSpace(r[|r| - 1]))
    decreases |s|
  {
    if s != [] && IsSpace(s[|s| - 1]) {
      TrimEndSpec(s[..|s| - 1]);
    }
  }

  /** `s.strip()` */
  function Strip(s: string): (r: string)
    ensures |r| <= |s|
  {
    TrimEnd(TrimStart(s))
  }

  /** `strip` keeps a contiguous run of `s` that neither starts nor ends
      with whitespace and drops only whitespace around it. */
  lemma StripSpec(s: string)
    ensures var r := Strip(s); var lo := |s| - |TrimStart(s)|;
      && lo + |r| <= |s| && r == s[lo..lo + |r|]
      && (forall i :: 0 <= i < lo ==> IsSpace(s[i]))
      && (forall i :: lo + |r| <= i < |s| ==> IsSpace(s[i]))
      && (r != [] ==> !IsSpace(r[0]) && !IsSpace(r[|r| - 1]))
  {
    var t := TrimStart(s);
    var r := TrimEnd(t);
    TrimStartSpec(s);
    TrimEndSpec(t);
    var lo := |s| - |t|;
    assert r == s[lo..lo + |r|];
    forall i | lo + |r| <= i < |s| ensures IsSpace(s[i]) {
      assert s[i] == t[i - lo];
    }
    if r != [] {
      assert r[0] == t[0];
    }
  }

  /** `strip` leaves a string whose ends are not whitespace unchanged. */
  lemma StripIdentity(s: string)
    requires s != [] && !IsSpace(s[0]) && !IsSpace(s[|s| - 1])
    ensures Strip(s) == s
  {
    assert TrimStart(s) == s;
  }

  /** `lstrip` drops a whitespace prefix up to the first other character. */
  lemma {:induction false} TrimStartSpaces(w: string, t: string)
    requires forall i :: 0 <= i < |w| ==> IsSpace(w[i])
    requires t != [] && !IsSpace(t[0])
    ensures TrimStart(w + t) == t
    decreases |w|
  {
    if w == [] {
      assert w + t == t;
    } else {
      assert (w + t)[1..] == w[1..] + t;
      TrimStartSpaces(w[1..], t);
    }
  }

  /** `rstrip` drops a whitespace suffix back to the last other character. */
  lemma {:induction false} TrimEndSpaces(t: string, w: string)
    requires forall i :: 0 <= i < |w| ==> IsSpace(w[i])
    requires t != [] && !IsSpace(t[|t| - 1])
    ensures TrimEnd(t + w) == t
    decreases |w|
  {
    if w == [] {
      assert t + w == t;
    } else {
      assert (t + w)[..|t + w| - 1] == t + w[..|w| - 1];
      TrimEndSpaces(t, w[..|w| - 1]);
    }
  }

  /** `strip` of a text between runs of whitespace is that text. */
  lemma StripPadded(w1: string, t: string, w2: string)
    requires forall i :: 0 <= i < |w1| ==> IsSpace(w1[i])
    requires forall i :: 0 <= i < |w2| ==> IsSpace(w2[i])
    requires t != [] && !IsSpace(t[0]) && !IsSpace(t[|t| - 1])
    ensures Strip(w1 + t + w2) == t
  {
    assert w1 + t + w2 == w1 + (t + w2);
    TrimStartSpaces(w1, t + w2);
    TrimEndSpaces(t, w2);
  }

  /** `pattern` occurs in `s` starting at index `i`. */
  predicate OccursAt(s: string, pattern: string, i: nat) {
    i + |pattern| <= |s| && s[i..i + |pattern|] == pattern
  }

  predicate Absent(s: string, pattern: string) {
    forall i: nat :: i <= |s| ==> !OccursAt(s, pattern, i)
  }

  /** `s.replace(pattern, "")`: scanning left to right, drop every
      non-overlapping occurrence of `pattern`. */
  function RemoveAll(s: string, pattern: string): (r: string)
    requires pattern != []
    ensures |r| <= |s|
    decreases |s|
  {
    if s == [] then []
    else if OccursAt(s, pattern, 0) then RemoveAll(s[|pattern|..], pattern)
    else [s[0]] + RemoveAll(s[1..], pattern)
  }

  /** Where the pattern does not occur, `replace` changes nothing. */
  lemma {:induction false} RemoveAllOfAbsent(s: string, pattern: string)
    requires pattern != [] && Absent(s, pattern)
    ensures RemoveAll(s, pattern) == s
    decreases |s|
  {
    if s != [] {
      assert !OccursAt(s, pattern, 0);
      forall i: nat | i <= |s[1..]| ensures !OccursAt(s[1..], pattern, i) {
        assert !OccursAt(s, pattern, i + 1);
        if i + |pattern| <= |s[1..]| {
          assert s[1..][i..i + |pattern|] == s[i + 1..i + 1 + |pattern|];
        }
      }
      RemoveAllOfAbsent(s[1..], pattern);
      assert [s[0]] + s[1..] == s;
    }
  }

  /** A prefix with no backtick passes through the removal of a pattern
      that starts with one. */
  lemma {:induction false} RemoveAllAfterPlain(a: string, b: string, pattern: string)
    requires pattern != [] && pattern[0] == '`'
    requires forall i :: 0 <= i < |a| ==> a[i] != '`'
    ensures RemoveAll(a + b, pattern) == a + RemoveAll(b, pattern)
    decreases |a|
  {
    if a == [] {
      assert a + b == b;
    } else {
      var s := a + b;
      assert s[0] == a[0];
      assert s[1..] == a[1..] + b;
      RemoveAllAfterPlain(a[1..], b, pattern);
      assert [a[0]] + (a[1..] + RemoveAll(b, pattern)) == a + RemoveAll(b, pattern);
    }
  }

  /** An occurrence at the front is dropped whole. */
  lemma RemoveAllLeading(pattern: string, rest: string)
    requires pattern != []
    ensures RemoveAll(pattern + rest, pattern) == RemoveAll(rest, pattern)
  {
    var s := pattern + rest;
    assert s[..|pattern|] == pattern;
    assert s[|pattern|..] == rest;
  }

  /** A pattern longer than the text cannot occur in it. */
  lemma RemoveAllOfShorter(s: string, pattern: string)
    requires |pattern| > |s|
    ensures RemoveAll(s, pattern) == s
  {
    assert Absent(s, pattern);
    RemoveAllOfAbsent(s, pattern);
  }

  const FENCE := "```"

  /** Removing fences keeps a first character that is not a backtick. */
  lemma KeepsLeadingNonBacktick(s: string)
    requires s != [] && s[0] != '`'
    ensures RemoveAll(s, FENCE) != [] && RemoveAll(s, FENCE)[0] == s[0]
  {
    assert !OccursAt(s, FENCE, 0);
  }

  lemma UnfoldNoFenceAtFront(s: string)
    requires s != [] && !OccursAt(s, FENCE, 0)
    ensures RemoveAll(s, FENCE) == [s[0]] + RemoveAll(s[1..], FENCE)
  {
  }

  /** Where `s` does not start with a fence, neither does the result. */
  lemma NoFenceAtFront(s: string)
    requires s != [] && !OccursAt(s, FENCE, 0)
    ensures !OccursAt(RemoveAll(s, FENCE), FENCE, 0)
  {
    UnfoldNoFenceAtFront(s);
    if s[0] == '`' && |s| > 1 {
      if s[1] != '`' {
        KeepsLeadingNonBacktick(s[1..]);
      } else {
        assert |s| == 2 || s[2] != '`';
        if |s| > 2 {
          assert s[1..][1] == s[2];
          UnfoldNoFenceAtFront(s[1..]);
          assert s[1..][1..] == s[2..];
          KeepsLeadingNonBacktick(s[2..]);
        }
      }
    }
  }

  lemma AbsentCons(c: char, t: string)
    requires Absent(t, FENCE) && !OccursAt([c] + t, FENCE, 0)
    ensures Absent([c] + t, FENCE)
  {
    forall i: nat | i <= |[c] + t| ensures !OccursAt([c] + t, FENCE, i) {
      if i > 0 && i + 3 <= |[c] + t| {
        assert ([c] + t)[i..i + 3] == t[i - 1..i + 2];
        assert !OccursAt(t, FENCE, i - 1);
      }
    }
  }

  /** After `s.replace("```", "")` no fence is left, even where removing one
      fence brings backticks on its two sides together. */
  lemma {:induction false} NoFenceAfterRemoval(s: string)
    ensures Absent(RemoveAll(s, FENCE), FENCE)
    decreases |s|
  {
    if s == [] {
    } else if OccursAt(s, FENCE, 0) {
      NoFenceAfterRemoval(s[3..]);
    } else {
      UnfoldNoFenceAtFront(s);
      NoFenceAfterRemoval(s[1..]);
      NoFenceAtFront(s);
      AbsentCons(s[0], RemoveAll(s[1..], FENCE));
    }
  }

  /** A string without backticks holds no pattern that starts with one. */
  lemma NoBacktickNoPattern(s: string, pattern: string)
    requires pattern != [] && pattern[0] == '`'
    requires forall i :: 0 <= i < |s| ==> s[i] != '`'
    ensures Absent(s, pattern)
  {
    forall i: nat | i <= |s| ensures !OccursAt(s, pattern, i) {
      if i + |pattern| <= |s| {
        assert s[i..i + |pattern|][0] == s[i];
      }
    }
  }

  /** `s.endswith(suffix)` */
  predicate EndsWith(s: string, suffix: string) {
    |suffix| <= |s| && s[|s| - |suffix|..] == suffix
  }

  function DigitChar(d: nat): (c: char)
    requires d < 10
    ensures IsDigit(c)
  {
    ('0' as int + d) as char
  }

  /** `str(n)` for a non-negative integer: its decimal digits, no leading zero. */
  function NatToDecimal(n: nat): (r: string)
    ensures r != []
    ensures forall i :: 0 <= i < |r| ==> IsDigit(r[i])
    ensures r[0] == '0' ==> n == 0
  {
    if n < 10 then [DigitChar(n)] else NatToDecimal(n / 10) + [DigitChar(n % 10)]
  }

  /** `str(n)` for any integer. */
  function IntToDecimal(n: int): (r: string)
    ensures r != []
    ensures n >= 0 <==> r[0] != '-'
  {
    if n >= 0 then NatToDecimal(n) else "-" + NatToDecimal(-n)
  }
}

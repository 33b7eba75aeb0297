/** String operations of the JavaScript standard library that the front end
    uses, restricted to ASCII: `toLowerCase`, `includes`, `split(c)[0]`,
    `slice(0, n)`, `trim`. */
module Text {

  predicate IsUpper(c: char) {
    'A' <= c <= 'Z'
  }

  predicate IsLower(c: char) {
    'a' <= c <= 'z'
  }

  predicate IsLetter(c: char) {
    IsUpper(c) || IsLower(c)
  }

  predicate IsDigit(c: char) {
    '0' <= c <= '9'
  }

  /** ASCII `toLowerCase` of one character. */
  function LowerChar(c: char): (r: char)
    ensures IsUpper(c) ==> IsLower(r) && r as int == c as int + 32
    ensures !IsUpper(c) ==> r == c
  {
    if IsUpper(c) then (c as int + 32) as char else c
  }

  /** `s.toLowerCase()` over ASCII: same length, every upper-case letter lowered. */
  function ToLower(s: string): (r: string)
    ensures |r| == |s|
    ensures forall i :: 0 <= i < |s| ==> r[i] == LowerChar(s[i])
    ensures forall i :: 0 <= i < |r| ==> !IsUpper(r[i])
  {
    seq(|s|, i requires 0 <= i < |s| => LowerChar(s[i]))
  }

  /** `hay.includes(needle)`: `needle` occurs at some position of `hay`. */
  predicate Contains(hay: string, needle: string) {
    exists i :: 0 <= i <= |hay| && OccursAt(hay, needle, i)
  }

  /** `needle` occurs in `hay` starting at index `i`. */
  predicate OccursAt(hay: string, needle: string, i: int) {
    0 <= i <= |hay| - |needle| && hay[i..i + |needle|] == needle
  }

  /** Every string contains the empty string. */
  lemma ContainsEmpty(hay: string)
    ensures Contains(hay, "")
  {
    assert OccursAt(hay, "", 0);
  }

  /** `s.split(c)[0]`: the text before the first `c`, or all of `s` when there
      is none. */
  function Before(s: string, c: char): (r: string)
    ensures r <= s
    ensures c !in r
    ensures |r| < |s| ==> s[|r|] == c
  {
    if |s| == 0 then ""
    else if s[0] == c then ""
    else [s[0]] + Before(s[1..], c)
  }

  /** The prefix before the first `c` is determined by the position of that
      first `c`. */
  lemma BeforeFirst(s: string, c: char, k: int)
    requires 0 <= k <= |s|
    requires c !in s[..k]
    requires k < |s| ==> s[k] == c
    ensures Before(s, c) == s[..k]
  {
    var r := Before(s, c);
    assert |r| == k;
  }

  /** The text after the first `c`, when there is one. */
  function After(s: string, c: char): (r: string)
    requires c in s
    ensures s == Before(s, c) + [c] + r
  {
    var b := Before(s, c);
    assert |b| < |s|;
    s[|b| + 1..]
  }

  /** `s.split(c)`: the maximal `c`-free pieces of `s`, in order. */
  function Split(s: string, c: char): (parts: seq<string>)
    ensures |parts| >= 1
    ensures forall i :: 0 <= i < |parts| ==> c !in parts[i]
    decreases |s|
  {
    if c in s then [Before(s, c)] + Split(After(s, c), c) else [s]
  }

  /** Splitting at a known first separator. */
  lemma SplitAt(a: string, c: char, b: string)
    requires c !in a
    ensures Split(a + [c] + b, c) == [a] + Split(b, c)
  {
    var s := a + [c] + b;
    assert s[..|a|] == a;
    BeforeFirst(s, c, |a|);
    assert After(s, c) == b;
  }

  /** `split` yields one piece more than there are separators. */
  lemma {:induction false} SplitCount(s: string, c: char)
    ensures |Split(s, c)| == multiset(s)[c] + 1
    decreases |s|
  {
    if c in s {
      var a, b := Before(s, c), After(s, c);
      SplitCount(b, c);
      assert multiset(s) == multiset(a) + multiset{c} + multiset(b);
    } else {
      assert multiset(s)[c] == 0;
    }
  }

  /** The index of the last `c` in `s`, or -1. */
  function LastIndex(s: string, c: char): (i: int)
    ensures -1 <= i < |s|
    ensures 0 <= i ==> s[i] == c
    ensures forall k :: i < k < |s| ==> s[k] != c
  {
    if |s| == 0 then -1
    else if s[|s| - 1] == c then |s| - 1
    else LastIndex(s[..|s| - 1], c)
  }

  /** `s.slice(0, n)` for `n >= 0`: the first `n` characters, or all of `s`. */
  function Take(s: string, n: nat): (r: string)
    ensures r <= s
    ensures |r| == if n <= |s| then n else |s|
  {
    if n <= |s| then s[..n] else s
  }

  /** The characters `String.prototype.trim` removes: ECMAScript's WhiteSpace
      (tab, vertical tab, form feed, the byte order mark and every space
      separator of category Zs) and its LineTerminator (line feed, carriage
      return, and the line and paragraph separators). */
  predicate IsSpace(c: char) {
    c as int in SpaceCodes
  }

  const SpaceCodes: set<int> :=
    {0x09, 0x0A, 0x0B, 0x0C, 0x0D, 0x20, 0xA0, 0x1680,
     0x2000, 0x2001, 0x2002, 0x2003, 0x2004, 0x2005, 0x2006, 0x2007, 0x2008, 0x2009, 0x200A,
     0x2028, 0x2029, 0x202F, 0x205F, 0x3000, 0xFEFF}

  predicate IsBlank(s: string) {
    forall i :: 0 <= i < |s| ==> IsSpace(s[i])
  }

  /** Leading white space removed. */
  function TrimStart(s: string): (r: string)
    ensures |r| <= |s|
    ensures r == s[|s| - |r|..]
    ensures r == "" || !IsSpace(r[0])
    ensures IsBlank(s[..|s| - |r|])
  {
    if |s| > 0 && IsSpace(s[0]) then TrimStart(s[1..]) else s
  }

  /** Trailing white space removed. */
  function TrimEnd(s: string): (r: string)
    ensures r <= s
    ensures r == "" || !IsSpace(r[|r| - 1])
    ensures IsBlank(s[|r|..])
  {
    if |s| > 0 && IsSpace(s[|s| - 1]) then TrimEnd(s[..|s| - 1]) else s
  }

  /** `s.trim()`. */
  function Trim(s: string): (r: string)
    ensures r == "" || (!IsSpace(r[0]) && !IsSpace(r[|r| - 1]))
    ensures exists i :: TrimmedAt(s, r, i)
  {
    TrimWitness(s);
    TrimEnd(TrimStart(s))
  }

  /** Where the trimmed string sits: after the leading white space. */
  lemma TrimWitness(s: string)
    ensures TrimmedAt(s, TrimEnd(TrimStart(s)), |s| - |TrimStart(s)|)
  {
    TrimmedAtParts(s, TrimStart(s), TrimEnd(TrimStart(s)));
  }

  /** A prefix `r` of a suffix `t` of `s`, with white space before `t` and
      after `r`, is `s` trimmed at the start of `t`. */
  lemma TrimmedAtParts(s: string, t: string, r: string)
    requires |t| <= |s| && t == s[|s| - |t|..] && IsBlank(s[..|s| - |t|])
    requires r <= t && IsBlank(t[|r|..])
    ensures TrimmedAt(s, r, |s| - |t|)
  {
    var k := |s| - |t|;
    assert s[k..k + |r|] == r by {
      assert r == t[..|r|];
      SliceOfSlice(s, k, |r|);
    }
    SuffixBlank(s, t, r);
  }

  /** A prefix of a suffix is an infix. */
  lemma SliceOfSlice(s: string, k: nat, n: nat)
    requires k + n <= |s|
    ensures s[k..][..n] == s[k..k + n]
  {
  }

  /** The white space after `r` in `t` is the white space at the same place
      of `s`, of which `t` is a suffix. */
  lemma SuffixBlank(s: string, t: string, r: string)
    requires |t| <= |s| && t == s[|s| - |t|..] && r <= t && IsBlank(t[|r|..])
    ensures IsBlank(s[|s| - |t| + |r|..])
  {
    var k := |s| - |t|;
    var u := s[k + |r|..];
    forall i | 0 <= i < |u| ensures IsSpace(u[i]) {
      assert u[i] == t[|r| + i] == t[|r|..][i];
    }
  }

  /** `r` is the piece of `s` that starts at `i`, with nothing but white space
      before and after it. */
  predicate TrimmedAt(s: string, r: string, i: int) {
    0 <= i && i + |r| <= |s| && r == s[i..i + |r|] && IsBlank(s[..i]) && IsBlank(s[i + |r|..])
  }

  /** A string trims to empty exactly when it is all white space. */
  lemma TrimEmptyIffBlank(s: string)
    ensures Trim(s) == "" <==> IsBlank(s)
  {
    var t := TrimStart(s);
    var k := |s| - |t|;
    if Trim(s) == "" {
      var i :| TrimmedAt(s, "", i);
      forall j | 0 <= j < |s| ensures IsSpace(s[j]) {
        if j < i {
          assert s[..i][j] == s[j];
        } else {
          assert s[i..][j - i] == s[j];
        }
      }
    } else {
      var r := Trim(s);
      assert r <= t;
      assert !IsSpace(t[0]);
      assert t[0] == s[k];
    }
  }
}

/** The few Python `str` operations the core relies on, with the semantics
    CPython gives them: `find`, `in`, `lower`, `replace`, `split`, and the
    decimal text of an integer. */
module PyStr {

  /** `sub` occurs in `s` starting at index `i`. */
  predicate OccursAt(s: string, sub: string, i: int)
  {
    0 <= i && i + |sub| <= |s| && s[i..i + |sub|] == sub
  }

  /** `s.find(sub, i)`: the first occurrence at or after `i`, or -1. */
  function FindFrom(s: string, sub: string, i: nat): (r: int)
    requires i <= |s|
    ensures r == -1 || (i <= r <= |s| && OccursAt(s, sub, r))
    ensures r != -1 ==> forall j :: i <= j < r ==> !OccursAt(s, sub, j)
    ensures r == -1 ==> forall j :: i <= j ==> !OccursAt(s, sub, j)
    decreases |s| - i
  {
    if OccursAt(s, sub, i) then i
    else if i == |s| then -1
    else FindFrom(s, sub, i + 1)
  }

  /** `s.find(sub)`: the index of the first occurrence, -1 when there is none. */
  function Find(s: string, sub: string): (r: int)
    ensures -1 <= r <= |s|
    ensures r >= 0 ==> OccursAt(s, sub, r) && forall j :: 0 <= j < r ==> !OccursAt(s, sub, j)
    ensures r == -1 <==> forall j :: !OccursAt(s, sub, j)
  {
    FindFrom(s, sub, 0)
  }

  /** `sub in s`. */
  predicate Contains(s: string, sub: string)
  {
    Find(s, sub) != -1
  }

  lemma FindIsFirst(s: string, sub: string, i: int)
    requires OccursAt(s, sub, i)
    requires forall j :: 0 <= j < i ==> !OccursAt(s, sub, j)
    ensures Find(s, sub) == i
  {
  }

  /** Text around a match does not hide it. */
  lemma ContainsInContext(s: string, sub: string, pre: string, post: string)
    requires Contains(s, sub)
    ensures Contains(pre + s + post, sub)
  {
    var i := Find(s, sub);
    var t := pre + s + post;
    assert t[|pre| + i..|pre| + i + |sub|] == s[i..i + |sub|];
    assert OccursAt(t, sub, |pre| + i);
  }

  /** When `sub` does not start anywhere inside `pre` in `pre + sub`, the
      first occurrence in `pre + sub + tail` is the one right after `pre`,
      whatever follows. */
  lemma FindAfterPrefix(pre: string, sub: string, tail: string)
    requires forall j :: 0 <= j < |pre| ==> !OccursAt(pre + sub, sub, j)
    ensures Find(pre + sub + tail, sub) == |pre|
  {
    var t := pre + sub + tail;
    assert t[|pre|..|pre| + |sub|] == sub;
    forall j | 0 <= j < |pre|
      ensures !OccursAt(t, sub, j)
    {
      assert !OccursAt(pre + sub, sub, j);
      assert t[j..j + |sub|] == (pre + sub)[j..j + |sub|];
    }
    FindIsFirst(t, sub, |pre|);
  }

  /** `s[i:j]` for non-negative bounds: a bound past the end is clamped and
      an empty range gives the empty string. */
  function Slice(s: string, i: nat, j: nat): (r: string)
    ensures |r| <= |s|
    ensures i <= j <= |s| ==> r == s[i..j]
    ensures j <= i || |s| <= i ==> r == ""
  {
    var hi := if j <= |s| then j else |s|;
    if hi <= i then "" else s[i..hi]
  }

  // ---------------------------------------------------------------- lower

  predicate IsUpper(c: char) { 'A' <= c <= 'Z' }

  /** `str.lower()` restricted to ASCII letters. */
  function LowerChar(c: char): (r: char)
    ensures !IsUpper(r)
    ensures IsUpper(c) ==> r as int == c as int + 32
    ensures !IsUpper(c) ==> r == c
  {
    if IsUpper(c) then (c as int + 32) as char else c
  }

  function Lower(s: string): (r: string)
    ensures |r| == |s|
    ensures forall i :: 0 <= i < |s| ==> r[i] == LowerChar(s[i])
  {
    if s == [] then [] else [LowerChar(s[0])] + Lower(s[1..])
  }

  /** The case-insensitive containment test `q.lower() in name.lower()`. */
  predicate ContainsIgnoringCase(name: string, query: string)
  {
    Contains(Lower(name), Lower(query))
  }

  // -------------------------------------------------------------- replace

  /** `s.replace(pat, rep)`: every non-overlapping occurrence of `pat`, left
      to right, is replaced by `rep` (Python's own scan). */
  function Replace(s: string, pat: string, rep: string): string
    requires |pat| > 0
    decreases |s|
  {
    if s == [] then []
    else if pat <= s then rep + Replace(s[|pat|..], pat, rep)
    else [s[0]] + Replace(s[1..], pat, rep)
  }

  /** A string with no occurrence of `pat` is left as it is. */
  lemma {:induction false} ReplaceAbsent(s: string, pat: string, rep: string)
    requires |pat| > 0
    requires !Contains(s, pat)
    ensures Replace(s, pat, rep) == s
  {
    if s != [] {
      assert !OccursAt(s, pat, 0);
      assert !(pat <= s);
      forall j | 0 <= j && j + |pat| <= |s| - 1
        ensures !OccursAt(s[1..], pat, j)
      {
        assert !OccursAt(s, pat, j + 1);
        assert s[1..][j..j + |pat|] == s[j + 1..j + 1 + |pat|];
      }
      assert !Contains(s[1..], pat);
      ReplaceAbsent(s[1..], pat, rep);
    }
  }

  /** Escaping every `$` as `e$` (`s.replace('$', e + '$')`). */
  function EscapeDollars(s: string, e: char): string
  {
    Replace(s, "$", [e, '$'])
  }

  /** After escaping, every `$` is immediately preceded by the escape. */
  lemma {:induction false} EscapedDollarIsPreceded(s: string, e: char)
    requires e != '$'
    ensures var r := EscapeDollars(s, e);
      forall j :: 0 <= j < |r| && r[j] == '$' ==> j > 0 && r[j - 1] == e
  {
    if s != [] {
      EscapedDollarIsPreceded(s[1..], e);
      var tail := EscapeDollars(s[1..], e);
      if "$" <= s {
        assert EscapeDollars(s, e) == [e, '$'] + tail;
      } else {
        assert EscapeDollars(s, e) == [s[0]] + tail;
      }
    }
  }

  /** Undoing the escape: every `e$` pair becomes `$`, scanning left to right. */
  function UnescapeDollars(s: string, e: char): string
    decreases |s|
  {
    if |s| >= 2 && s[0] == e && s[1] == '$' then "$" + UnescapeDollars(s[2..], e)
    else if s == [] then []
    else [s[0]] + UnescapeDollars(s[1..], e)
  }

  /** Escaping loses nothing: unescaping gives the original text back. */
  lemma {:induction false} UnescapeEscape(s: string, e: char)
    requires e != '$'
    ensures UnescapeDollars(EscapeDollars(s, e), e) == s
  {
    if s != [] {
      UnescapeEscape(s[1..], e);
      var tail := EscapeDollars(s[1..], e);
      if "$" <= s {
        var r := [e, '$'] + tail;
        assert EscapeDollars(s, e) == r;
        assert r[2..] == tail;
        assert s == "$" + s[1..];
      } else {
        var r := [s[0]] + tail;
        assert EscapeDollars(s, e) == r;
        EscapedDollarIsPreceded(s[1..], e);
        assert |tail| > 0 ==> tail[0] != '$';
        assert r[1..] == tail;
        assert s == [s[0]] + s[1..];
      }
    }
  }

  // ---------------------------------------------------------------- split

  /** `s.split(sep)` for a non-empty separator. */
  function Split(s: string, sep: string): (parts: seq<string>)
    requires |sep| > 0
    ensures |parts| >= 1
    decreases |s|
  {
    var f := Find(s, sep);
    if f == -1 then [s] else [s[..f]] + Split(s[f + |sep|..], sep)
  }

  /** The first piece of a split: a prefix of `s` without `sep` in it that
      ends where `s` ends or where the first `sep` starts. */
  lemma SplitHead(s: string, sep: string)
    requires |sep| > 0
    ensures var h := Split(s, sep)[0];
      h <= s && !Contains(h, sep) && (|h| == |s| || OccursAt(s, sep, |h|))
  {
    var f := Find(s, sep);
    var h := Split(s, sep)[0];
    if f != -1 {
      assert h == s[..f];
      assert forall k :: 0 <= k < f ==> !OccursAt(s, sep, k);
      forall j | 0 <= j && j + |sep| <= |h|
        ensures !OccursAt(h, sep, j)
      {
        assert !OccursAt(s, sep, j);
        assert s[..f][j..j + |sep|] == s[j..j + |sep|];
      }
    }
  }

  /** There are at least two pieces exactly when `sep` occurs, and the second
      one is then the head of what follows the first `sep`. */
  lemma SplitSecond(s: string, sep: string)
    requires |sep| > 0
    ensures |Split(s, sep)| >= 2 <==> Contains(s, sep)
    ensures Contains(s, sep) ==> Split(s, sep)[1] == Split(s[Find(s, sep) + |sep|..], sep)[0]
  {
  }

  // ------------------------------------------------------- decimal digits

  predicate IsDigit(c: char) { '0' <= c <= '9' }

  function DigitValue(c: char): (d: nat)
    requires IsDigit(c)
    ensures d < 10
  {
    c as int - '0' as int
  }

  function DigitChar(d: nat): (c: char)
    requires d < 10
    ensures IsDigit(c) && DigitValue(c) == d
  {
    ('0' as int + d) as char
  }

  predicate AllDigits(s: string)
  {
    forall i :: 0 <= i < |s| ==> IsDigit(s[i])
  }

  /** `str(n)` for a natural number. */
  function NatToString(n: nat): (r: string)
    ensures |r| >= 1 && AllDigits(r)
    decreases n
  {
    if n < 10 then [DigitChar(n)] else NatToString(n / 10) + [DigitChar(n % 10)]
  }

  /** `str(i)` for any integer: a minus sign, then the digits. */
  function IntToString(i: int): string
  {
    if i < 0 then "-" + NatToString(-i) else NatToString(i)
  }
}

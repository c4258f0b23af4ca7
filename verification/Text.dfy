/** Character classes, searching, trimming and decimal numerals, shared by the parsers. */
module Text {

  datatype Option<+T> = None | Some(value: T)

  /** C's isspace in the "C" locale: space, tab, newline, vertical tab, form feed, return. */
  predicate IsSpace(c: char) {
    c == ' ' || '\t' <= c <= '\r'
  }

  predicate IsDigit(c: char) {
    '0' <= c <= '9'
  }

  predicate IsAlpha(c: char) {
    'a' <= c <= 'z' || 'A' <= c <= 'Z'
  }

  predicate AllDigits(s: string) {
    forall i :: 0 <= i < |s| ==> IsDigit(s[i])
  }

  ghost predicate Avoids(s: string, cs: set<char>) {
    forall i :: 0 <= i < |s| ==> s[i] !in cs
  }

  /** The first index at or after `from` holding a character of `cs`, or |s|. */
  function Find(s: string, cs: set<char>, from: nat): (k: nat)
    requires from <= |s|
    ensures from <= k <= |s|
    ensures forall i :: from <= i < k ==> s[i] !in cs
    ensures k < |s| ==> s[k] in cs
    decreases |s| - from
  {
    if from == |s| || s[from] in cs then from else Find(s, cs, from + 1)
  }

  /** `Find` after a part known to avoid `cs`. */
  lemma FindAfter(a: string, c: char, b: string, cs: set<char>)
    requires Avoids(a, cs) && c in cs
    ensures Find(a + [c] + b, cs, 0) == |a|
  {
    var s := a + [c] + b;
    assert s[|a|] == c;
    assert forall i :: 0 <= i < |a| ==> s[i] == a[i];
  }

  lemma FindNone(s: string, cs: set<char>)
    requires Avoids(s, cs)
    ensures Find(s, cs, 0) == |s|
  {
  }

  /** The classes by code point. */
  lemma CharClasses(c: char)
    ensures IsSpace(c) <==> c as int in {9, 10, 11, 12, 13, 32}
    ensures IsDigit(c) <==> 48 <= c as int <= 57
    ensures IsAlpha(c) <==> 65 <= c as int <= 90 || 97 <= c as int <= 122
    ensures Blank(c, true) == IsSpace(c) && (Blank(c, false) <==> c as int in {9, 32})
  {
  }

  /** What C sees of a string: everything before the first NUL. */
  function CStr(s: string): string {
    s[..Find(s, {'\0'}, 0)]
  }

  /** Characters a trimmer strips: `wide` is C's isspace, otherwise only space and tab. */
  predicate Blank(c: char, wide: bool) {
    if wide then IsSpace(c) else c == ' ' || c == '\t'
  }

  ghost predicate AllBlank(s: string, wide: bool) {
    forall i :: 0 <= i < |s| ==> Blank(s[i], wide)
  }

  /** No blank at either end. */
  predicate Tight(s: string, wide: bool) {
    s == "" || (!Blank(s[0], wide) && !Blank(s[|s| - 1], wide))
  }

  /** `s` without the blanks at its two ends. */
  function Trim(s: string, wide: bool): (r: string)
    ensures Tight(r, wide)
    ensures |r| <= |s|
  {
    if s == "" then ""
    else if Blank(s[0], wide) then Trim(s[1..], wide)
    else if Blank(s[|s| - 1], wide) then Trim(s[..|s| - 1], wide)
    else s
  }

  lemma TrimTight(s: string, wide: bool)
    requires Tight(s, wide)
    ensures Trim(s, wide) == s
  {
  }

  lemma {:induction false} TrimFront(pad: string, s: string, wide: bool)
    requires AllBlank(pad, wide)
    ensures Trim(pad + s, wide) == Trim(s, wide)
  {
    if pad == "" {
      assert pad + s == s;
    } else {
      assert (pad + s)[1..] == pad[1..] + s;
      TrimFront(pad[1..], s, wide);
    }
  }

  lemma {:induction false} TrimBack(s: string, pad: string, wide: bool)
    requires AllBlank(pad, wide)
    ensures Trim(s + pad, wide) == Trim(s, wide)
    decreases |s|, |pad|
  {
    var t := s + pad;
    if pad == "" {
      assert t == s;
    } else if s == "" {
      assert t == pad + "";
      TrimFront(pad, "", wide);
    } else if Blank(s[0], wide) {
      assert t[1..] == s[1..] + pad;
      TrimBack(s[1..], pad, wide);
    } else {
      var shorter := pad[..|pad| - 1];
      assert t[..|t| - 1] == s + shorter;
      assert t[|t| - 1] == pad[|pad| - 1];
      TrimBack(s, shorter, wide);
    }
  }

  /** Padding a tight core with blanks and trimming gives the core back. */
  lemma TrimPadded(front: string, core: string, back: string, wide: bool)
    requires AllBlank(front, wide) && AllBlank(back, wide) && Tight(core, wide)
    ensures Trim(front + core + back, wide) == core
  {
    assert front + core + back == front + (core + back);
    TrimFront(front, core + back, wide);
    TrimBack(core, back, wide);
    TrimTight(core, wide);
  }

  /** The two-cursor trimming loop used by the INI loader and the temperature filter. */
  method TrimLoop(s: string) returns (start: nat, len: nat)
    ensures start + len <= |s|
    ensures s[start..start + len] == Trim(s, true)
  {
    var i, j := 0, |s|;
    while i < j && IsSpace(s[i])
      invariant i <= j == |s|
      invariant AllBlank(s[..i], true)
    {
      i := i + 1;
    }
    assert s[i..j] == s[i..];
    while j > i && IsSpace(s[j - 1])
      invariant i <= j <= |s|
      invariant AllBlank(s[j..], true)
      invariant i < j ==> !IsSpace(s[i])
    {
      assert s[j - 1..] == [s[j - 1]] + s[j..];
      j := j - 1;
    }
    assert s == s[..i] + s[i..j] + s[j..];
    TrimPadded(s[..i], s[i..j], s[j..], true);
    start, len := i, j - i;
  }

  // ---- decimal numerals ----

  function DigitChar(d: nat): (c: char)
    requires d < 10
    ensures IsDigit(c) && DigitValue(c) == d
  {
    (d as char) + '0'
  }

  function DigitValue(c: char): (d: nat)
    requires IsDigit(c)
    ensures d < 10
  {
    c as int - '0' as int
  }

  /** The decimal numeral of `n`. */
  function Dec(n: nat): (s: string)
    ensures s != "" && AllDigits(s)
  {
    if n < 10 then [DigitChar(n)] else Dec(n / 10) + [DigitChar(n % 10)]
  }

  function DecInt(n: int): (s: string)
    ensures s != ""
  {
    if n < 0 then "-" + Dec(-n) else Dec(n)
  }

  /** The number a run of digits denotes. */
  function Val(s: string): nat
    requires AllDigits(s)
  {
    if s == "" then 0 else 10 * Val(s[..|s| - 1]) + DigitValue(s[|s| - 1])
  }

  lemma {:induction false} ValDec(n: nat)
    ensures Val(Dec(n)) == n
  {
    var s := Dec(n);
    if n < 10 {
      assert s[..0] == "";
      assert Val(s[..0]) == 0;
    } else {
      ValDec(n / 10);
      assert s[..|s| - 1] == Dec(n / 10);
    }
  }

  /** Where the run of digits that begins at `i` ends. */
  function RunEnd(m: string, i: nat): (e: nat)
    requires i <= |m|
    ensures i <= e <= |m| && forall k :: i <= k < e ==> IsDigit(m[k])
    decreases |m| - i
  {
    if i == |m| || !IsDigit(m[i]) then i else RunEnd(m, i + 1)
  }

  lemma {:induction false} RunEndIs(m: string, i: nat, e: nat)
    requires i <= e <= |m| && forall k :: i <= k < e ==> IsDigit(m[k])
    requires e == |m| || !IsDigit(m[e])
    ensures RunEnd(m, i) == e
    decreases e - i
  {
    if i < e {
      RunEndIs(m, i + 1, e);
    }
  }
}

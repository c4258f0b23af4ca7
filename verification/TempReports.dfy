/**
 What the temperature filter hides: an exact description of the accepted lines that does not
 mention the scan, and the reports printed from the token grammar that it recognises.
 */
module TempReports {
  import opened Text
  import opened TempFilter

  // ---- the accepted lines ----

  /** Every letter from `i` on heads a token. */
  ghost predicate Headed(s: string, i: nat) {
    forall k :: i <= k < |s| && IsAlpha(s[k]) ==> Token(s, k).Some?
  }

  ghost predicate HasExtruder(s: string, i: nat) {
    exists k :: i <= k < |s| && Is(s, k, 'T', 't')
  }

  /** A colon whose left neighbours spell one of the fast reject's markers. */
  predicate MarkAt(s: string, k: int) {
    && 1 <= k < |s| && s[k] == ':'
    && (s[k - 1] in {'T', 'B', '@'} || (s[k - 1] == '0' && k >= 2 && s[k - 2] == 'T'))
  }

  ghost predicate Marked(s: string) {
    exists k :: MarkAt(s, k)
  }

  ghost predicate NoLetters(s: string, from: nat, to: nat)
    requires to <= |s|
  {
    forall k :: from <= k < to ==> !IsAlpha(s[k])
  }

  lemma NumberHasNoLetters(s: string, i: nat)
    requires i <= |s| && NumberEnd(s, i).Some?
    ensures NoLetters(s, i, NumberEnd(s, i).value)
  {
    hide RunEnd;
  }

  lemma PairHasNoLetters(s: string, i: nat)
    requires i <= |s| && PairEnd(s, i).Some?
    ensures NoLetters(s, i, PairEnd(s, i).value)
  {
    hide NumberEnd;
    NumberHasNoLetters(s, i);
    var j := NumberEnd(s, i).value;
    if j < |s| && s[j] == '/' && NumberEnd(s, j + 1).Some? {
      NumberHasNoLetters(s, j + 1);
    }
  }

  /** A token's only letter is its head, and it is an extruder token exactly when that is T. */
  lemma TokenLetters(s: string, i: nat)
    requires i <= |s| && Token(s, i).Some?
    ensures NoLetters(s, i + 1, Token(s, i).value.0)
    ensures Token(s, i).value.1 <==> Is(s, i, 'T', 't')
    ensures IsAlpha(s[i]) ==> s[i] in {'T', 't', 'B', 'b', 'C', 'c'}
  {
    hide NumberEnd, PairEnd;
    if Is(s, i, 'T', 't') {
      PairHasNoLetters(s, ExtruderBody(s, i).value);
    } else if ColonAt(s, i + 1) && s[i] != '@' {
      PairHasNoLetters(s, i + 2);
    } else if s[i] == '@' {
      NumberHasNoLetters(s, i + 2);
    } else {
      NumberHasNoLetters(s, i + 3);
    }
  }

  /** The scan accepts exactly when every letter heads a token and a T occurs. */
  lemma {:induction false} ScanIff(s: string, i: nat, saw: bool)
    requires i <= |s|
    ensures Scan(s, i, saw) <==> Headed(s, i) && (saw || HasExtruder(s, i))
    decreases |s| - i
  {
    hide Token, SkipWs, SepEnd;
    var j := SkipWs(s, i);
    assert NoLetters(s, i, j);
    if j < |s| {
      match Token(s, j)
      case Some((e, extruder)) =>
        TokenLetters(s, j);
        ScanIff(s, e, saw || extruder);
        assert forall k :: i <= k < e && IsAlpha(s[k]) ==> k == j;
      case None =>
        if !IsAlpha(s[j]) {
          var e := SepEnd(s, j);
          ScanIff(s, e, saw);
          assert NoLetters(s, i, e);
        }
    }
  }

  predicate At(s: string, sub: string, i: int) {
    0 <= i && i + |sub| <= |s| && forall j :: 0 <= j < |sub| ==> s[i + j] == sub[j]
  }

  lemma {:induction false} ContainsIff(s: string, sub: string)
    requires sub != ""
    ensures Contains(s, sub) <==> exists i :: At(s, sub, i)
  {
    if |sub| <= |s| {
      if s[..|sub|] == sub {
        assert forall j :: 0 <= j < |sub| ==> s[..|sub|][j] == s[j];
        assert At(s, sub, 0);
      } else {
        ContainsIff(s[1..], sub);
        if i :| At(s[1..], sub, i) {
          assert At(s, sub, i + 1);
        }
        assert !At(s, sub, 0) by {
          var j :| 0 <= j < |sub| && s[..|sub|][j] != sub[j];
        }
        if i :| At(s, sub, i) {
          assert At(s[1..], sub, i - 1);
        }
      }
    }
  }

  lemma ContainsTwo(s: string, a: char, k: int)
    ensures 1 <= k < |s| && s[k] == ':' && s[k - 1] == a <==> At(s, [a, ':'], k - 1)
  {
    var sub := [a, ':'];
    if At(s, sub, k - 1) {
      assert s[k - 1 + 0] == sub[0] && s[k - 1 + 1] == sub[1];
    }
  }

  lemma ContainsThree(s: string, a: char, b: char, k: int)
    ensures 2 <= k < |s| && s[k] == ':' && s[k - 1] == b && s[k - 2] == a <==> At(s, [a, b, ':'], k - 2)
  {
    var sub := [a, b, ':'];
    if At(s, sub, k - 2) {
      assert s[k - 2 + 0] == sub[0] && s[k - 2 + 1] == sub[1] && s[k - 2 + 2] == sub[2];
    }
  }

  lemma PlausibleIff(s: string)
    ensures Plausible(s) <==> Marked(s)
  {
    hide Contains, At;
    ContainsIff(s, "T:");
    ContainsIff(s, "T0:");
    ContainsIff(s, "B:");
    ContainsIff(s, "@:");
    ContainsIff(s, "B@:");
    forall k: int
      ensures MarkAt(s, k) <==>
                || At(s, "T:", k - 1) || At(s, "B:", k - 1) || At(s, "@:", k - 1)
                || At(s, "T0:", k - 2)
      ensures At(s, "B@:", k - 2) ==> At(s, "@:", k - 1)
    {
      ContainsTwo(s, 'T', k);
      ContainsTwo(s, 'B', k);
      ContainsTwo(s, '@', k);
      ContainsThree(s, 'T', '0', k);
      ContainsThree(s, 'B', '@', k);
    }
    if Plausible(s) {
      var i, sub :| sub in {"T:", "T0:", "B:", "@:", "B@:"} && At(s, sub, i);
      assert At(s, sub, (i + |sub| - 1) - (|sub| - 1));
      assert MarkAt(s, i + |sub| - 1);
    }
  }

  lemma ScanReportIff(buf: string)
    ensures IsReport(buf) <==>
              var s := Trim(buf, true);
              Marked(s) && Headed(s, AfterOk(s)) && HasExtruder(s, AfterOk(s))
  {
    hide Scan, Plausible, Trim, AfterOk;
    var s := Trim(buf, true);
    PlausibleIff(s);
    ScanIff(s, AfterOk(s), false);
  }

  /** A digit, or a point and a digit, after an optional sign. */
  predicate StartsNumber(s: string, i: nat) {
    var j := if i < |s| && s[i] in {'-', '+'} then i + 1 else i;
    j < |s| && ('0' <= s[j] <= '9' || (s[j] == '.' && j + 1 < |s| && '0' <= s[j + 1] <= '9'))
  }

  /** A label (T, T and one digit, B, C, @ or B@), a colon and the start of a number. */
  predicate TokenAt(s: string, k: nat) {
    || (k + 1 < |s| && s[k] in {'T', 't', 'B', 'b', 'C', 'c', '@'} && s[k + 1] == ':' && StartsNumber(s, k + 2))
    || (k + 2 < |s| && s[k] in {'T', 't'} && '0' <= s[k + 1] <= '9' && s[k + 2] == ':' && StartsNumber(s, k + 3))
    || (k + 2 < |s| && s[k] in {'B', 'b'} && s[k + 1] == '@' && s[k + 2] == ':' && StartsNumber(s, k + 3))
  }

  /** Position `k` is not part of a leading "ok". */
  predicate PastOk(s: string, k: nat) {
    |s| >= 2 && s[0] in {'o', 'O'} && s[1] in {'k', 'K'} ==> k >= 2
  }

  /** The tokens of the scan are these, wherever they stand. */
  lemma TokenAtIff(s: string, k: nat)
    requires k <= |s|
    ensures Token(s, k).Some? <==> TokenAt(s, k)
  {
    hide Token;
    TokenIff(s, k);
  }

  /** The letters from `AfterOk` on are the letters past a leading "ok". */
  lemma AfterOkLetters(s: string, k: nat)
    requires k < |s| && IsAlpha(s[k])
    ensures AfterOk(s) <= k <==> PastOk(s, k)
  {
  }

  /**
   The filter, described without its scan: a known marker, every letter past a leading "ok" heads a
   token, and one of those letters is a T.
   */
  lemma ReportIff(buf: string)
    ensures IsReport(buf) <==>
              var s := Trim(buf, true);
              && Marked(s)
              && (forall k :: 0 <= k < |s| && PastOk(s, k) && IsAlpha(s[k]) ==> TokenAt(s, k))
              && (exists k :: 0 <= k < |s| && PastOk(s, k) && s[k] in {'T', 't'})
  {
    hide IsReport, Trim, AfterOk, PastOk, Token, TokenAt, MarkAt;
    var s := Trim(buf, true);
    ScanReportIff(buf);
    forall k | 0 <= k < |s| && IsAlpha(s[k])
      ensures AfterOk(s) <= k <==> PastOk(s, k)
      ensures Token(s, k).Some? <==> TokenAt(s, k)
    {
      AfterOkLetters(s, k);
      TokenAtIff(s, k);
    }
    if HasExtruder(s, AfterOk(s)) {
      var k :| AfterOk(s) <= k < |s| && Is(s, k, 'T', 't');
      assert PastOk(s, k) && s[k] in {'T', 't'};
    }
    if k :| 0 <= k < |s| && PastOk(s, k) && s[k] in {'T', 't'} {
      assert Is(s, k, 'T', 't') && AfterOk(s) <= k;
    }
  }

  /** A line with a letter other than T, B or C, outside a leading "ok", is never hidden. */
  lemma ForeignLetterKept(buf: string, k: nat)
    requires k < |Trim(buf, true)| && PastOk(Trim(buf, true), k)
    requires IsAlpha(Trim(buf, true)[k]) && Trim(buf, true)[k] !in {'T', 't', 'B', 'b', 'C', 'c'}
    ensures !IsReport(buf)
  {
    hide Trim, PastOk, MarkAt, IsReport;
    ReportIff(buf);
  }

  /** "echo: T:210" is shown although it holds a whole report. */
  lemma EchoKept()
    ensures !IsReport("echo: T:210")
  {
    var s := "echo: T:210";
    TrimTight(s, true);
    ForeignLetterKept(s, 0);
  }

  // ---- printed reports ----

  datatype Number = Number(sign: string, whole: string, fraction: Option<string>)

  predicate NumberOk(n: Number) {
    && n.sign in {"", "-", "+"}
    && AllDigits(n.whole)
    && (n.fraction.Some? ==> AllDigits(n.fraction.value))
    && (n.whole != "" || (n.fraction.Some? && n.fraction.value != ""))
  }

  function ShowNumber(n: Number): (s: string) {
    n.sign + n.whole + (if n.fraction.Some? then "." + n.fraction.value else "")
  }

  /** `target` absent: no slash; present but empty: a slash with nothing after it. */
  datatype Reading = Reading(now: Number, target: Option<Option<Number>>)

  predicate ReadingOk(r: Reading) {
    NumberOk(r.now) && (r.target.Some? && r.target.value.Some? ==> NumberOk(r.target.value.value))
  }

  function ShowReading(r: Reading): (s: string) {
    ShowNumber(r.now)
    + match r.target
      case None => ""
      case Some(None) => "/"
      case Some(Some(n)) => "/" + ShowNumber(n)
  }

  /** The pieces a report is made of; `Other` is whitespace or any run without letters and colons. */
  datatype Piece =
    | Extruder(lower: bool, index: Option<nat>, reading: Reading)
    | Bed(lower: bool, reading: Reading)
    | Chamber(lower: bool, reading: Reading)
    | Power(duty: Number)
    | BedPower(lower: bool, duty: Number)
    | Other(text: string)

  predicate PieceOk(p: Piece) {
    match p
    case Extruder(_, index, reading) => (index.Some? ==> index.value < 10) && ReadingOk(reading)
    case Bed(_, reading) => ReadingOk(reading)
    case Chamber(_, reading) => ReadingOk(reading)
    case Power(duty) => NumberOk(duty)
    case BedPower(_, duty) => NumberOk(duty)
    case Other(text) => forall k :: 0 <= k < |text| ==> !IsAlpha(text[k]) && text[k] != ':'
  }

  function Label(p: Piece): (s: string)
    requires PieceOk(p)
  {
    match p
    case Extruder(lower, index, _) => (if lower then "t" else "T") + (if index.Some? then [DigitChar(index.value)] else "")
    case Bed(lower, _) => if lower then "b" else "B"
    case Chamber(lower, _) => if lower then "c" else "C"
    case Power(_) => "@"
    case BedPower(lower, _) => if lower then "b@" else "B@"
    case Other(_) => ""
  }

  function Payload(p: Piece): (s: string) {
    match p
    case Extruder(_, _, reading) => ShowReading(reading)
    case Bed(_, reading) => ShowReading(reading)
    case Chamber(_, reading) => ShowReading(reading)
    case Power(duty) => ShowNumber(duty)
    case BedPower(_, duty) => ShowNumber(duty)
    case Other(text) => text
  }

  function Show(p: Piece): (s: string)
    requires PieceOk(p)
  {
    if p.Other? then p.text else Label(p) + ":" + Payload(p)
  }

  function Render(ps: seq<Piece>): (s: string)
    requires forall p <- ps :: PieceOk(p)
  {
    if ps == [] then "" else Show(ps[0]) + Render(ps[1..])
  }

  /** The pieces whose label the fast reject knows: T, T0, B in upper case, and both powers. */
  predicate Known(p: Piece) {
    match p
    case Extruder(lower, index, _) => !lower && (index.None? || index.value == 0)
    case Bed(lower, _) => !lower
    case Chamber(_, _) => false
    case Power(_) => true
    case BedPower(_, _) => true
    case Other(_) => false
  }

  // ---- letters and marks of a concatenation ----

  /** A number is found by its first one or two characters after the sign. */
  predicate NumberHead(s: string, i: nat)
    requires i <= |s|
  {
    var a := AfterSign(s, i);
    a < |s| && (IsDigit(s[a]) || (s[a] == '.' && a + 1 < |s| && IsDigit(s[a + 1])))
  }

  lemma NumberIff(s: string, i: nat)
    requires i <= |s|
    ensures NumberEnd(s, i).Some? <==> NumberHead(s, i)
    ensures PairEnd(s, i).Some? <==> NumberHead(s, i)
  {
  }

  /** Whether a token starts at `i`, with its end left out. */
  predicate TokenHead(s: string, i: nat)
    requires i <= |s|
  {
    if Is(s, i, 'T', 't') then ExtruderBody(s, i).Some? && NumberHead(s, ExtruderBody(s, i).value)
    else if (Is(s, i, 'B', 'b') || Is(s, i, 'C', 'c')) && ColonAt(s, i + 1) then NumberHead(s, i + 2)
    else if i < |s| && s[i] == '@' && ColonAt(s, i + 1) then NumberHead(s, i + 2)
    else Is(s, i, 'B', 'b') && i + 1 < |s| && s[i + 1] == '@' && ColonAt(s, i + 2) && NumberHead(s, i + 3)
  }

  lemma TokenIff(s: string, i: nat)
    requires i <= |s|
    ensures Token(s, i).Some? <==> TokenHead(s, i)
  {
    hide NumberEnd, PairEnd, NumberHead;
    forall j | 0 <= j <= |s|
      ensures NumberEnd(s, j).Some? <==> NumberHead(s, j)
      ensures PairEnd(s, j).Some? <==> NumberHead(s, j)
    {
      NumberIff(s, j);
    }
  }

  lemma NumberHeadEmbeds(a: string, s: string, b: string, i: nat)
    requires i <= |s| && NumberHead(s, i)
    ensures NumberHead(a + s + b, |a| + i)
  {
    assert forall k :: 0 <= k < |s| ==> (a + s + b)[|a| + k] == s[k];
  }

  /** A token stays a token whatever surrounds it. */
  lemma TokenEmbeds(a: string, s: string, b: string, i: nat)
    requires i < |s| && Token(s, i).Some?
    ensures Token(a + s + b, |a| + i).Some?
  {
    hide Token, NumberHead;
    TokenIff(s, i);
    var t := a + s + b;
    TokenIff(t, |a| + i);
    assert forall k :: 0 <= k < |s| ==> t[|a| + k] == s[k];
    forall j | 0 <= j <= |s| && NumberHead(s, j)
      ensures NumberHead(t, |a| + j)
    {
      NumberHeadEmbeds(a, s, b, j);
    }
  }

  lemma HeadedConcat(a: string, b: string)
    requires Headed(a, 0) && Headed(b, 0)
    ensures Headed(a + b, 0)
  {
    hide Token;
    var s := a + b;
    assert "" + a + b == s && a + b + "" == s;
    forall k | 0 <= k < |s| && IsAlpha(s[k])
      ensures Token(s, k).Some?
    {
      if k < |a| {
        TokenEmbeds("", a, b, k);
      } else {
        TokenEmbeds(a, b, "", k - |a|);
      }
    }
  }

  /** Every colon has its label to its left within `s`. */
  ghost predicate Closed(s: string) {
    forall k :: 0 <= k < |s| && s[k] == ':' ==> k >= 1 && (s[k - 1] == '0' ==> k >= 2)
  }

  lemma MarkedConcat(a: string, b: string)
    requires Closed(b)
    ensures Marked(a + b) <==> Marked(a) || Marked(b)
    ensures Closed(a) ==> Closed(a + b)
  {
    var s := a + b;
    if k :| MarkAt(a, k) {
      assert MarkAt(s, k);
    }
    if k :| MarkAt(b, k) {
      assert MarkAt(s, |a| + k);
    }
    if k :| MarkAt(s, k) {
      if k < |a| {
        assert MarkAt(a, k);
      } else {
        assert b[k - |a|] == ':';
        assert MarkAt(b, k - |a|);
      }
    }
  }

  ghost predicate Plain(s: string) {
    forall k :: 0 <= k < |s| ==> !IsAlpha(s[k]) && s[k] != ':'
  }

  lemma NumberPlain(n: Number)
    requires NumberOk(n)
    ensures Plain(ShowNumber(n)) && NumberHead(ShowNumber(n), 0)
  {
    var s := ShowNumber(n);
    var a := |n.sign|;
    if n.whole != "" {
      assert s[a] == n.whole[0];
    } else {
      assert s[a] == '.' && s[a + 1] == n.fraction.value[0];
    }
    assert AfterSign(s, 0) == a;
  }

  lemma ReadingPlain(r: Reading)
    requires ReadingOk(r)
    ensures Plain(ShowReading(r)) && NumberHead(ShowReading(r), 0)
  {
    hide NumberHead, ShowNumber, NumberOk;
    NumberPlain(r.now);
    var s, rest := ShowNumber(r.now), ShowReading(r)[|ShowNumber(r.now)|..];
    assert ShowReading(r) == "" + s + rest;
    NumberHeadEmbeds("", s, rest, 0);
    if r.target.Some? && r.target.value.Some? {
      NumberPlain(r.target.value.value);
    }
  }

  lemma PayloadPlain(p: Piece)
    requires PieceOk(p)
    ensures Plain(Payload(p)) && (!p.Other? ==> NumberHead(Payload(p), 0))
  {
    hide NumberHead, ShowNumber, NumberOk, ShowReading, ReadingOk;
    match p
    case Extruder(_, _, reading) => ReadingPlain(reading);
    case Bed(_, reading) => ReadingPlain(reading);
    case Chamber(_, reading) => ReadingPlain(reading);
    case Power(duty) => NumberPlain(duty);
    case BedPower(_, duty) => NumberPlain(duty);
    case Other(_) =>
  }

  /** The text of a piece with a label. */
  lemma LabelledText(p: Piece)
    requires PieceOk(p) && !p.Other?
    ensures var s, l, v := Show(p), Label(p), Payload(p);
            && |l| in {1, 2} && |s| == |l| + 1 + |v| && s[|l|] == ':'
            && (forall k :: 0 <= k < |l| ==> s[k] == l[k])
            && (forall k :: |l| < k < |s| ==> s[k] == v[k - |l| - 1])
            && Plain(v) && NumberHead(s, |l| + 1)
  {
    hide NumberHead, Payload;
    PayloadPlain(p);
    var l, v := Label(p), Payload(p);
    assert Show(p) == (l + ":") + v + "";
    NumberHeadEmbeds(l + ":", v, "", 0);
  }

  lemma PieceHeads(p: Piece)
    requires PieceOk(p) && !p.Other?
    ensures Headed(Show(p), 0) && (HasExtruder(Show(p), 0) <==> p.Extruder?)
  {
    hide NumberHead, Payload, Token, Show;
    LabelledText(p);
    var s := Show(p);
    TokenIff(s, 0);
    assert p.Extruder? ==> Is(s, 0, 'T', 't');
  }

  lemma PieceMarks(p: Piece)
    requires PieceOk(p) && !p.Other?
    ensures Closed(Show(p)) && (Marked(Show(p)) <==> Known(p))
  {
    hide NumberHead, Payload, Show;
    LabelledText(p);
    var s, l := Show(p), Label(p);
    assert Known(p) ==> MarkAt(s, |l|);
    assert forall k :: 0 <= k < |s| && s[k] == ':' ==> k == |l|;
  }

  /** Each printed piece by itself: its letters head tokens, its mark is its label's. */
  lemma PieceFacts(p: Piece)
    requires PieceOk(p)
    ensures Headed(Show(p), 0) && Closed(Show(p))
    ensures Marked(Show(p)) <==> Known(p)
    ensures HasExtruder(Show(p), 0) <==> p.Extruder?
  {
    hide Token;
    if !p.Other? {
      PieceHeads(p);
      PieceMarks(p);
    }
  }

  // ---- how far the cursors go ----

  /** What may follow a printed piece. */
  predicate Stops(rest: string) {
    rest == "" || IsSpace(rest[0])
  }

  /** The number parser ends exactly after a printed number that a slash, a blank or nothing follows. */
  lemma NumberEndPrinted(pre: string, n: Number, rest: string)
    requires NumberOk(n) && (Stops(rest) || rest[0] == '/')
    ensures NumberEnd(pre + ShowNumber(n) + rest, |pre|) == Some(|pre| + |ShowNumber(n)|)
  {
    hide RunEnd;
    var shown := ShowNumber(n);
    var s := pre + shown + rest;
    var a := |pre| + |n.sign|;
    var b := a + |n.whole|;
    assert forall k :: 0 <= k < |shown| ==> s[|pre| + k] == shown[k];
    assert forall k :: a <= k < b ==> s[k] == n.whole[k - a];
    assert rest != "" ==> s[|pre| + |shown|] == rest[0];
    assert AfterSign(s, |pre|) == a;
    if n.fraction.Some? {
      assert s[b] == '.';
      assert forall k :: b < k <= b + |n.fraction.value| ==> s[k] == n.fraction.value[k - b - 1];
      RunEndIs(s, b + 1, b + 1 + |n.fraction.value|);
    }
    RunEndIs(s, a, b);
  }

  /** The pair parser takes a printed reading whole: number, slash and target. */
  lemma PairEndPrinted(pre: string, r: Reading, rest: string)
    requires ReadingOk(r) && Stops(rest)
    ensures PairEnd(pre + ShowReading(r) + rest, |pre|) == Some(|pre| + |ShowReading(r)|)
  {
    hide NumberEnd, ShowNumber, NumberOk;
    var now := ShowNumber(r.now);
    var s := pre + ShowReading(r) + rest;
    match r.target
    case None =>
      assert s == pre + now + rest;
      NumberEndPrinted(pre, r.now, rest);
    case Some(None) =>
      assert s == pre + now + ("/" + rest);
      NumberEndPrinted(pre, r.now, "/" + rest);
      NoNumberAt(s, |pre| + |now| + 1);
    case Some(Some(n)) =>
      var more := "/" + ShowNumber(n) + rest;
      assert s == pre + now + more;
      NumberEndPrinted(pre, r.now, more);
      var before := pre + now + "/";
      assert s == before + ShowNumber(n) + rest;
      NumberEndPrinted(before, n, rest);
  }

  lemma NoNumberAt(s: string, i: nat)
    requires i <= |s| && (i == |s| || IsSpace(s[i]))
    ensures NumberEnd(s, i).None?
  {
  }

  lemma LabelToken(s: string, i: nat, p: Piece)
    requires PieceOk(p) && !p.Other? && i + |Label(p)| < |s| && s[i + |Label(p)|] == ':'
    requires forall k :: 0 <= k < |Label(p)| ==> s[i + k] == Label(p)[k]
    ensures var j := i + |Label(p)| + 1;
            Token(s, i) == Tag(if p.Power? || p.BedPower? then NumberEnd(s, j) else PairEnd(s, j), p.Extruder?)
  {
    hide NumberEnd, PairEnd, ReadingOk, NumberOk;
    var l := Label(p);
    assert |l| in {1, 2} && s[i] == l[0];
    assert |l| == 2 ==> s[i + 1] == l[1];
  }

  lemma PayloadEnd(before: string, p: Piece, rest: string)
    requires PieceOk(p) && !p.Other? && Stops(rest)
    ensures var s, j := before + Payload(p) + rest, |before|;
            (if p.Power? || p.BedPower? then NumberEnd(s, j) else PairEnd(s, j)) == Some(j + |Payload(p)|)
  {
    hide NumberEnd, PairEnd, ShowNumber, ShowReading, ReadingOk, NumberOk, Stops;
    match p
    case Extruder(_, _, reading) => PairEndPrinted(before, reading, rest);
    case Bed(_, reading) => PairEndPrinted(before, reading, rest);
    case Chamber(_, reading) => PairEndPrinted(before, reading, rest);
    case Power(duty) => NumberEndPrinted(before, duty, rest);
    case BedPower(_, duty) => NumberEndPrinted(before, duty, rest);
  }

  lemma ShownParts(pre: string, p: Piece, rest: string)
    requires PieceOk(p) && !p.Other?
    ensures var s, l := pre + Show(p) + rest, Label(p);
            && s == pre + l + ":" + Payload(p) + rest && |pre + l + ":"| == |pre| + |l| + 1
            && |Show(p)| == |l| + 1 + |Payload(p)|
            && s[|pre| + |l|] == ':' && forall k :: 0 <= k < |l| ==> s[|pre| + k] == l[k]
  {
    hide Label, Payload, PieceOk;
  }

  /** The token parser takes a printed token whole, and tells an extruder's from the others. */
  lemma TokenPrinted(pre: string, p: Piece, rest: string)
    requires PieceOk(p) && !p.Other? && Stops(rest)
    ensures Token(pre + Show(p) + rest, |pre|) == Some((|pre| + |Show(p)|, p.Extruder?))
  {
    hide NumberEnd, PairEnd, Token, Label, Payload, Show, Stops, PieceOk;
    ShownParts(pre, p, rest);
    LabelToken(pre + Show(p) + rest, |pre|, p);
    PayloadEnd(pre + Label(p) + ":", p, rest);
  }

  lemma ExtruderConcat(a: string, b: string)
    ensures HasExtruder(a + b, 0) <==> HasExtruder(a, 0) || HasExtruder(b, 0)
  {
    var s := a + b;
    if k :| 0 <= k < |a| && Is(a, k, 'T', 't') {
      assert Is(s, k, 'T', 't');
    }
    if k :| 0 <= k < |b| && Is(b, k, 'T', 't') {
      assert Is(s, |a| + k, 'T', 't');
    }
    if k :| 0 <= k < |s| && Is(s, k, 'T', 't') {
      assert k < |a| ==> Is(a, k, 'T', 't');
      assert k >= |a| ==> Is(b, k - |a|, 'T', 't');
    }
  }

  lemma {:induction false} RenderFacts(ps: seq<Piece>)
    requires forall p <- ps :: PieceOk(p)
    ensures Headed(Render(ps), 0) && Closed(Render(ps))
    ensures Marked(Render(ps)) <==> exists p <- ps :: Known(p)
    ensures HasExtruder(Render(ps), 0) <==> exists p <- ps :: p.Extruder?
  {
    hide Show, PieceOk, Token, MarkAt, Known;
    if ps == [] {
      if k :| MarkAt(Render(ps), k) {
        MarkInside(Render(ps), k);
      }
    } else {
      var a, b := Show(ps[0]), Render(ps[1..]);
      PieceFacts(ps[0]);
      RenderFacts(ps[1..]);
      HeadedConcat(a, b);
      MarkedConcat(a, b);
      ExtruderConcat(a, b);
      assert ps == [ps[0]] + ps[1..];
    }
  }

  lemma MarkInside(s: string, k: int)
    requires MarkAt(s, k)
    ensures 0 < k < |s|
  {
  }

  /**
   A printed report, in any whitespace and with or without "ok", is hidden if and only if it
   has an extruder reading and a piece the fast reject knows.
   */
  lemma PrintedReportIff(lead: string, ok: string, ps: seq<Piece>, trail: string)
    requires AllBlank(lead, true) && AllBlank(trail, true)
    requires ok in {"", "ok", "OK", "Ok", "oK"} && forall p <- ps :: PieceOk(p)
    requires Tight(ok + Render(ps), true)
    ensures IsReport(lead + (ok + Render(ps)) + trail) <==>
              (exists p <- ps :: p.Extruder?) && (exists p <- ps :: Known(p))
  {
    hide IsReport, Trim, Render, Token, Known, PieceOk, MarkAt;
    var body := Render(ps);
    var s := ok + body;
    TrimPadded(lead, s, trail, true);
    ScanReportIff(lead + s + trail);
    RenderFacts(ps);
    MarkedConcat(ok, body);
    OkUnmarked(ok);
    AfterOkOfPrinted(ok, body);
  }

  lemma OkUnmarked(ok: string)
    requires ok in {"", "ok", "OK", "Ok", "oK"}
    ensures !Marked(ok)
  {
  }

  /** The optional "ok" is skipped whole and nothing else is. */
  lemma AfterOkOfPrinted(ok: string, body: string)
    requires ok in {"", "ok", "OK", "Ok", "oK"} && Headed(body, 0)
    ensures Headed(ok + body, AfterOk(ok + body))
    ensures HasExtruder(ok + body, AfterOk(ok + body)) <==> HasExtruder(body, 0)
  {
    hide Token;
    var s := ok + body;
    var i := AfterOk(s);
    if ok == "" {
      assert s == body;
      if |s| >= 1 && Is(s, 0, 'o', 'O') {
        TokenLetters(s, 0);
      }
      assert i == 0;
    } else {
      assert i == 2 || (i == 3 && IsSpace(body[0]));
      ShiftHeads(ok, body, i);
    }
  }

  lemma ShiftHeads(ok: string, body: string, i: nat)
    requires |ok| == 2 && Headed(body, 0) && i <= |ok + body|
    requires i == 2 || (i == 3 && IsSpace(body[0]))
    ensures Headed(ok + body, i)
    ensures HasExtruder(ok + body, i) <==> HasExtruder(body, 0)
  {
    hide Token;
    var s := ok + body;
    assert ok + body + "" == s;
    forall k | i <= k < |s| && IsAlpha(s[k])
      ensures Token(s, k).Some?
    {
      TokenEmbeds(ok, body, "", k - 2);
    }
    if k :| 0 <= k < |body| && Is(body, k, 'T', 't') {
      assert Is(s, k + 2, 'T', 't');
    }
    if k :| i <= k < |s| && Is(s, k, 'T', 't') {
      assert Is(body, k - 2, 'T', 't');
    }
  }

  /** A report of the second extruder alone is shown: the fast reject does not know "T1:". */
  lemma SecondExtruderShown()
    ensures !IsReport("T1:200 ")
  {
    hide IsReport, Trim, Token, MarkAt, Headed, HasExtruder;
    var piece := Extruder(false, Some(1), Reading(Number("", "200", None), None));
    assert Render([piece]) == "T1:200";
    PrintedReportIff("", "", [piece], " ");
    assert "" + ("" + Render([piece])) + " " == "T1:200 ";
  }
}

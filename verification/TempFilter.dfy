/**
 The recogniser for Klipper temperature reports such as "ok T:200.0 /200.0 B:60.0 /60.0 @:0",
 which the console hides: the scanners as functions of a position, and the cursor loops that
 compute them. What the recogniser accepts is in `TempReports`.
 */
module TempFilter {
  import opened Text

  // ---- the scanners as functions of a position ----

  function SkipWs(s: string, i: nat): (j: nat)
    requires i <= |s|
    ensures i <= j <= |s| && (j < |s| ==> !IsSpace(s[j]))
    ensures forall k :: i <= k < j ==> IsSpace(s[k])
    decreases |s| - i
  {
    if i < |s| && IsSpace(s[i]) then SkipWs(s, i + 1) else i
  }

  /** The end of a run that holds neither spaces nor letters. */
  function SepEnd(s: string, i: nat): (j: nat)
    requires i <= |s|
    ensures i <= j <= |s| && (j < |s| ==> IsSpace(s[j]) || IsAlpha(s[j]))
    ensures forall k :: i <= k < j ==> !IsSpace(s[k]) && !IsAlpha(s[k])
    decreases |s| - i
  {
    if i < |s| && !IsSpace(s[i]) && !IsAlpha(s[i]) then SepEnd(s, i + 1) else i
  }

  function AfterSign(s: string, i: nat): (j: nat)
    requires i <= |s|
    ensures i <= j <= |s|
  {
    if i < |s| && (s[i] == '-' || s[i] == '+') then i + 1 else i
  }

  /** [-+]? digits [ . digits ]?, with a digit somewhere; the end of the match. */
  function NumberEnd(s: string, i: nat): (r: Option<nat>)
    requires i <= |s|
    ensures r.Some? ==> i < r.value <= |s|
  {
    var a := AfterSign(s, i);
    var b := RunEnd(s, a);
    var c := if b < |s| && s[b] == '.' then RunEnd(s, b + 1) else b;
    if b > a || c > b + 1 then Some(c) else None
  }

  /** number [ '/' number? ]? */
  function PairEnd(s: string, i: nat): (r: Option<nat>)
    requires i <= |s|
    ensures r.Some? ==> i < r.value <= |s|
  {
    match NumberEnd(s, i)
    case None => None
    case Some(j) =>
      if j < |s| && s[j] == '/' then
        match NumberEnd(s, j + 1)
        case None => Some(j + 1)
        case Some(k) => Some(k)
      else Some(j)
  }

  predicate Is(s: string, i: nat, upper: char, lower: char) {
    i < |s| && (s[i] == upper || s[i] == lower)
  }

  predicate ColonAt(s: string, i: nat) {
    i < |s| && s[i] == ':'
  }

  /** Where the reading of an extruder token T: or T<digit>: begins. */
  function ExtruderBody(s: string, i: nat): (r: Option<nat>)
    ensures r.Some? ==> i < r.value <= |s|
  {
    if !Is(s, i, 'T', 't') then None
    else
      var j := if i + 1 < |s| && IsDigit(s[i + 1]) then i + 2 else i + 1;
      if ColonAt(s, j) then Some(j + 1) else None
  }

  /** One token; its end and whether it is an extruder reading. */
  function Token(s: string, i: nat): (r: Option<(nat, bool)>)
    requires i <= |s|
    ensures r.Some? ==> i < r.value.0 <= |s|
  {
    if Is(s, i, 'T', 't') then
      match ExtruderBody(s, i)
      case None => None
      case Some(j) => Tag(PairEnd(s, j), true)
    else if (Is(s, i, 'B', 'b') || Is(s, i, 'C', 'c')) && ColonAt(s, i + 1) then Tag(PairEnd(s, i + 2), false)
    else if i < |s| && s[i] == '@' && ColonAt(s, i + 1) then Tag(NumberEnd(s, i + 2), false)
    else if Is(s, i, 'B', 'b') && i + 1 < |s| && s[i + 1] == '@' && ColonAt(s, i + 2) then Tag(NumberEnd(s, i + 3), false)
    else None
  }

  function Tag(end: Option<nat>, extruder: bool): Option<(nat, bool)> {
    if end.None? then None else Some((end.value, extruder))
  }

  /** The main scan from `i`: skip blanks, take a token or skip a separator, stop at a foreign letter. */
  function Scan(s: string, i: nat, saw: bool): bool
    requires i <= |s|
    decreases |s| - i
  {
    var j := SkipWs(s, i);
    if j == |s| then saw
    else
      match Token(s, j)
      case Some((e, extruder)) => Scan(s, e, saw || extruder)
      case None => !IsAlpha(s[j]) && Scan(s, SepEnd(s, j), saw)
  }

  /** Past an optional leading "ok" and one blank after it. */
  function AfterOk(s: string): (i: nat)
    ensures i <= |s|
  {
    if |s| >= 2 && Is(s, 0, 'o', 'O') && Is(s, 1, 'k', 'K') then
      if 2 < |s| && IsSpace(s[2]) then 3 else 2
    else 0
  }

  function Contains(s: string, sub: string): bool {
    |sub| <= |s| && (s[..|sub|] == sub || (s != "" && Contains(s[1..], sub)))
  }

  /** The fast reject looks for one of these. */
  predicate Plausible(s: string) {
    Contains(s, "T:") || Contains(s, "T0:") || Contains(s, "B:") || Contains(s, "@:") || Contains(s, "B@:")
  }

  predicate IsReport(buf: string) {
    var s := Trim(buf, true);
    s != "" && Plausible(s) && Scan(s, AfterOk(s), false)
  }

  // ---- the cursor loops ----

  /** A run of digits; `end` is the first position that is not one. */
  method DigitLoop(s: string, from: nat, had: bool) returns (end: nat, hadDigit: bool)
    requires from <= |s|
    ensures end == RunEnd(s, from)
    ensures hadDigit <==> had || end > from
  {
    end, hadDigit := from, had;
    while end < |s| && IsDigit(s[end])
      invariant from <= end <= |s| && RunEnd(s, from) == RunEnd(s, end) && (hadDigit <==> had || end > from)
    {
      end, hadDigit := end + 1, true;
    }
  }

  method ParseNumber(s: string, from: nat) returns (ok: bool, end: nat)
    requires from <= |s|
    ensures end <= |s|
    ensures ok <==> NumberEnd(s, from).Some?
    ensures ok ==> NumberEnd(s, from) == Some(end)
    ensures !ok ==> end == from
  {
    hide RunEnd;
    var i := from;
    if i < |s| && (s[i] == '-' || s[i] == '+') {
      i := i + 1;
    }
    var hadDigit;
    i, hadDigit := DigitLoop(s, i, false);
    if i < |s| && s[i] == '.' {
      i, hadDigit := DigitLoop(s, i + 1, hadDigit);
    }
    if !hadDigit || i == from {
      return false, from;
    }
    return true, i;
  }

  method ParseTempPair(s: string, from: nat) returns (ok: bool, end: nat)
    requires from <= |s|
    ensures end <= |s|
    ensures ok <==> PairEnd(s, from).Some?
    ensures ok ==> PairEnd(s, from) == Some(end)
  {
    ok, end := ParseNumber(s, from);
    if ok && end < |s| && s[end] == '/' {
      var save := end + 1;
      var second;
      second, end := ParseNumber(s, save);
    }
  }

  method ParseToken(s: string, from: nat, sawBefore: bool) returns (ok: bool, end: nat, saw: bool)
    requires from <= |s|
    ensures end <= |s|
    ensures ok <==> Token(s, from).Some?
    ensures ok ==> Token(s, from).value.0 == end && saw == (sawBefore || Token(s, from).value.1)
    ensures !ok ==> end == from && saw == sawBefore
  {
    hide NumberEnd, PairEnd;
    ok, end, saw := false, from, sawBefore;
    if Is(s, from, 'T', 't') {
      ok, end := ParseExtruder(s, from);
      saw := sawBefore || ok;
      return;
    }
    var e;
    if (Is(s, from, 'B', 'b') || Is(s, from, 'C', 'c')) && from + 1 < |s| && s[from + 1] == ':' {
      ok, e := ParseTempPair(s, from + 2);
    } else if from < |s| && s[from] == '@' && from + 1 < |s| && s[from + 1] == ':' {
      ok, e := ParseNumber(s, from + 2);
    } else if Is(s, from, 'B', 'b') && from + 2 < |s| && s[from + 1] == '@' && s[from + 2] == ':' {
      ok, e := ParseNumber(s, from + 3);
    }
    if ok {
      end := e;
    }
  }

  method ParseExtruder(s: string, from: nat) returns (ok: bool, end: nat)
    requires Is(s, from, 'T', 't')
    ensures end <= |s|
    ensures ok <==> Token(s, from).Some?
    ensures ok ==> Token(s, from) == Some((end, true))
    ensures !ok ==> end == from
  {
    hide NumberEnd, PairEnd;
    var i := from + 1;
    if i < |s| && IsDigit(s[i]) {
      i := i + 1;
    }
    if i >= |s| || s[i] != ':' {
      return false, from;
    }
    ok, end := ParseTempPair(s, i + 1);
    if !ok {
      end := from;
    }
  }

  method Occurs(s: string, sub: string) returns (found: bool)
    requires sub != ""
    ensures found == Contains(s, sub)
  {
    if |sub| > |s| {
      return false;
    }
    var i := 0;
    assert s[0..] == s;
    while i + |sub| <= |s|
      invariant i <= |s|
      invariant Contains(s, sub) == Contains(s[i..], sub)
    {
      assert s[i..][..|sub|] == s[i..i + |sub|];
      if s[i..i + |sub|] == sub {
        return true;
      }
      assert s[i..][1..] == s[i + 1..];
      i := i + 1;
    }
    return false;
  }

  /** The recogniser. Its cursor advances on every turn, so the "stuck" exit is never taken. */
  method RecogniseBuf(buf: string) returns (report: bool)
    ensures report == IsReport(buf)
  {
    var off, len := TrimLoop(buf);
    if len == 0 {
      return false;
    }
    var s := buf[off..off + len];
    var t := Occurs(s, "T:");
    var t0 := Occurs(s, "T0:");
    var b := Occurs(s, "B:");
    var at := Occurs(s, "@:");
    var bat := Occurs(s, "B@:");
    if !t && !t0 && !b && !at && !bat {
      return false;
    }
    var i := 0;
    if |s| >= 2 && (s[0] == 'o' || s[0] == 'O') && (s[1] == 'k' || s[1] == 'K') {
      i := 2;
      if i < |s| && IsSpace(s[i]) {
        i := i + 1;
      }
    }
    report := ScanLoop(s, i);
  }

  method ScanLoop(s: string, from: nat) returns (report: bool)
    requires from <= |s|
    ensures report == Scan(s, from, false)
  {
    var i, saw := from, false;
    while true
      invariant i <= |s|
      invariant Scan(s, from, false) == Scan(s, i, saw)
      decreases |s| - i
    {
      var before := SkipWs(s, i);
      if before >= |s| {
        break;
      }
      var ok, end, now := ParseToken(s, before, saw);
      if ok {
        i, saw := end, now;
      } else {
        if IsAlpha(s[before]) {
          return false;
        }
        var tmp := before;
        while tmp < |s| && !IsSpace(s[tmp]) && !IsAlpha(s[tmp])
          invariant before <= tmp <= |s| && SepEnd(s, before) == SepEnd(s, tmp)
          invariant tmp == before ==> !IsSpace(s[tmp]) && !IsAlpha(s[tmp])
        {
          tmp := tmp + 1;
        }
        if tmp == before {
          assert false;
        }
        i := tmp;
      }
    }
    return saw;
  }
}

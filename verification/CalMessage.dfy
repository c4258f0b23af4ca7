/**
 The calibration step text "Make Pono X/N: now | next" that Klipper macros announce through
 display_status.message, its parser, and the progress bar drawn from the count.
 */
module CalMessage {
  import opened Text

  const INT_MAX: int := 0x7fff_ffff

  datatype Step = Step(now: string, next: string, done: int, total: int)

  /** std::stoi on a run of digits: `None` stands for the out_of_range exception. */
  function Stoi(digits: string): (r: Option<int>)
    requires AllDigits(digits)
    ensures r.Some? <==> Val(digits) <= INT_MAX
    ensures r.Some? ==> r.value == Val(digits)
  {
    if Val(digits) <= INT_MAX then Some(Val(digits)) else None
  }

  /** Where the run of digits that ends at `i` begins. */
  function RunStart(m: string, i: nat): (a: nat)
    requires i <= |m|
    ensures a <= i && forall k :: a <= k < i ==> IsDigit(m[k])
  {
    if i == 0 || !IsDigit(m[i - 1]) then i else RunStart(m, i - 1)
  }

  /** The count from the digits on the two sides of the slash. */
  function Pair(x: string, n: string): (int, int)
    requires AllDigits(x) && AllDigits(n)
  {
    if x == "" || n == "" || Stoi(x).None? then (0, 0)
    else (Stoi(x).value, if Stoi(n).None? then 0 else Stoi(n).value)
  }

  /** The X/N count around the first slash. A second number out of range keeps the first. */
  function Count(m: string): (int, int) {
    var slash := Find(m, {'/'}, 0);
    if slash == |m| || slash == 0 then (0, 0)
    else Pair(m[RunStart(m, slash)..slash], m[slash + 1..RunEnd(m, slash + 1)])
  }

  /** The narration after the first colon, split at the first bar. */
  function Narration(m: string): (string, string) {
    var colon := Find(m, {':'}, 0);
    if colon == |m| then ("", "")
    else
      var body := m[colon + 1..];
      var bar := Find(body, {'|'}, 0);
      if bar == |body| then (Trim(body, false), "")
      else (Trim(body[..bar], false), Trim(body[bar + 1..], false))
  }

  function Parse(m: string): Step {
    var (x, n) := Count(m);
    var (now, next) := Narration(m);
    Step(now, next, x, n)
  }

  /** The cursors that walk away from the slash over the digits on its two sides. */
  method CountBounds(m: string, slash: nat) returns (a: nat, e: nat)
    requires slash < |m|
    ensures a == RunStart(m, slash) && e == RunEnd(m, slash + 1)
  {
    a := slash;
    while a > 0 && IsDigit(m[a - 1])
      invariant a <= slash
      invariant RunStart(m, slash) == RunStart(m, a)
    {
      a := a - 1;
    }
    e := slash + 1;
    while e < |m| && IsDigit(m[e])
      invariant slash < e <= |m|
      invariant RunEnd(m, slash + 1) == RunEnd(m, e)
    {
      e := e + 1;
    }
  }

  /** Two conversions in one try block: the first sticks when the second throws. */
  method ConvertCount(x: string, n: string) returns (done: int, total: int)
    requires AllDigits(x) && AllDigits(n)
    ensures (done, total) == Pair(x, n)
  {
    done, total := 0, 0;
    if x != "" && n != "" {
      var first := Stoi(x);
      if first.Some? {
        done := first.value;
        var second := Stoi(n);
        if second.Some? {
          total := second.value;
        }
      }
    }
  }

  method ParseCount(m: string) returns (done: int, total: int)
    ensures (done, total) == Count(m)
  {
    done, total := 0, 0;
    var slash := Find(m, {'/'}, 0);
    if slash < |m| && slash > 0 {
      var a, e := CountBounds(m, slash);
      done, total := ConvertCount(m[a..slash], m[slash + 1..e]);
    }
  }

  /** The whole parser: the count first, then the narration. */
  method ParseCalMsg(m: string) returns (r: Step)
    ensures r == Parse(m)
  {
    hide Count, Find, Trim;
    var done, total := ParseCount(m);
    var now, next := "", "";
    var colon := Find(m, {':'}, 0);
    if colon < |m| {
      var body := m[colon + 1..];
      var bar := Find(body, {'|'}, 0);
      if bar < |body| {
        now, next := Trim(body[..bar], false), Trim(body[bar + 1..], false);
      } else {
        now := Trim(body, false);
      }
    }
    r := Step(now, next, done, total);
  }

  // ---- round trip ----

  /** A campaign name that cannot be confused with the count or the narration. */
  ghost predicate GoodPrefix(p: string) {
    Avoids(p, {'/', ':'}) && p != "" && !IsDigit(p[|p| - 1])
  }

  function Head(prefix: string, x: nat, n: nat): string {
    prefix + Dec(x) + "/" + Dec(n)
  }

  function Tail(now: string, next: string): string {
    " " + now + " | " + next
  }

  /** "prefix X/N: now | next" */
  function Print(prefix: string, s: Step): string
    requires s.done >= 0 && s.total >= 0
  {
    Head(prefix, s.done, s.total) + ":" + Tail(s.now, s.next)
  }

  ghost predicate Printable(s: Step) {
    && 0 <= s.done <= INT_MAX && 0 <= s.total <= INT_MAX
    && Tight(s.now, false) && Tight(s.next, false)
    && Avoids(s.now, {'|'})
  }

  lemma {:induction false} RunStartIs(m: string, a: nat, i: nat)
    requires a <= i <= |m| && forall k :: a <= k < i ==> IsDigit(m[k])
    requires a == 0 || !IsDigit(m[a - 1])
    ensures RunStart(m, i) == a
  {
    if a < i {
      RunStartIs(m, a, i - 1);
    }
  }

  lemma DigitsAvoid(d: string, cs: set<char>)
    requires AllDigits(d) && forall c :: c in cs ==> !IsDigit(c)
    ensures Avoids(d, cs)
  {
  }

  /** A number out of int range drops the count, or keeps only its first half. */
  function InRange(x: nat, n: nat): (int, int) {
    if x > 2147483647 then (0, 0) else if n > 2147483647 then (x, 0) else (x, n)
  }

  lemma PairDec(x: nat, n: nat)
    ensures Pair(Dec(x), Dec(n)) == InRange(x, n)
  {
    ValDec(x);
    ValDec(n);
  }

  /** The count of a text laid out as prefix, digits, slash, digits, other character. */
  lemma CountLaidOut(m: string, a: nat, slash: nat, e: nat)
    requires 0 < a < slash < e < |m|
    requires m[slash] == '/' && Avoids(m[..slash], {'/'})
    requires AllDigits(m[a..slash]) && AllDigits(m[slash + 1..e])
    requires !IsDigit(m[a - 1]) && !IsDigit(m[e])
    ensures Count(m) == Pair(m[a..slash], m[slash + 1..e])
  {
    assert forall k :: a <= k < slash ==> m[k] == m[a..slash][k - a];
    assert forall k :: slash < k < e ==> m[k] == m[slash + 1..e][k - slash - 1];
    assert forall k :: 0 <= k < slash ==> m[k] == m[..slash][k];
    RunStartIs(m, a, slash);
    RunEndIs(m, slash + 1, e);
    assert Find(m, {'/'}, 0) == slash;
  }

  lemma PrintedCount(prefix: string, x: nat, n: nat, tail: string)
    requires GoodPrefix(prefix)
    ensures Count(Head(prefix, x, n) + ":" + tail) == InRange(x, n)
  {
    var m := Head(prefix, x, n) + ":" + tail;
    var a, slash := |prefix|, |prefix + Dec(x)|;
    var e := slash + 1 + |Dec(n)|;
    DigitsAvoid(Dec(x), {'/'});
    assert m[..slash] == prefix + Dec(x);
    assert m[a..slash] == Dec(x) && m[slash + 1..e] == Dec(n) && m[e] == ':';
    CountLaidOut(m, a, slash, e);
    PairDec(x, n);
  }

  lemma PrintedNarration(front: string, now: string, next: string)
    requires Avoids(front, {':'}) && Avoids(now, {'|'})
    requires Tight(now, false) && Tight(next, false)
    ensures Narration(front + ":" + Tail(now, next)) == (now, next)
  {
    var m := front + ":" + Tail(now, next);
    var left, right := " " + now + " ", " " + next;
    var body := Tail(now, next);
    assert body == left + ['|'] + right;
    assert m == front + [':'] + body;
    FindAfter(front, ':', body, {':'});
    assert m[|front| + 1..] == body;
    FindAfter(left, '|', right, {'|'});
    assert body[..|left|] == left && body[|left| + 1..] == right;
    TrimPadded(" ", now, " ", false);
    assert right == " " + next + "";
    TrimPadded(" ", next, "", false);
  }

  /** Without a bar the whole rest is the running step. */
  lemma ShortNarration(front: string, now: string)
    requires Avoids(front, {':'}) && Avoids(now, {'|'}) && Tight(now, false)
    ensures Narration(front + ":" + (" " + now)) == (now, "")
  {
    var body := " " + now;
    var m := front + ":" + body;
    assert m == front + [':'] + body;
    FindAfter(front, ':', body, {':'});
    assert m[|front| + 1..] == body;
    FindNone(body, {'|'});
    assert body == " " + now + "";
    TrimPadded(" ", now, "", false);
  }

  lemma HeadAvoidsColon(prefix: string, x: nat, n: nat)
    requires GoodPrefix(prefix)
    ensures Avoids(Head(prefix, x, n), {':'})
  {
    DigitsAvoid(Dec(x), {':'});
    DigitsAvoid(Dec(n), {':'});
  }

  /** Parsing a printed step gives back its count, its running step and its next step. */
  lemma RoundTrip(prefix: string, s: Step)
    requires GoodPrefix(prefix) && Printable(s)
    ensures Parse(Print(prefix, s)) == s
  {
    PrintedCount(prefix, s.done, s.total, Tail(s.now, s.next));
    HeadAvoidsColon(prefix, s.done, s.total);
    PrintedNarration(Head(prefix, s.done, s.total), s.now, s.next);
  }

  /** The form without a next step, for counts of any size. */
  lemma ShortRoundTrip(prefix: string, x: nat, n: nat, now: string)
    requires GoodPrefix(prefix) && Avoids(now, {'|'}) && Tight(now, false)
    ensures Parse(Head(prefix, x, n) + ":" + (" " + now)) == Step(now, "", InRange(x, n).0, InRange(x, n).1)
  {
    PrintedCount(prefix, x, n, " " + now);
    HeadAvoidsColon(prefix, x, n);
    ShortNarration(Head(prefix, x, n), now);
  }

  /** A text without a slash has no count, and one without a colon no steps. */
  lemma BareTexts(m: string)
    ensures Avoids(m, {'/'}) ==> Parse(m).done == 0 && Parse(m).total == 0
    ensures Avoids(m, {':'}) ==> Parse(m).now == "" && Parse(m).next == ""
  {
    if Avoids(m, {'/'}) {
      FindNone(m, {'/'});
    }
    if Avoids(m, {':'}) {
      FindNone(m, {':'});
    }
  }

  /** Both announced campaign names are good prefixes. */
  lemma CampaignNames()
    ensures GoodPrefix("Make Pono ") && GoodPrefix("Full Cal ")
  {
  }

  // ---- the progress bar ----

  /** The bar's width in pixels; `Overflow` where `480 * done` leaves a C int (undefined in C). */
  datatype Bar = NoBar | Width(px: int) | Overflow

  function Clamp(done: int, total: int): (d: int)
    requires total > 0
    ensures 0 <= d <= total
    ensures 0 <= done <= total ==> d == done
  {
    if done < 0 then 0 else if done > total then total else done
  }

  function DrawBar(done: int, total: int): Bar {
    if total <= 0 then NoBar
    else
      var d := Clamp(done, total);
      if 480 * d > INT_MAX then Overflow else Width(480 * d / total)
  }

  lemma MulOrder(q: int, k: int, t: int)
    requires t > 0
    ensures q > k ==> q * t >= (k + 1) * t
    ensures q < k ==> (q + 1) * t <= k * t
  {
  }

  lemma DivWithin(d: int, t: int)
    requires 0 <= d <= t && t > 0
    ensures 0 <= 480 * d / t <= 480
    ensures d == t ==> 480 * d / t == 480
  {
    var q := 480 * d / t;
    assert q * t <= 480 * d < (q + 1) * t;
    MulOrder(q, 480, t);
    MulOrder(q, 0, t);
  }

  /** With a count, a width is drawn exactly up to 4473924 completed steps, and lies in 0..480. */
  lemma BarWithinPanel(done: int, total: int)
    requires 0 < total <= INT_MAX
    ensures DrawBar(done, total).Width? <==> Clamp(done, total) <= 4473924
    ensures DrawBar(done, total).Width? ==> 0 <= DrawBar(done, total).px <= 480
    ensures DrawBar(done, total).Width? && done >= total ==> DrawBar(done, total).px == 480
  {
    DivWithin(Clamp(done, total), total);
  }

  /** The width is the completed share of 480 pixels, cut to a whole pixel. */
  lemma BarIsProportional(done: int, total: int)
    requires 0 <= done <= total && 0 < total <= INT_MAX && DrawBar(done, total).Width?
    ensures var px := DrawBar(done, total).px; px * total <= 480 * done < (px + 1) * total
  {
  }

  lemma DivMonotone(a: int, b: int, t: int)
    requires 0 <= a <= b && t > 0
    ensures a / t <= b / t
  {
    var p, q := a / t, b / t;
    assert p * t <= a && b < (q + 1) * t;
    MulOrder(q, p, t);
  }

  /** The bar never shrinks while the campaign advances. */
  lemma BarGrows(x: int, y: int, total: int)
    requires 0 < total <= INT_MAX && x <= y
    requires DrawBar(y, total).Width?
    ensures DrawBar(x, total).Width?
    ensures DrawBar(x, total).px <= DrawBar(y, total).px
  {
    DivMonotone(480 * Clamp(x, total), 480 * Clamp(y, total), total);
  }

  /** A campaign long enough to overflow the width computation. */
  lemma BarCanOverflow()
    ensures DrawBar(4473925, INT_MAX) == Overflow
  {
  }
}

/** The console text area: append a message, keep the last hundred lines. */
module Console {
  import opened Text
  import opened TempFilter
  import TempReports

  const MAX_LINES: nat := 100

  /** How many newlines `s` holds. */
  function Newlines(s: string): nat {
    if s == "" then 0 else (if s[0] == '\n' then 1 else 0) + Newlines(s[1..])
  }

  /** `s` without its first `n` newline-terminated lines. */
  function DropLines(s: string, n: nat): string {
    if n == 0 || s == "" then s else DropLines(s[1..], if s[0] == '\n' then n - 1 else n)
  }

  /** Lines of a text; an unterminated rest counts as one. */
  function Lines(s: string): nat {
    Newlines(s) + if s != "" && s[|s| - 1] != '\n' then 1 else 0
  }

  /** The last hundred lines of a text. */
  function LastLines(s: string): string {
    if Lines(s) <= MAX_LINES then s else DropLines(s, Lines(s) - MAX_LINES)
  }

  lemma {:induction false} NewlinesConcat(a: string, b: string)
    ensures Newlines(a + b) == Newlines(a) + Newlines(b)
  {
    if a == "" {
      assert a + b == b;
    } else {
      assert (a + b)[1..] == a[1..] + b;
      NewlinesConcat(a[1..], b);
    }
  }

  lemma {:induction false} DropConcat(a: string, b: string, n: nat)
    requires n <= Newlines(a)
    ensures DropLines(a + b, n) == DropLines(a, n) + b
  {
    if n != 0 {
      assert (a + b)[1..] == a[1..] + b;
      DropConcat(a[1..], b, if a[0] == '\n' then n - 1 else n);
    }
  }

  lemma {:induction false} DropTwice(s: string, m: nat, n: nat)
    ensures DropLines(DropLines(s, m), n) == DropLines(s, m + n)
  {
    if m != 0 && s != "" {
      DropTwice(s[1..], if s[0] == '\n' then m - 1 else m, n);
    }
  }

  lemma {:induction false} DropCounts(s: string, n: nat)
    requires n <= Newlines(s)
    ensures Newlines(DropLines(s, n)) == Newlines(s) - n
  {
    if n != 0 {
      DropCounts(s[1..], if s[0] == '\n' then n - 1 else n);
    }
  }

  /** Dropping lines cuts right after a newline, or nowhere. */
  lemma {:induction false} DropSuffix(s: string, n: nat)
    requires n <= Newlines(s)
    ensures exists k :: 0 <= k <= |s| && DropLines(s, n) == s[k..] && (if n == 0 then k == 0 else k > 0 && s[k - 1] == '\n')
  {
    if n == 0 {
      assert DropLines(s, n) == s[0..];
    } else {
      var m := if s[0] == '\n' then n - 1 else n;
      DropSuffix(s[1..], m);
      var k :| 0 <= k <= |s[1..]| && DropLines(s[1..], m) == s[1..][k..]
               && (if m == 0 then k == 0 else k > 0 && s[1..][k - 1] == '\n');
      assert s[1..][k..] == s[k + 1..];
      assert DropLines(s, n) == s[k + 1..] && s[k] == '\n';
    }
  }

  lemma DropKeepsLines(s: string, n: nat)
    requires n < Lines(s)
    ensures n <= Newlines(s) && Lines(DropLines(s, n)) == Lines(s) - n
  {
    DropSuffix(s, n);
    DropCounts(s, n);
    var k :| 0 <= k <= |s| && DropLines(s, n) == s[k..] && (k == 0 || s[k - 1] == '\n');
    assert k < |s| ==> s[k..][|s[k..]| - 1] == s[|s| - 1];
  }

  /** The console keeps whole lines from the end of the text: all of them or exactly a hundred. */
  lemma LastLinesSuffix(h: string)
    ensures exists k :: 0 <= k <= |h| && LastLines(h) == h[k..] && (k == 0 || h[k - 1] == '\n')
    ensures Lines(LastLines(h)) == if Lines(h) <= 100 then Lines(h) else 100
  {
    if Lines(h) > MAX_LINES {
      DropSuffix(h, Lines(h) - MAX_LINES);
      DropKeepsLines(h, Lines(h) - MAX_LINES);
    } else {
      assert h == h[0..];
    }
  }

  lemma LinesGrow(h: string, m: string)
    ensures Lines(h + m) >= Lines(h)
  {
    NewlinesConcat(h, m);
    if m == "" {
      assert h + m == h;
    } else if m[|m| - 1] == '\n' {
      assert m == m[..|m| - 1] + "\n";
      NewlinesConcat(m[..|m| - 1], "\n");
    }
  }

  /** Trimming early loses nothing: only the last hundred lines of the whole matter. */
  lemma LastLinesAppend(h: string, m: string)
    ensures LastLines(LastLines(h) + m) == LastLines(h + m)
  {
    if Lines(h) > MAX_LINES {
      var d := Lines(h) - MAX_LINES;
      LinesGrow(h, m);
      DropKeepsLines(h, d);
      DropConcat(h, m, d);
      DropKeepsLines(h + m, d);
      DropTwice(h + m, d, Lines(h + m) - MAX_LINES - d);
    }
  }

  /** A line counts once whether or not its newline has come. */
  lemma LineCounts(s: string, line: string)
    requires line != "" && Avoids(line, {'\n'}) && (s == "" || s[|s| - 1] == '\n')
    ensures Lines(s + line) == Lines(s) + 1 && Lines(s + line + "\n") == Lines(s) + 1
  {
    NewlinesConcat(s, line);
    NewlinesConcat(s + line, "\n");
    NoNewlines(line);
    assert (s + line)[|s + line| - 1] == line[|line| - 1];
  }

  lemma {:induction false} NoNewlines(line: string)
    requires Avoids(line, {'\n'})
    ensures Newlines(line) == 0
  {
    if line != "" {
      NoNewlines(line[1..]);
    }
  }

  // ---- what is shown ----

  /** A response is appended with two newlines unless it is a temperature report. */
  lemma ResponseShown(h: string, text: string)
    requires Avoids(text, {'\0'})
    ensures Receive(h, None) == h
    ensures Receive(h, Some(text)) == if IsReport(text) then h else h + text + "\n\n"
  {
    hide IsReport, Trim, Find;
    var line := text + "\n";
    FindNone(line, {'\0'});
    FindNone(line + "\n", {'\0'});
    TrimBack(text, "\n", true);
    SameTrimSameReport(line, text);
    assert line[..|line|] == line && (line + "\n")[..|line| + 1] == line + "\n";
    assert h + (text + "\n" + "\n") == h + text + "\n\n";
  }

  lemma SameTrimSameReport(a: string, b: string)
    requires Trim(a, true) == Trim(b, true)
    ensures IsReport(a) <==> IsReport(b)
  {
    hide Plausible, Scan, Trim;
  }

  /** A response with a letter other than T, B or C outside a leading "ok" always appears. */
  lemma ForeignResponseShown(h: string, text: string, k: nat)
    requires Avoids(text, {'\0'}) && k < |Trim(text, true)| && TempReports.PastOk(Trim(text, true), k)
    requires IsAlpha(Trim(text, true)[k]) && Trim(text, true)[k] !in {'T', 't', 'B', 'b', 'C', 'c'}
    ensures Receive(h, Some(text)) == h + text + "\n\n"
  {
    hide Receive, IsReport, Trim;
    ResponseShown(h, text);
    TempReports.ForeignLetterKept(text, k);
  }

  /** A printed report appears exactly when it lacks an extruder reading or a label the fast reject knows. */
  lemma PrintedReportShownIff(h: string, lead: string, ok: string, ps: seq<TempReports.Piece>, trail: string)
    requires AllBlank(lead, true) && AllBlank(trail, true)
    requires ok in {"", "ok", "OK", "Ok", "oK"} && forall p <- ps :: TempReports.PieceOk(p)
    requires Tight(ok + TempReports.Render(ps), true) && Avoids(lead + (ok + TempReports.Render(ps)) + trail, {'\0'})
    ensures var text := lead + (ok + TempReports.Render(ps)) + trail;
            Receive(h, Some(text)) == (if (exists p <- ps :: p.Extruder?) && (exists p <- ps :: TempReports.Known(p)) then h
                                       else h + text + "\n\n")
  {
    hide Receive, IsReport, TempReports.Render, TempReports.Known, TempReports.PieceOk, AllBlank, Tight, Avoids;
    ResponseShown(h, lead + (ok + TempReports.Render(ps)) + trail);
    TempReports.PrintedReportIff(lead, ok, ps, trail);
  }

  /** Responses arrive in order: later ones follow earlier ones. */
  lemma {:induction false} ReceiveInOrder(h: string, a: seq<Option<string>>, b: seq<Option<string>>)
    ensures ReceiveAll(h, a + b) == ReceiveAll(ReceiveAll(h, a), b)
    decreases |b|
  {
    hide Receive;
    if b == [] {
      assert a + b == a;
    } else {
      assert (a + b)[..|a + b| - 1] == a + b[..|b| - 1];
      ReceiveInOrder(h, a, b[..|b| - 1]);
    }
  }

  /** A clear forgets everything before it, and nothing after it. */
  lemma {:induction false} ClearForgets(before: seq<Event>, after: seq<Event>)
    ensures History(before + [Delete] + after) == History(after)
    decreases |after|
  {
    hide ReceiveAll;
    var es := before + [Delete] + after;
    if after == [] {
      assert es == before + [Delete];
    } else {
      assert es[..|es| - 1] == before + [Delete] + after[..|after| - 1];
      ClearForgets(before, after[..|after| - 1]);
    }
  }

  // ---- the panel ----

  /** One parameter of a G-code response; None when it is not a string. */
  function Receive(h: string, param: Option<string>): string {
    if param.None? || IsReport(CStr(param.value + "\n")) then h
    else h + CStr(param.value + "\n" + "\n")
  }

  function ReceiveAll(h: string, params: seq<Option<string>>): string {
    if params == [] then h else Receive(ReceiveAll(h, params[..|params| - 1]), params[|params| - 1])
  }

  datatype Event = Response(params: seq<Option<string>>) | Delete

  /** Everything shown since the last clear, never trimmed. */
  function History(events: seq<Event>): string {
    if events == [] then ""
    else
      var h := History(events[..|events| - 1]);
      match events[|events| - 1]
      case Response(params) => ReceiveAll(h, params)
      case Delete => ""
  }

  class ConsolePanel {
    var output: string

    constructor ()
      ensures output == ""
    {
      output := "";
    }

    /** Appends a line and a newline, counts, and drops lines from the front. */
    method AddTextLimitLines(line: string)
      modifies this
      ensures output == LastLines(old(output) + CStr(line + "\n"))
    {
      hide Find;
      output := output + CStr(line + "\n");
      var full := output;
      var lines, p := 0, 0;
      assert full[0..] == full;
      while p < |full|
        invariant p <= |full| && output == full
        invariant lines + Newlines(full[p..]) == Newlines(full)
      {
        assert full[p..][1..] == full[p + 1..];
        if full[p] == '\n' {
          lines := lines + 1;
        }
        p := p + 1;
      }
      if p != 0 && full[p - 1] != '\n' {
        lines := lines + 1;
      }
      assert lines == Lines(full);
      if lines > MAX_LINES {
        var keep := SkipLines(full, lines - MAX_LINES);
        output := full[keep..];
      }
    }

    method HandleMacroResponse(params: seq<Option<string>>)
      modifies this
      ensures forall h :: old(output) == LastLines(h) ==> output == LastLines(ReceiveAll(h, params))
    {
      hide IsReport, LastLines, CStr;
      var i := 0;
      while i < |params|
        invariant i <= |params|
        invariant forall h :: old(output) == LastLines(h) ==> output == LastLines(ReceiveAll(h, params[..i]))
      {
        ghost var was := output;
        assert params[..i + 1][..i] == params[..i];
        if params[i].Some? {
          var v := params[i].value + "\n";
          var report := RecogniseBuf(CStr(v));
          if !report {
            AddTextLimitLines(v);
            forall h | old(output) == LastLines(h)
              ensures output == LastLines(ReceiveAll(h, params[..i + 1]))
            {
              LastLinesAppend(ReceiveAll(h, params[..i]), CStr(v + "\n"));
            }
          }
        }
        i := i + 1;
      }
      assert params[..i] == params;
    }

    method HandleDelete()
      modifies this
      ensures output == ""
    {
      output := "";
    }
  }

  /** The first position after `n` newlines, by the skipping loop. */
  method SkipLines(full: string, n: nat) returns (keep: nat)
    ensures keep <= |full| && full[keep..] == DropLines(full, n)
  {
    var drop := n;
    keep := 0;
    assert full[0..] == full;
    while drop > 0 && keep < |full|
      invariant keep <= |full| && drop >= 0
      invariant DropLines(full, n) == DropLines(full[keep..], drop)
    {
      assert full[keep..][1..] == full[keep + 1..];
      if full[keep] == '\n' {
        drop := drop - 1;
      }
      keep := keep + 1;
    }
  }

  /** After any run the text area holds the last hundred lines of what arrived since the last clear. */
  method Drive(events: seq<Event>) returns (shown: string)
    ensures shown == LastLines(History(events))
  {
    hide LastLines, ReceiveAll;
    var panel := new ConsolePanel();
    var i := 0;
    LastLinesOfNothing();
    while i < |events|
      invariant i <= |events|
      invariant fresh(panel)
      invariant panel.output == LastLines(History(events[..i]))
    {
      assert events[..i + 1][..i] == events[..i];
      match events[i] {
        case Response(params) =>
          panel.HandleMacroResponse(params);
        case Delete =>
          panel.HandleDelete();
          LastLinesOfNothing();
      }
      i := i + 1;
    }
    assert events[..i] == events;
    shown := panel.output;
  }

  lemma LastLinesOfNothing()
    ensures LastLines("") == ""
  {
  }
}

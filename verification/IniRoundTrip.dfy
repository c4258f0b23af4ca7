/**
 Printing a configuration and loading it back: which values survive, and that blank lines,
 comments, indentation and carriage returns never matter.
 */
module IniRoundTrip {
  import opened Text
  import opened IniConfig
  import opened IniValues
  import opened IniMeaning

  const MARKS: set<char> := {'#', ';', '\n'}

  /** How entries are laid out: separator, the blanks around it, and the quote character. */
  datatype Style = Style(sep: char, left: string, right: string, quote: char)

  ghost predicate StyleOk(st: Style) {
    && st.sep in {'=', ':'} && st.quote in {'"', '\''}
    && AllBlank(st.left, true) && AllBlank(st.right, true)
    && Avoids(st.left, {'\n'}) && Avoids(st.right, {'\n'})
  }

  function InQuotes(s: string, quote: char): string {
    [quote] + s + [quote]
  }

  function ShowValue(v: Value, quote: char): string {
    match v
    case Bool(b) => if b then "true" else "false"
    case Int(n) => DecInt(n)
    case Str(s) => InQuotes(s, quote)
  }

  /** What an entry's text after the separator is loaded as. */
  function ReadValue(text: string): Value {
    Typed(Unquote(Trim(text, true)))
  }

  /** Integers other than 0 and 1 in 64-bit range; strings that read neither as bool nor integer. */
  ghost predicate Survives(v: Value) {
    match v
    case Bool(_) => true
    case Int(n) => -9223372036854775808 <= n <= 9223372036854775807 && n != 0 && n != 1
    case Str(s) => !BoolWord(s, true) && !BoolWord(s, false) && forall n :: !WholeInteger(s, n)
  }

  // ---- values ----

  lemma UnquoteQuoted(s: string, quote: char)
    requires quote in {'"', '\''}
    ensures Unquote(InQuotes(s, quote)) == s && Tight(InQuotes(s, quote), true)
  {
    var q := InQuotes(s, quote);
    assert q[0] == quote && q[|q| - 1] == quote && q[1..|q| - 1] == s;
  }

  lemma DecIntShape(n: int)
    ensures var s := DecInt(n);
            && (forall i :: 0 <= i < |s| ==> IsDigit(s[i]) || (i == 0 && s[i] == '-'))
            && (s[0] == '-' <==> n < 0) && IsDigit(s[|s| - 1])
  {
  }

  lemma LowerKeeps(s: string)
    requires forall i :: 0 <= i < |s| ==> !IsAlpha(s[i])
    ensures Lower(s) == s
  {
  }

  lemma CStrWhole(s: string)
    requires Avoids(s, {'\0'})
    ensures CStr(s) == s
  {
    FindNone(s, {'\0'});
  }

  lemma ParseIntDec(n: int)
    ensures ParseInt(DecInt(n)) == if INT64_MIN <= n <= INT64_MAX then Some(n) else None
  {
    hide Dec, Val, CStr;
    var s := DecInt(n);
    DecIntShape(n);
    CStrWhole(s);
    assert DropSpaces(s) == s;
    var m := if n < 0 then -n else n;
    ValDec(m);
    assert n < 0 ==> s[1..] == Dec(m);
  }

  lemma ParseBoolDec(n: int)
    ensures ParseBool(DecInt(n)) == if n == 1 then Some(true) else if n == 0 then Some(false) else None
  {
    hide Val, Lower;
    var s := DecInt(n);
    DecIntShape(n);
    LowerKeeps(s);
    if n >= 10 {
      assert |s| > 1 && IsDigit(s[0]);
    }
    if n < 0 {
      assert s[0] == '-';
    }
  }

  /** Exactly which values load back from their printed text. */
  lemma ValueRoundTripIff(v: Value, quote: char)
    requires quote in {'"', '\''}
    ensures ReadValue(ShowValue(v, quote)) == v <==> Survives(v)
  {
    hide Trim, ParseInt, ParseBool, DecInt, Unquote, BoolWord, WholeInteger;
    var s := ShowValue(v, quote);
    match v
    case Bool(b) =>
      TrimTight(s, true);
      BoolReads(b);
    case Int(n) =>
      IntTight(n);
      TrimTight(s, true);
      ParseIntDec(n);
      ParseBoolDec(n);
    case Str(t) =>
      UnquoteQuoted(t, quote);
      TrimTight(s, true);
      TypedIff(t, v);
  }

  lemma BoolReads(b: bool)
    ensures var s := if b then "true" else "false"; Unquote(s) == s && ParseBool(s) == Some(b)
  {
    assert Lower("true") == "true" && Lower("false") == "false";
  }

  lemma IntTight(n: int)
    ensures Tight(DecInt(n), true) && Unquote(DecInt(n)) == DecInt(n)
  {
    DecIntShape(n);
  }

  // ---- lines ----

  function HeadLine(head: Head, quote: char): string {
    match head
    case InSection(name) => "[" + name + "]"
    case InGroup(name, id) => "[" + (name + " " + InQuotes(id, quote)) + "]"
  }

  function KeyPart(st: Style, key: string): string {
    if key == "" then "" else key + st.left
  }

  function EntryLine(st: Style, e: (string, Value)): string {
    KeyPart(st, e.0) + [st.sep] + (st.right + ShowValue(e.1, st.quote))
  }

  function EntryLines(st: Style, entries: seq<(string, Value)>): seq<string> {
    if entries == [] then [] else EntryLines(st, entries[..|entries| - 1]) + [EntryLine(st, entries[|entries| - 1])]
  }

  function PrintLines(st: Style, blocks: seq<Block>): seq<string> {
    if blocks == [] then []
    else
      var b := blocks[|blocks| - 1];
      PrintLines(st, blocks[..|blocks| - 1]) + ([HeadLine(b.head, st.quote)] + EntryLines(st, b.entries))
  }

  ghost predicate NameOk(name: string) {
    Tight(name, true) && Avoids(name, MARKS + {' ', '\t'})
  }

  ghost predicate HeadOk(head: Head) {
    && NameOk(head.name)
    && (head.InGroup? ==> head.name != "" && Avoids(head.id, MARKS))
  }

  ghost predicate KeyOk(key: string) {
    Tight(key, true) && Avoids(key, MARKS + {'=', ':'})
  }

  /** No comment mark and no newline in a string. */
  ghost predicate Clean(v: Value) {
    v.Str? ==> Avoids(v.text, MARKS)
  }

  ghost predicate EntryOk(e: (string, Value)) {
    KeyOk(e.0) && Survives(e.1) && Clean(e.1)
  }

  ghost predicate BlockOk(b: Block) {
    HeadOk(b.head) && forall e <- b.entries :: EntryOk(e)
  }

  /** A printed line: not empty, no outer blanks, no comment mark or newline. */
  ghost predicate LineOk(s: string) {
    s != "" && Tight(s, true) && Avoids(s, MARKS)
  }

  lemma IntText(n: int)
    ensures Avoids(DecInt(n), MARKS) && DecInt(n)[|DecInt(n)| - 1] != ']'
  {
    hide DecInt;
    DecIntShape(n);
    var s := DecInt(n);
    forall i | 0 <= i < |s|
      ensures s[i] !in MARKS
    {
      assert IsDigit(s[i]) || s[i] == '-';
    }
  }

  lemma QuotedText(s: string, quote: char)
    requires quote in {'"', '\''} && Avoids(s, MARKS)
    ensures var q := InQuotes(s, quote); Avoids(q, MARKS) && q[|q| - 1] != ']'
  {
    var q := InQuotes(s, quote);
    assert q[|q| - 1] == quote;
    forall i | 0 <= i < |q|
      ensures q[i] !in MARKS
    {
      assert 1 <= i < |q| - 1 ==> q[i] == s[i - 1];
    }
  }

  lemma ValueText(v: Value, quote: char)
    requires quote in {'"', '\''} && (v.Str? ==> Avoids(v.text, MARKS))
    ensures var s := ShowValue(v, quote);
            s != "" && Tight(s, true) && Avoids(s, MARKS) && s[|s| - 1] != ']'
  {
    hide DecInt, Unquote;
    match v
    case Bool(_) =>
    case Int(n) =>
      IntText(n);
      IntTight(n);
    case Str(s) =>
      QuotedText(s, quote);
      UnquoteQuoted(s, quote);
  }

  /** A printed line is its own core. */
  lemma CoreOfTight(s: string)
    requires LineOk(s)
    ensures Core(s) == s
  {
    hide Trim, Find;
    assert Avoids(s, {'#', ';'});
    FindNone(s, {'#', ';'});
    TrimTight(s, true);
    assert PopCr(s) == s && s[..|s|] == s;
  }

  /** The line of any entry without marks reads back its key, and its value as its text reads. */
  lemma EntryReadsText(st: Style, key: string, v: Value)
    requires StyleOk(st) && KeyOk(key) && Clean(v)
    ensures var s := EntryLine(st, (key, v));
            && LineOk(s) && ReadCore(s).Entry? && ReadCore(s).key == key
            && Typed(ReadCore(s).val) == ReadValue(ShowValue(v, st.quote))
  {
    hide Trim, Unquote, Typed, ShowValue, Find;
    var s, k, shown := EntryLine(st, (key, v)), KeyPart(st, key), ShowValue(v, st.quote);
    var tail := st.right + shown;
    ValueText(v, st.quote);
    assert s[|s| - 1] == shown[|shown| - 1];
    assert s[0] == if key == "" then st.sep else key[0];
    assert AllBlank(st.left, true) ==> Avoids(k, {'=', ':'});
    FindAfter(k, st.sep, tail, {'=', ':'});
    assert s[..|k|] == k && s[|k| + 1..] == tail;
    TrimKey(st, key);
    TrimTight(shown, true);
    TrimFront(st.right, shown, true);
    AvoidParts(st, key, shown);
  }

  lemma EntryReads(st: Style, e: (string, Value))
    requires StyleOk(st) && EntryOk(e)
    ensures var s := EntryLine(st, e);
            LineOk(s) && ReadCore(s).Entry? && ReadCore(s).key == e.0 && Typed(ReadCore(s).val) == e.1
  {
    hide ReadCore, EntryLine, ReadValue, ShowValue, Survives, LineOk, Typed;
    EntryReadsText(st, e.0, e.1);
    ValueRoundTripIff(e.1, st.quote);
  }

  lemma TrimKey(st: Style, key: string)
    requires StyleOk(st) && Tight(key, true)
    ensures Trim(KeyPart(st, key), true) == key
  {
    hide Trim;
    if key == "" {
      TrimTight("", true);
    } else {
      assert "" + key + st.left == key + st.left;
      TrimPadded("", key, st.left, true);
    }
  }

  lemma AvoidParts(st: Style, key: string, v: string)
    requires StyleOk(st) && KeyOk(key) && Avoids(v, MARKS)
    ensures Avoids(KeyPart(st, key) + [st.sep] + (st.right + v), MARKS)
  {
    assert forall i :: 0 <= i < |st.left| ==> Blank(st.left[i], true) && st.left[i] !in {'\n'};
    assert forall i :: 0 <= i < |st.right| ==> Blank(st.right[i], true) && st.right[i] !in {'\n'};
  }

  function HeadAsLine(head: Head): Line {
    match head
    case InSection(name) => Section(name)
    case InGroup(name, id) => Group(name, id)
  }

  lemma HeadReads(head: Head, quote: char)
    requires HeadOk(head) && quote in {'"', '\''}
    ensures var s := HeadLine(head, quote);
            && LineOk(s)
            && ReadCore(s) == HeadAsLine(head)
  {
    hide Trim, ReadHeader;
    var s := HeadLine(head, quote);
    var inside := if head.InSection? then head.name else head.name + " " + InQuotes(head.id, quote);
    assert s[1..|s| - 1] == inside;
    HeaderReads(head, quote);
    TrimTight(inside, true);
    assert Bracketed(s);
  }

  lemma HeaderReads(head: Head, quote: char)
    requires HeadOk(head) && quote in {'"', '\''}
    ensures var inside := if head.InSection? then head.name else head.name + " " + InQuotes(head.id, quote);
            && Tight(inside, true) && Avoids(inside, MARKS) && ReadHeader(inside) == HeadAsLine(head)
  {
    hide Trim, Unquote, Find;
    var name := head.name;
    assert Avoids(name, {' ', '\t'});
    match head
    case InSection(_) => FindNone(name, {' ', '\t'});
    case InGroup(_, id) =>
      var q := InQuotes(id, quote);
      UnquoteQuoted(id, quote);
      var inside := name + [' '] + q;
      assert inside[0] == name[0] && inside[|inside| - 1] == quote;
      FindAfter(name, ' ', q, {' ', '\t'});
      assert inside[..|name|] == name && inside[|name| + 1..] == q;
      TrimTight(q, true);
  }

  // ---- only the cores matter ----

  /** The non-empty cores of the lines, in order. */
  function Significant(lines: seq<string>): seq<string> {
    if lines == [] then []
    else
      var core := Core(lines[|lines| - 1]);
      Significant(lines[..|lines| - 1]) + if core == "" then [] else [core]
  }

  function Gather(cores: seq<string>): seq<Block> {
    if cores == [] then [] else Absorb(Gather(cores[..|cores| - 1]), ReadCore(cores[|cores| - 1]))
  }

  lemma GatherSnoc(cores: seq<string>, core: string)
    ensures Gather(cores + [core]) == Absorb(Gather(cores), ReadCore(core))
  {
    hide Absorb, ReadCore;
    assert (cores + [core])[..|cores|] == cores;
  }

  lemma {:induction false} CollectCores(lines: seq<string>)
    ensures Collect(lines) == Gather(Significant(lines))
  {
    hide Absorb, ReadCore, Core;
    if lines != [] {
      var init, core := lines[..|lines| - 1], Core(lines[|lines| - 1]);
      CollectCores(init);
      SkipsEmpty();
      SkipChanges(None, Collect(init));
      GatherSnoc(Significant(init), core);
      assert Significant(init) + [] == Significant(init);
    }
  }

  /** Files with the same significant text load alike, exceptions included. */
  lemma SameCoresLoadAlike(a: string, b: string)
    requires Significant(SplitLines(a)) == Significant(SplitLines(b))
    ensures Load(a) == Load(b)
  {
    hide Significant, SplitLines, LoadLines, Denote, Gather;
    LoaderIsBlockwise(SplitLines(a));
    LoaderIsBlockwise(SplitLines(b));
    CollectCores(SplitLines(a));
    CollectCores(SplitLines(b));
  }

  // ---- printed blocks are gathered back ----

  lemma {:induction false} GatherEntries(st: Style, cores: seq<string>, head: Head, entries: seq<(string, Value)>)
    requires StyleOk(st) && forall e <- entries :: EntryOk(e)
    requires ReadCore(HeadLine(head, st.quote)) == HeadAsLine(head)
    ensures Gather(cores + [HeadLine(head, st.quote)] + EntryLines(st, entries)) == Gather(cores) + [Block(head, entries)]
    decreases |entries|
  {
    hide ReadCore, HeadLine, EntryLine, EntryOk, StyleOk, Typed;
    var h := HeadLine(head, st.quote);
    if entries == [] {
      assert cores + [h] + [] == cores + [h];
      GatherSnoc(cores, h);
    } else {
      var init, e := entries[..|entries| - 1], entries[|entries| - 1];
      GatherEntries(st, cores, head, init);
      EntryReads(st, e);
      var before := cores + [h] + EntryLines(st, init);
      assert cores + [h] + EntryLines(st, entries) == before + [EntryLine(st, e)];
      GatherSnoc(before, EntryLine(st, e));
      assert init + [e] == entries;
    }
  }

  lemma {:induction false} GatherPrinted(st: Style, blocks: seq<Block>)
    requires StyleOk(st) && forall b <- blocks :: BlockOk(b)
    ensures Gather(PrintLines(st, blocks)) == blocks
  {
    hide ReadCore, HeadLine, EntryLines, StyleOk, Gather, HeadOk, EntryOk, BlockOk;
    if blocks == [] {
      GatherNothing();
    } else {
      var init, b := blocks[..|blocks| - 1], blocks[|blocks| - 1];
      GatherPrinted(st, init);
      StyleQuotes(st);
      BlockParts(b);
      HeadReads(b.head, st.quote);
      GatherEntries(st, PrintLines(st, init), b.head, b.entries);
      var cores, h, es := PrintLines(st, init), [HeadLine(b.head, st.quote)], EntryLines(st, b.entries);
      assert cores + (h + es) == cores + h + es;
    }
  }

  lemma GatherNothing()
    ensures Gather([]) == []
  {
  }

  lemma BlockParts(b: Block)
    requires BlockOk(b)
    ensures HeadOk(b.head) && forall e <- b.entries :: EntryOk(e)
  {
  }

  lemma StyleQuotes(st: Style)
    requires StyleOk(st)
    ensures st.quote in {'"', '\''}
  {
  }

  // ---- physical lines ----

  /** A line as written: indentation, significant text, trailing blanks (a return is one), comment. */
  datatype Written = Written(lead: string, core: string, trail: string, comment: string)

  function Shown(w: Written): string {
    w.lead + w.core + w.trail + w.comment
  }

  ghost predicate WrittenOk(w: Written) {
    && AllBlank(w.lead, true) && AllBlank(w.trail, true)
    && Avoids(w.lead, {'\n'}) && Avoids(w.trail, {'\n'}) && Avoids(w.comment, {'\n'})
    && Tight(w.core, true) && Avoids(w.core, MARKS)
    && (w.comment == "" || w.comment[0] in {'#', ';'})
  }

  lemma CutComment(lead: string, core: string, trail: string, comment: string)
    requires AllBlank(lead, true) && AllBlank(trail, true) && Tight(core, true) && Avoids(core, MARKS)
    requires comment == "" || comment[0] in {'#', ';'}
    ensures var s := lead + core + trail + comment; Trim(s[..Find(s, {'#', ';'}, 0)], true) == core
  {
    hide Trim, Find;
    var plain := lead + core + trail;
    assert Avoids(plain, {'#', ';'}) by {
      assert forall i :: 0 <= i < |lead| ==> Blank(lead[i], true);
      assert forall i :: 0 <= i < |trail| ==> Blank(trail[i], true);
    }
    var s := plain + comment;
    if comment == "" {
      assert s == plain;
      FindNone(s, {'#', ';'});
    } else {
      assert s == plain + [comment[0]] + comment[1..];
      FindAfter(plain, comment[0], comment[1..], {'#', ';'});
    }
    assert s[..|plain|] == plain;
    TrimPadded(lead, core, trail, true);
  }

  lemma PopConcat(a: string, b: string)
    requires b != ""
    ensures PopCr(a + b) == a + PopCr(b)
  {
    assert (a + b)[|a + b| - 1] == b[|b| - 1];
    assert (a + b)[..|a + b| - 1] == a + b[..|b| - 1];
  }

  lemma PopParts(s: string)
    ensures AllBlank(s, true) ==> AllBlank(PopCr(s), true)
    ensures Tight(s, true) ==> PopCr(s) == s
    ensures s != "" && s[0] in {'#', ';'} ==> PopCr(s) != "" && PopCr(s)[0] == s[0]
  {
  }

  /** A return at the end belongs to the comment, the trailing blanks or the indentation. */
  lemma PopWritten(w: Written) returns (v: Written)
    requires WrittenOk(w)
    ensures PopCr(Shown(w)) == Shown(v) && v.core == w.core
    ensures AllBlank(v.lead, true) && AllBlank(v.trail, true)
    ensures v.comment == "" || v.comment[0] in {'#', ';'}
  {
    hide AllBlank, Avoids, PopCr, Tight;
    if w.comment != "" {
      PopParts(w.comment);
      PopConcat(w.lead + w.core + w.trail, w.comment);
      v := w.(comment := PopCr(w.comment));
    } else if w.trail != "" {
      PopParts(w.trail);
      PopConcat(w.lead + w.core, w.trail);
      v := w.(trail := PopCr(w.trail));
      assert Shown(w) == w.lead + w.core + w.trail && Shown(v) == w.lead + w.core + v.trail;
    } else if w.core != "" {
      PopParts(w.core);
      PopConcat(w.lead, w.core);
      v := w;
      assert Shown(w) == w.lead + w.core;
    } else {
      PopParts(w.lead);
      v := w.(lead := PopCr(w.lead));
      assert Shown(w) == w.lead && Shown(v) == v.lead;
    }
  }

  /** However a line is written, its core is its significant text. */
  lemma WrittenCore(w: Written)
    requires WrittenOk(w)
    ensures Core(Shown(w)) == w.core
  {
    hide Trim, Find, PopCr;
    var v := PopWritten(w);
    CutComment(v.lead, v.core, v.trail, v.comment);
  }

  function ShownAll(ws: seq<Written>): seq<string> {
    if ws == [] then [] else ShownAll(ws[..|ws| - 1]) + [Shown(ws[|ws| - 1])]
  }

  /** The significant texts of written lines; blank and comment lines have none. */
  function Texts(ws: seq<Written>): seq<string> {
    if ws == [] then []
    else
      var core := ws[|ws| - 1].core;
      Texts(ws[..|ws| - 1]) + if core == "" then [] else [core]
  }

  lemma {:induction false} SignificantShown(ws: seq<Written>)
    requires forall w <- ws :: WrittenOk(w)
    ensures Significant(ShownAll(ws)) == Texts(ws)
  {
    hide Core, Shown, WrittenOk;
    if ws != [] {
      var init, w := ws[..|ws| - 1], ws[|ws| - 1];
      SignificantShown(init);
      WrittenCore(w);
      assert ShownAll(ws)[..|ShownAll(ws)| - 1] == ShownAll(init);
    }
  }

  /** The text made of these lines, each ended by a newline. */
  function Join(lines: seq<string>): string {
    if lines == [] then "" else lines[0] + ['\n'] + Join(lines[1..])
  }

  lemma {:induction false} SplitJoin(lines: seq<string>)
    requires forall l <- lines :: Avoids(l, {'\n'})
    ensures SplitLines(Join(lines)) == lines
  {
    hide Find;
    if lines != [] {
      var rest := Join(lines[1..]);
      var text := lines[0] + ['\n'] + rest;
      FindAfter(lines[0], '\n', rest, {'\n'});
      SplitJoin(lines[1..]);
      assert text[..|lines[0]|] == lines[0] && text[|lines[0]| + 1..] == rest;
    }
  }

  lemma {:induction false} ShownAvoids(ws: seq<Written>)
    requires forall w <- ws :: WrittenOk(w)
    ensures forall l <- ShownAll(ws) :: Avoids(l, {'\n'})
  {
    if ws != [] {
      ShownAvoids(ws[..|ws| - 1]);
      ShownOne(ws[|ws| - 1]);
    }
  }

  lemma ShownOne(w: Written)
    requires WrittenOk(w)
    ensures Avoids(Shown(w), {'\n'})
  {
  }

  lemma {:induction false} SignificantTight(lines: seq<string>)
    requires forall l <- lines :: LineOk(l)
    ensures Significant(lines) == lines
  {
    hide Core, LineOk;
    if lines != [] {
      var init, last := lines[..|lines| - 1], lines[|lines| - 1];
      LineFilled(last);
      SignificantTight(init);
      CoreOfTight(last);
      assert lines == init + [last];
    }
  }

  lemma LineFilled(s: string)
    requires LineOk(s)
    ensures s != "" && Avoids(s, {'\n'})
  {
  }

  lemma {:induction false} EntryLinesTight(st: Style, entries: seq<(string, Value)>)
    requires StyleOk(st) && forall e <- entries :: EntryOk(e)
    ensures forall l <- EntryLines(st, entries) :: LineOk(l)
  {
    hide EntryLine, EntryOk, StyleOk, LineOk, ReadCore;
    if entries != [] {
      EntryLinesTight(st, entries[..|entries| - 1]);
      EntryReads(st, entries[|entries| - 1]);
    }
  }

  lemma {:induction false} PrintLinesTight(st: Style, blocks: seq<Block>)
    requires StyleOk(st) && forall b <- blocks :: BlockOk(b)
    ensures forall l <- PrintLines(st, blocks) :: LineOk(l)
  {
    hide EntryOk, StyleOk, BlockOk, HeadOk, LineOk, ReadCore, HeadLine, EntryLines;
    if blocks != [] {
      var b := blocks[|blocks| - 1];
      PrintLinesTight(st, blocks[..|blocks| - 1]);
      BlockParts(b);
      StyleQuotes(st);
      HeadReads(b.head, st.quote);
      EntryLinesTight(st, b.entries);
    }
  }

  /** The plain printed text loads back to the meaning of its blocks. */
  lemma PrintedLoads(st: Style, blocks: seq<Block>)
    requires StyleOk(st) && forall b <- blocks :: BlockOk(b)
    ensures Load(Join(PrintLines(st, blocks))) == Denote(blocks)
  {
    hide StyleOk, BlockOk, PrintLines, SplitLines, Join, Denote, LoadLines, Collect, Significant, Gather, LineOk, Avoids;
    var lines := PrintLines(st, blocks);
    PrintLinesTight(st, blocks);
    forall l <- lines
      ensures Avoids(l, {'\n'})
    {
      LineFilled(l);
    }
    SplitJoin(lines);
    LoaderIsBlockwise(lines);
    CollectCores(lines);
    SignificantTight(lines);
    GatherPrinted(st, blocks);
  }

  /**
   Any configuration of printable blocks loads back to its meaning, in any style, however its
   lines are indented, commented, ended or spread over blank and comment lines.
   */
  lemma RoundTrip(st: Style, blocks: seq<Block>, ws: seq<Written>)
    requires StyleOk(st) && (forall b <- blocks :: BlockOk(b)) && (forall w <- ws :: WrittenOk(w))
    requires Texts(ws) == PrintLines(st, blocks)
    ensures Load(Join(ShownAll(ws))) == Denote(blocks)
  {
    hide StyleOk, BlockOk, WrittenOk, PrintLines, SplitLines, Join, Denote, LoadLines, Collect, Significant, Gather, Texts;
    var lines := ShownAll(ws);
    ShownAvoids(ws);
    SplitJoin(lines);
    LoaderIsBlockwise(lines);
    CollectCores(lines);
    SignificantShown(ws);
    GatherPrinted(st, blocks);
  }

  /**
   Sections, keys, types and group order come back: the printed text fails to load exactly
   when a name is used both ways, and otherwise holds what its blocks say under every name.
   */
  lemma PrintedTree(st: Style, blocks: seq<Block>)
    requires StyleOk(st) && forall b <- blocks :: BlockOk(b)
    ensures var r := Load(Join(PrintLines(st, blocks)));
            && (r.None? <==> exists name :: Conflict(blocks, name))
            && (r.Some? ==> forall name :: Lookup(r.value, name) == Expected(blocks, name))
  {
    hide StyleOk, BlockOk, PrintLines, Join, Denote, Load, Conflict, Lookup, Expected;
    PrintedLoads(st, blocks);
    DenoteByName(blocks);
  }
}

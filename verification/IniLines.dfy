/**
 Lines as people write them: values and ids without quotes, padded headers, lines that say nothing,
 and entries before the first header.
 */
module IniLines {
  import opened Text
  import opened IniConfig
  import opened IniValues
  import opened IniMeaning
  import opened IniRoundTrip
  import opened IniMarks

  // ---- values without quotes ----

  function BareLine(st: Style, key: string, text: string): string {
    KeyPart(st, key) + [st.sep] + (st.right + text)
  }

  /** Between two quotes of the same kind. */
  predicate BetweenQuotes(s: string) {
    |s| >= 2 && ((s[0] == '"' && s[|s| - 1] == '"') || (s[0] == '\'' && s[|s| - 1] == '\''))
  }

  /** A text that can stand without quotes; a lone or unmatched quote is part of it. */
  ghost predicate BareOk(text: string) {
    Tight(text, true) && Avoids(text, MARKS) && !BetweenQuotes(text)
  }

  /** Such a line would be taken for a header. */
  predicate LooksLikeHeader(key: string, text: string) {
    key != "" && text != "" && key[0] == '[' && text[|text| - 1] == ']'
  }

  lemma BareCore(st: Style, key: string, text: string)
    requires StyleOk(st) && KeyOk(key) && BareOk(text)
    ensures var k := KeyPart(st, key);
            Core(BareLine(st, key, text)) == if text == "" then k + [st.sep] else BareLine(st, key, text)
  {
    hide Core, Trim, Find, BetweenQuotes;
    var k := KeyPart(st, key);
    AvoidParts(st, key, text);
    if text == "" {
      AvoidParts(st.(right := ""), key, "");
      var head := k + [st.sep];
      assert head == k + [st.sep] + ("" + "");
      assert head[0] == if key == "" then st.sep else key[0];
      var w := Written("", head, st.right, "");
      assert Shown(w) == BareLine(st, key, text);
      WrittenCore(w);
    } else {
      var line := BareLine(st, key, text);
      assert line[|line| - 1] == text[|text| - 1];
      assert line[0] == if key == "" then st.sep else key[0];
      CoreOfTight(line);
    }
  }

  /** The part after the separator, read back. */
  lemma BareTail(st: Style, text: string)
    requires StyleOk(st) && BareOk(text)
    ensures Unquote(Trim(st.right + text, true)) == text
  {
    hide Trim;
    TrimFront(st.right, text, true);
    TrimTight(text, true);
  }

  lemma BareSplit(st: Style, key: string, text: string, tail: string)
    requires StyleOk(st) && KeyOk(key) && Unquote(Trim(tail, true)) == text
    requires !Bracketed(KeyPart(st, key) + [st.sep] + tail)
    ensures ReadCore(KeyPart(st, key) + [st.sep] + tail) == Entry(key, text)
  {
    hide Trim, Unquote, Find;
    var k := KeyPart(st, key);
    var core := k + [st.sep] + tail;
    assert AllBlank(st.left, true) ==> Avoids(k, {'=', ':'});
    FindAfter(k, st.sep, tail, {'=', ':'});
    assert core[..|k|] == k && core[|k| + 1..] == tail;
    TrimKey(st, key);
  }

  /** An unquoted value reads back exactly as written, unless its line looks like a header. */
  lemma BareReadsIff(st: Style, key: string, text: string)
    requires StyleOk(st) && KeyOk(key) && BareOk(text)
    ensures ReadLine(BareLine(st, key, text)) == Entry(key, text) <==> !LooksLikeHeader(key, text)
  {
    hide Core, ReadCore, Trim, Unquote, BetweenQuotes;
    var k := KeyPart(st, key);
    BareCore(st, key, text);
    BareTail(st, text);
    var tail := if text == "" then "" else st.right + text;
    var core := k + [st.sep] + tail;
    if text == "" {
      TrimTight("", true);
      UnquoteNothing();
      assert core == k + [st.sep];
    } else {
      assert core[|core| - 1] == text[|text| - 1];
    }
    assert core[0] == if key == "" then st.sep else key[0];
    assert text == "" ==> core[|core| - 1] == st.sep;
    if Bracketed(core) {
      HeaderIsNoEntry(core);
    } else {
      BareSplit(st, key, text, tail);
    }
  }

  lemma UnquoteNothing()
    ensures Unquote("") == ""
  {
  }

  lemma HeaderIsNoEntry(core: string)
    requires Bracketed(core)
    ensures !ReadCore(core).Entry?
  {
    hide Trim, Find, Unquote;
  }

  /** A section of one unquoted value loads as that value, typed by `IniValues.TypedIff`. */
  lemma BareLoads(st: Style, name: string, key: string, text: string)
    requires StyleOk(st) && NameOk(name) && name != "" && KeyOk(key) && BareOk(text) && !LooksLikeHeader(key, text)
    ensures Load(Join([HeadLine(InSection(name), st.quote), BareLine(st, key, text)])) == Some(map[name := Object(map[key := Typed(text)])])
  {
    hide ReadCore, HeadLine, BareLine, StyleOk, NameOk, KeyOk, BareOk, LineOk, SplitLines, Join, LoadLines, Core, Typed, LooksLikeHeader;
    var h, e := HeadLine(InSection(name), st.quote), BareLine(st, key, text);
    StyleQuotes(st);
    assert HeadOk(InSection(name));
    HeadReads(InSection(name), st.quote);
    CoreOfTight(h);
    BareReadsIff(st, key, text);
    LineFilled(h);
    BareAvoids(st, key, text);
    SplitJoin([h, e]);
    LoaderIsBlockwise([h, e]);
    OneEntryBlocks(h, e, name);
    OneEntryDenotes(name, key, Typed(text));
  }

  lemma BareAvoids(st: Style, key: string, text: string)
    requires StyleOk(st) && KeyOk(key) && BareOk(text)
    ensures Avoids(BareLine(st, key, text), {'\n'})
  {
    AvoidParts(st, key, text);
  }

  /** The shipped host line is a string, dots and all. */
  lemma HostLoads()
    ensures ReadLine("host: 127.0.0.1") == Entry("host", "127.0.0.1")
    ensures Typed("127.0.0.1") == Str("127.0.0.1")
  {
    hide Typed, ReadLine, BoolWord, WholeInteger;
    HostLine();
    DottedIsString();
    TypedIff("127.0.0.1", Str("127.0.0.1"));
  }

  lemma HostLine()
    ensures ReadLine("host: 127.0.0.1") == Entry("host", "127.0.0.1")
  {
    hide ReadLine;
    var st, text := Style(':', "", " ", '"'), "127.0.0.1";
    assert StyleOk(st) && KeyOk("host") && BareOk(text);
    assert BareLine(st, "host", text) == "host: 127.0.0.1";
    BareReadsIff(st, "host", text);
  }

  lemma DottedIsString()
    ensures !BoolWord("127.0.0.1", true) && !BoolWord("127.0.0.1", false)
    ensures forall n :: !WholeInteger("127.0.0.1", n)
  {
    hide CStr, Val;
    var text := "127.0.0.1";
    CStrIs(text, "");
    assert text[3] == '.' && |text| == 9;
    forall n
      ensures !WholeInteger(text, n)
    {
      ForeignIsNoInteger(text, 3, n);
    }
    assert forall word :: SpelledAs(text, word) ==> |word| == 9;
  }

  // ---- padded headers and unquoted ids ----

  lemma IdTail(gap: string, id: string)
    requires AllBlank(gap, true) && Tight(id, true) && !BetweenQuotes(id)
    ensures Unquote(Trim(gap + id, true)) == id
  {
    hide Trim;
    TrimFront(gap, id, true);
    TrimTight(id, true);
  }

  lemma BareHeader(name: string, gap: string, id: string)
    requires AllBlank(gap, true) && NameOk(name) && name != "" && Tight(id, true) && id != "" && !BetweenQuotes(id)
    ensures var inside := name + [' '] + (gap + id); Tight(inside, true) && ReadHeader(inside) == Group(name, id)
  {
    hide Trim, Find, Unquote;
    var tail := gap + id;
    var inside := name + [' '] + tail;
    assert inside[0] == name[0] && inside[|inside| - 1] == id[|id| - 1];
    assert Avoids(name, {' ', '\t'});
    FindAfter(name, ' ', tail, {' ', '\t'});
    assert inside[..|name|] == name && inside[|name| + 1..] == tail;
    IdTail(gap, id);
  }

  lemma SectionHeader(name: string)
    requires NameOk(name)
    ensures ReadHeader(name) == Section(name)
  {
    hide Find, Trim;
    assert Avoids(name, {' ', '\t'});
    FindNone(name, {' ', '\t'});
  }

  /** A header's blanks, inside the brackets and before the id, never matter; an id needs no quotes. */
  lemma HeaderReadsPadded(front: string, name: string, gap: string, id: string, back: string)
    requires AllBlank(front, true) && AllBlank(gap, true) && AllBlank(back, true) && NameOk(name) && name != ""
    requires Tight(id, true) && id != "" && !BetweenQuotes(id)
    ensures ReadHeader(Trim(front + name + back, true)) == Section(name)
    ensures ReadHeader(Trim(front + (name + [' '] + (gap + id)) + back, true)) == Group(name, id)
  {
    hide Trim, ReadHeader, BetweenQuotes, AllBlank;
    TrimPadded(front, name, back, true);
    SectionHeader(name);
    BareHeader(name, gap, id);
    TrimPadded(front, name + [' '] + (gap + id), back, true);
  }

  // ---- lines that say nothing ----

  /** A line with neither brackets around it nor a separator is skipped. */
  lemma SeparatorlessSkips(line: string)
    requires !Bracketed(Core(line)) && Avoids(Core(line), {'=', ':'})
    ensures ReadLine(line) == Skip
  {
    hide Core, Find, Trim;
    FindNone(Core(line), {'=', ':'});
  }

  /** Entries before the first header are dropped. */
  lemma {:induction false} PreambleIgnored(lines: seq<string>)
    requires forall l <- lines :: ReadLine(l).Entry? || ReadLine(l).Skip?
    ensures Collect(lines) == [] && LoadLines(lines) == Some(map[])
  {
    hide ReadLine, LoadLines;
    if lines != [] {
      PreambleIgnored(lines[..|lines| - 1]);
      assert lines[|lines| - 1] in lines;
    }
    LoaderIsBlockwise(lines);
  }

  // ---- group ids ----

  /** Every object of a loaded group carries a header's id, even when an entry was called "id". */
  lemma {:induction false} GroupItemsCarryIds(blocks: seq<Block>, name: string, i: nat)
    requires i < |GroupItems(blocks, name)|
    ensures exists b <- blocks :: b.head.InGroup? && b.head.name == name && b.head.id != ""
                                && "id" in GroupItems(blocks, name)[i] && GroupItems(blocks, name)[i]["id"] == Str(b.head.id)
  {
    var init, b := blocks[..|blocks| - 1], blocks[|blocks| - 1];
    if i < |GroupItems(init, name)| {
      GroupItemsCarryIds(init, name, i);
    } else {
      assert b in blocks;
    }
  }

  /** File order: what earlier blocks leave comes before what later blocks leave. */
  lemma {:induction false} BlocksInOrder(a: seq<Block>, b: seq<Block>, name: string)
    ensures SectionEntries(a + b, name) == SectionEntries(a, name) + SectionEntries(b, name)
    ensures GroupItems(a + b, name) == GroupItems(a, name) + GroupItems(b, name)
    decreases |b|
  {
    hide FieldsOf;
    if b == [] {
      assert a + b == a;
    } else {
      assert (a + b)[..|a + b| - 1] == a + b[..|b| - 1];
      BlocksInOrder(a, b[..|b| - 1], name);
    }
  }

  lemma {:induction false} AbsentKey(entries: seq<(string, Value)>, key: string)
    requires forall e <- entries :: e.0 != key
    ensures key !in FieldsOf(entries)
  {
    if entries != [] {
      AbsentKey(entries[..|entries| - 1], key);
    }
  }

  /** The last entry with a key gives its value. */
  lemma LastEntryWins(a: seq<(string, Value)>, key: string, v: Value, b: seq<(string, Value)>)
    requires forall e <- b :: e.0 != key
    ensures key in FieldsOf(a + [(key, v)] + b) && FieldsOf(a + [(key, v)] + b)[key] == v
  {
    hide FieldsOf;
    AbsentKey(b, key);
    FieldsSnoc(a, (key, v));
    FieldsConcat(a + [(key, v)], b);
  }
}

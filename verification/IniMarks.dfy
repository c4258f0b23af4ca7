/**
 Quotes do not protect comment marks: no loaded string holds one. With that, exactly which entries
 read back from their line, and which values load back from a file.
 */
module IniMarks {
  import opened Text
  import opened IniConfig
  import opened IniValues
  import opened IniMeaning
  import opened IniRoundTrip

  lemma {:induction false} TrimAvoids(s: string, cs: set<char>)
    requires Avoids(s, cs)
    ensures Avoids(Trim(s, true), cs)
  {
    if s != "" {
      if Blank(s[0], true) {
        TrimAvoids(s[1..], cs);
      } else if Blank(s[|s| - 1], true) {
        TrimAvoids(s[..|s| - 1], cs);
      }
    }
  }

  lemma PartAvoids(s: string, i: nat, j: nat, cs: set<char>)
    requires Avoids(s, cs) && i <= j <= |s|
    ensures Avoids(s[i..j], cs)
  {
  }

  lemma UnquoteAvoids(s: string, cs: set<char>)
    requires Avoids(s, cs)
    ensures Avoids(Unquote(s), cs)
  {
  }

  /** A line's core holds no comment mark, and no newline when the line has none. */
  lemma CoreAvoids(line: string)
    ensures Avoids(Core(line), {'#', ';'})
    ensures Avoids(line, {'\n'}) ==> Avoids(Core(line), MARKS)
  {
    hide Trim;
    var s := PopCr(line);
    var cut := s[..Find(s, {'#', ';'}, 0)];
    assert Avoids(cut, {'#', ';'});
    TrimAvoids(cut, {'#', ';'});
    if Avoids(line, {'\n'}) {
      assert Avoids(cut, {'\n'});
      TrimAvoids(cut, {'\n'});
    }
  }

  /** Nor does what is read from it: neither a value nor a group id. */
  lemma ReadCoreAvoids(s: string, cs: set<char>)
    requires Avoids(s, cs)
    ensures var l := ReadCore(s); (l.Entry? ==> Avoids(l.val, cs)) && (l.Group? ==> Avoids(l.id, cs))
  {
    hide Trim, Find, Unquote, Avoids;
    if s != "" {
      if Bracketed(s) {
        PartAvoids(s, 1, |s| - 1, cs);
        TrimAvoids(s[1..|s| - 1], cs);
        HeaderAvoids(Trim(s[1..|s| - 1], true), cs);
      } else {
        var pos := Find(s, {'=', ':'}, 0);
        if pos < |s| {
          PartAvoids(s, pos + 1, |s|, cs);
          assert s[pos + 1..|s|] == s[pos + 1..];
          TrimAvoids(s[pos + 1..], cs);
          UnquoteAvoids(Trim(s[pos + 1..], true), cs);
        }
      }
    }
  }

  lemma HeaderAvoids(inside: string, cs: set<char>)
    requires Avoids(inside, cs)
    ensures var l := ReadHeader(inside); !l.Entry? && (l.Group? ==> Avoids(l.id, cs))
  {
    hide Trim, Find, Unquote, Avoids;
    var sp := Find(inside, {' ', '\t'}, 0);
    if sp < |inside| {
      PartAvoids(inside, sp + 1, |inside|, cs);
      assert inside[sp + 1..|inside|] == inside[sp + 1..];
      TrimAvoids(inside[sp + 1..], cs);
      UnquoteAvoids(Trim(inside[sp + 1..], true), cs);
    }
  }

  ghost predicate ReadsBack(l: Line, key: string, v: Value) {
    l.Entry? && l.key == key && Typed(l.val) == v
  }

  /** Exactly which entries read back from their own printed line. */
  lemma EntryRoundTripIff(st: Style, key: string, v: Value)
    requires StyleOk(st) && KeyOk(key) && (v.Str? ==> Avoids(v.text, {'\n'}))
    ensures ReadsBack(ReadLine(EntryLine(st, (key, v))), key, v) <==>
              Survives(v) && (v.Str? ==> Avoids(v.text, {'#', ';'}))
  {
    hide ReadCore, Core, EntryLine, ShowValue, ReadValue, Survives, StyleOk, KeyOk;
    var s := EntryLine(st, (key, v));
    if v.Str? && !Avoids(v.text, {'#', ';'}) {
      CoreAvoids(s);
      ReadCoreAvoids(Core(s), {'#', ';'});
    } else {
      EntryReadsText(st, key, v);
      CoreOfTight(s);
      StyleQuotes(st);
      ValueRoundTripIff(v, st.quote);
    }
  }

  ghost predicate FieldsClean(fs: Fields) {
    forall k :: k in fs ==> Clean(fs[k])
  }

  ghost predicate NodeClean(n: Node) {
    match n
    case Object(fields) => FieldsClean(fields)
    case Array(items) => forall f <- items :: FieldsClean(f)
  }

  ghost predicate TreeClean(t: Tree) {
    forall name :: name in t ==> NodeClean(t[name])
  }

  ghost predicate BlockClean(b: Block) {
    (b.head.InGroup? ==> Avoids(b.head.id, MARKS)) && forall e <- b.entries :: Clean(e.1)
  }

  lemma {:induction false} SplitAvoids(text: string)
    ensures forall l <- SplitLines(text) :: Avoids(l, {'\n'})
  {
    if text != "" {
      var k := Find(text, {'\n'}, 0);
      assert Avoids(text[..k], {'\n'});
      if k < |text| {
        SplitAvoids(text[k + 1..]);
      }
    }
  }

  lemma AbsorbClean(blocks: seq<Block>, line: string)
    requires (forall b <- blocks :: BlockClean(b)) && Avoids(line, {'\n'})
    ensures forall b <- Absorb(blocks, ReadLine(line)) :: BlockClean(b)
  {
    hide Core, ReadCore, Typed, Avoids;
    CoreAvoids(line);
    ReadCoreAvoids(Core(line), MARKS);
    var l := ReadLine(line);
    if l.Entry? && blocks != [] {
      TypedClean(l.val);
      var last := blocks[|blocks| - 1];
      assert BlockClean(last);
      assert BlockClean(last.(entries := last.entries + [(l.key, Typed(l.val))]));
    }
  }

  lemma TypedClean(s: string)
    requires Avoids(s, MARKS)
    ensures Clean(Typed(s))
  {
    hide ParseBool, ParseInt;
  }

  lemma {:induction false} CollectClean(lines: seq<string>)
    requires forall l <- lines :: Avoids(l, {'\n'})
    ensures forall b <- Collect(lines) :: BlockClean(b)
  {
    hide Absorb, ReadLine, BlockClean, Avoids;
    if lines != [] {
      CollectClean(lines[..|lines| - 1]);
      AbsorbClean(Collect(lines[..|lines| - 1]), lines[|lines| - 1]);
    }
  }

  lemma {:induction false} FieldsOfClean(entries: seq<(string, Value)>)
    requires forall e <- entries :: Clean(e.1)
    ensures FieldsClean(FieldsOf(entries))
  {
    hide Clean;
    if entries != [] {
      FieldsOfClean(entries[..|entries| - 1]);
    }
  }

  lemma AddBlockClean(out: Tree, b: Block)
    requires TreeClean(out) && BlockClean(b) && AddBlock(out, b).Some?
    ensures TreeClean(AddBlock(out, b).value)
  {
    hide FieldsOf;
    FieldsOfClean(b.entries);
    match b.head
    case InSection(name) =>
      assert name in out ==> NodeClean(out[name]);
    case InGroup(name, id) =>
      assert name in out ==> NodeClean(out[name]);
      assert FieldsClean(FieldsOf(b.entries)["id" := Str(id)]);
  }

  lemma {:induction false} DenoteClean(blocks: seq<Block>)
    requires forall b <- blocks :: BlockClean(b)
    ensures Denote(blocks).Some? ==> TreeClean(Denote(blocks).value)
  {
    hide AddBlock, BlockClean, NodeClean;
    if blocks != [] {
      DenoteClean(blocks[..|blocks| - 1]);
      if Denote(blocks).Some? {
        AddBlockClean(Denote(blocks[..|blocks| - 1]).value, blocks[|blocks| - 1]);
      }
    }
  }

  /** No string of any loaded tree holds a comment mark or a newline, whatever the file's quotes. */
  lemma LoadedIsClean(text: string)
    ensures Load(text).Some? ==> TreeClean(Load(text).value)
  {
    hide SplitLines, LoadLines, Collect, Denote, TreeClean, BlockClean, Avoids;
    SplitAvoids(text);
    CollectClean(SplitLines(text));
    LoaderIsBlockwise(SplitLines(text));
    DenoteClean(Collect(SplitLines(text)));
  }

  lemma OneEntryLoads(st: Style, name: string, key: string, v: Value)
    requires StyleOk(st) && NameOk(name) && name != "" && KeyOk(key) && Clean(v)
    ensures Load(Join([HeadLine(InSection(name), st.quote), EntryLine(st, (key, v))]))
         == Some(map[name := Object(map[key := ReadValue(ShowValue(v, st.quote))])])
  {
    hide ReadCore, HeadLine, EntryLine, StyleOk, NameOk, KeyOk, Clean, ShowValue, ReadValue, LineOk, SplitLines, Join, LoadLines, Core,
      Typed;
    var h, e := HeadLine(InSection(name), st.quote), EntryLine(st, (key, v));
    StyleQuotes(st);
    assert HeadOk(InSection(name));
    HeadReads(InSection(name), st.quote);
    EntryReadsText(st, key, v);
    CoreOfTight(h);
    CoreOfTight(e);
    LineFilled(h);
    LineFilled(e);
    SplitJoin([h, e]);
    LoaderIsBlockwise([h, e]);
    OneEntryBlocks(h, e, name);
    var entries := [(key, Typed(ReadCore(e).val))];
    OneEntryDenotes(name, key, Typed(ReadCore(e).val));
  }

  lemma OneEntryBlocks(h: string, e: string, name: string)
    requires ReadLine(h) == Section(name) && ReadLine(e).Entry?
    ensures Collect([h, e]) == [Block(InSection(name), [(ReadLine(e).key, Typed(ReadLine(e).val))])]
  {
    hide ReadLine, Typed;
    assert [h, e][..1] == [h] && [h][..0] == [];
    assert Collect([h][..0]) == [];
    var headed := [Block(InSection(name), [])];
    assert Collect([h]) == headed;
    assert headed[..0] == [] && headed[0].entries + [(ReadLine(e).key, Typed(ReadLine(e).val))] == [(ReadLine(e).key, Typed(ReadLine(e).val))];
  }

  lemma OneEntryDenotes(name: string, key: string, v: Value)
    requires name != ""
    ensures Denote([Block(InSection(name), [(key, v)])]) == Some(map[name := Object(map[key := v])])
  {
    var entries := [(key, v)];
    assert entries[..0] == [];
    assert FieldsOf(entries) == map[key := v];
    var blocks := [Block(InSection(name), entries)];
    assert blocks[..0] == [];
    assert Denote(blocks[..0]) == Some(map[]);
  }

  /** Exactly which values load back from a file that sets them in a section. */
  lemma ValueLoadsIff(st: Style, name: string, key: string, v: Value)
    requires StyleOk(st) && NameOk(name) && name != "" && KeyOk(key)
    ensures Load(Join([HeadLine(InSection(name), st.quote), EntryLine(st, (key, v))])) == Some(map[name := Object(map[key := v])])
            <==> Survives(v) && (v.Str? ==> Avoids(v.text, MARKS))
  {
    hide HeadLine, EntryLine, StyleOk, NameOk, KeyOk, ShowValue, ReadValue, Join, Load, Survives, Avoids;
    var text := Join([HeadLine(InSection(name), st.quote), EntryLine(st, (key, v))]);
    if Clean(v) {
      OneEntryLoads(st, name, key, v);
      StyleQuotes(st);
      ValueRoundTripIff(v, st.quote);
      assert Object(map[key := v]).fields[key] == v;
      SameTree(name, key, v, ReadValue(ShowValue(v, st.quote)));
    } else {
      LoadedIsClean(text);
      UncleanTree(name, key, v);
    }
  }

  lemma UncleanTree(name: string, key: string, v: Value)
    requires !Clean(v)
    ensures !TreeClean(map[name := Object(map[key := v])])
  {
    var fs: Fields := map[key := v];
    assert !FieldsClean(fs) by { assert fs[key] == v; }
    var t: Tree := map[name := Object(fs)];
    assert !NodeClean(t[name]);
  }

  lemma SameTree(name: string, key: string, v: Value, w: Value)
    ensures map[name := Object(map[key := v])] == map[name := Object(map[key := w])] <==> v == w
  {
    var s: Tree, t: Tree := map[name := Object(map[key := v])], map[name := Object(map[key := w])];
    assert s[name].fields[key] == v && t[name].fields[key] == w;
  }

  /** A comment mark inside quotes still cuts the value. */
  lemma QuotesDoNotProtect()
    ensures ReadLine("k=\"a#b\"") == Entry("k", "\"a")
  {
    hide Trim, Find, Core;
    var w := Written("", "k=\"a", "", "#b\"");
    assert Shown(w) == "k=\"a#b\"";
    WrittenCore(w);
    var core := "k=\"a";
    assert core == "k" + ['='] + "\"a" && core[..1] == "k" && core[2..] == "\"a";
    FindAfter("k", '=', "\"a", {'=', ':'});
    TrimTight("k", true);
    TrimTight("\"a", true);
  }
}

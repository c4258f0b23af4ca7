/**
 What a configuration file means, block by block: the one-pass loader agrees with it, and the
 loaded tree can be read off the blocks name by name.
 */
module IniMeaning {
  import opened Text
  import opened IniConfig

  datatype Head = InSection(name: string) | InGroup(name: string, id: string)

  /** A header with the entries that follow it. */
  datatype Block = Block(head: Head, entries: seq<(string, Value)>)

  /** The fields a list of entries leaves; a later entry replaces an earlier one. */
  function FieldsOf(entries: seq<(string, Value)>): Fields {
    if entries == [] then map[]
    else
      var last := entries[|entries| - 1];
      FieldsOf(entries[..|entries| - 1])[last.0 := last.1]
  }

  function AddBlock(out: Tree, b: Block): Option<Tree> {
    match b.head
    case InSection(name) =>
      if name == "" || b.entries == [] then Some(out)
      else if name !in out then Some(out[name := Object(FieldsOf(b.entries))])
      else if out[name].Object? then Some(out[name := Object(out[name].fields + FieldsOf(b.entries))])
      else None
    case InGroup(name, id) =>
      if name == "" || id == "" then Some(out) else Push(out, name, FieldsOf(b.entries)["id" := Str(id)])
  }

  function Denote(blocks: seq<Block>): Option<Tree> {
    if blocks == [] then Some(map[])
    else
      var before := Denote(blocks[..|blocks| - 1]);
      if before.None? then None else AddBlock(before.value, blocks[|blocks| - 1])
  }

  // ---- lines to blocks ----

  function Absorb(blocks: seq<Block>, line: Line): seq<Block> {
    match line
    case Skip => blocks
    case Section(name) => blocks + [Block(InSection(name), [])]
    case Group(name, id) => blocks + [Block(InGroup(name, id), [])]
    case Entry(key, val) =>
      if blocks == [] then []
      else
        var last := blocks[|blocks| - 1];
        blocks[..|blocks| - 1] + [last.(entries := last.entries + [(key, Typed(val))])]
  }

  function Collect(lines: seq<string>): seq<Block> {
    if lines == [] then [] else Absorb(Collect(lines[..|lines| - 1]), ReadLine(lines[|lines| - 1]))
  }

  /** The loader's state after the lines that make `blocks`. */
  ghost predicate Tracks(c: Option<Cursor>, blocks: seq<Block>) {
    if blocks == [] then c == Some(START)
    else
      var last := blocks[|blocks| - 1];
      match last.head
      case InSection(name) =>
        var d := Denote(blocks);
        if d.None? then c.None? else c == Some(Cursor(d.value, name, "", "", map[]))
      case InGroup(name, id) =>
        var d := Denote(blocks[..|blocks| - 1]);
        if d.None? then c.None?
        else c == Some(Cursor(d.value, "", name, id, if name != "" && id != "" then FieldsOf(last.entries) else map[]))
  }

  lemma DenoteSnoc(blocks: seq<Block>, b: Block)
    ensures Denote(blocks + [b]) == if Denote(blocks).None? then None else AddBlock(Denote(blocks).value, b)
  {
    hide AddBlock;
    assert (blocks + [b])[..|blocks|] == blocks;
  }

  lemma FieldsSnoc(entries: seq<(string, Value)>, e: (string, Value))
    ensures FieldsOf(entries + [e]) == FieldsOf(entries)[e.0 := e.1]
  {
    assert (entries + [e])[..|entries|] == entries;
  }

  /** Flushing a tracked state gives the meaning of its blocks. */
  lemma FlushTracked(c: Option<Cursor>, blocks: seq<Block>)
    requires Tracks(c, blocks)
    ensures Denote(blocks) == if c.None? then None else Flush(c.value)
  {
  }

  /** One more entry in a section's block is one more `Put`. */
  lemma AddEntry(out: Tree, b: Block, e: (string, Value))
    requires b.head.InSection?
    ensures AddBlock(out, b.(entries := b.entries + [e])) ==
            var before := AddBlock(out, b);
            if before.None? || b.head.name == "" then before else Put(before.value, b.head.name, e.0, e.1)
  {
    hide FieldsOf;
    FieldsSnoc(b.entries, e);
    var name, fs := b.head.name, FieldsOf(b.entries);
    NoFields();
    if name != "" && name !in out {
      assert out[name := Object(fs)][name := Object(fs[e.0 := e.1])] == out[name := Object(fs[e.0 := e.1])];
    } else if name != "" && out[name].Object? {
      var had := out[name].fields;
      assert had + fs[e.0 := e.1] == (had + fs)[e.0 := e.1];
      assert b.entries == [] ==> had + fs == had;
      assert out[name := Object(had + fs)][name := Object((had + fs)[e.0 := e.1])] == out[name := Object((had + fs)[e.0 := e.1])];
    }
  }

  lemma NoFields()
    ensures FieldsOf([]) == map[]
  {
  }

  lemma TracksHeader(c: Option<Cursor>, blocks: seq<Block>, line: Line)
    requires Tracks(c, blocks) && (line.Section? || line.Group?)
    ensures Tracks(if c.None? then None else Feed(c.value, line), Absorb(blocks, line))
  {
    hide Flush, Denote;
    FlushTracked(c, blocks);
    var after := Absorb(blocks, line);
    var b := after[|blocks|];
    assert after[..|after| - 1] == blocks;
    DenoteSnoc(blocks, b);
  }

  lemma TracksEntry(c: Option<Cursor>, blocks: seq<Block>, key: string, val: string)
    requires Tracks(c, blocks)
    ensures Tracks(if c.None? then None else Feed(c.value, Entry(key, val)), Absorb(blocks, Entry(key, val)))
  {
    hide Typed, AddBlock, Put, Denote;
    if blocks != [] {
      var init, last, e := blocks[..|blocks| - 1], blocks[|blocks| - 1], (key, Typed(val));
      var longer := last.(entries := last.entries + [e]);
      assert blocks == init + [last] && (init + [longer])[..|init|] == init;
      DenoteSnoc(init, last);
      DenoteSnoc(init, longer);
      match last.head
      case InSection(name) =>
        if Denote(init).Some? {
          AddEntry(Denote(init).value, last, e);
        }
      case InGroup(_, _) => FieldsSnoc(last.entries, e);
    }
  }

  lemma {:induction false} TracksAll(lines: seq<string>)
    ensures Tracks(FeedAll(lines), Collect(lines))
  {
    hide Tracks, Feed, Absorb, ReadLine;
    if lines == [] {
      TracksNothing();
    } else {
      var before := lines[..|lines| - 1];
      TracksAll(before);
      var c, blocks := FeedAll(before), Collect(before);
      var line := ReadLine(lines[|lines| - 1]);
      match line
      case Skip => SkipChanges(c, blocks);
      case Section(_) => TracksHeader(c, blocks, line);
      case Group(_, _) => TracksHeader(c, blocks, line);
      case Entry(key, val) => TracksEntry(c, blocks, key, val);
    }
  }

  lemma TracksNothing()
    ensures Tracks(Some(START), [])
  {
  }

  lemma SkipChanges(c: Option<Cursor>, blocks: seq<Block>)
    ensures Absorb(blocks, Skip) == blocks && (c.Some? ==> Feed(c.value, Skip) == c)
  {
  }

  /** The one-pass loader computes the block-by-block meaning, exceptions included. */
  lemma LoaderIsBlockwise(lines: seq<string>)
    ensures LoadLines(lines) == Denote(Collect(lines))
  {
    hide Tracks, Flush, Denote, FeedAll, Collect;
    TracksAll(lines);
    FlushTracked(FeedAll(lines), Collect(lines));
  }

  // ---- reading the tree off the blocks ----

  /** All entries of the sections called `name`, in order. */
  function SectionEntries(blocks: seq<Block>, name: string): seq<(string, Value)> {
    if blocks == [] then []
    else
      var b := blocks[|blocks| - 1];
      SectionEntries(blocks[..|blocks| - 1], name) + if b.head == InSection(name) then b.entries else []
  }

  /** The objects of the groups called `name`, in order; a group with an empty id leaves none. */
  function GroupItems(blocks: seq<Block>, name: string): seq<Fields> {
    if blocks == [] then []
    else
      var b := blocks[|blocks| - 1];
      GroupItems(blocks[..|blocks| - 1], name)
      + if b.head.InGroup? && b.head.name == name && b.head.id != "" then [FieldsOf(b.entries)["id" := Str(b.head.id)]] else []
  }

  ghost predicate Conflict(blocks: seq<Block>, name: string) {
    name != "" && SectionEntries(blocks, name) != [] && GroupItems(blocks, name) != []
  }

  function Lookup(out: Tree, name: string): Option<Node> {
    if name in out then Some(out[name]) else None
  }

  function Expected(blocks: seq<Block>, name: string): Option<Node> {
    if name == "" then None
    else if SectionEntries(blocks, name) != [] then Some(Object(FieldsOf(SectionEntries(blocks, name))))
    else if GroupItems(blocks, name) != [] then Some(Array(GroupItems(blocks, name)))
    else None
  }

  lemma {:induction false} FieldsConcat(a: seq<(string, Value)>, b: seq<(string, Value)>)
    ensures FieldsOf(a + b) == FieldsOf(a) + FieldsOf(b)
    decreases |b|
  {
    if b == [] {
      assert a + b == a;
    } else {
      var init, e := b[..|b| - 1], b[|b| - 1];
      FieldsConcat(a, init);
      assert a + b == (a + init) + [e];
      FieldsSnoc(a + init, e);
    }
  }

  /** One block changes its own name's expectation and no other. */
  lemma ExpectedStep(blocks: seq<Block>, b: Block, name: string)
    requires b.head.name != name
    ensures Expected(blocks + [b], name) == Expected(blocks, name)
    ensures Conflict(blocks + [b], name) <==> Conflict(blocks, name)
  {
    hide FieldsOf;
    assert (blocks + [b])[..|blocks|] == blocks;
    assert SectionEntries(blocks + [b], name) == SectionEntries(blocks, name);
    assert GroupItems(blocks + [b], name) == GroupItems(blocks, name);
  }

  lemma ExpectedOwn(blocks: seq<Block>, b: Block, out: Tree)
    requires !Conflict(blocks, b.head.name)
    requires Lookup(out, b.head.name) == Expected(blocks, b.head.name)
    ensures AddBlock(out, b).Some? <==> !Conflict(blocks + [b], b.head.name)
    ensures AddBlock(out, b).Some? ==> Lookup(AddBlock(out, b).value, b.head.name) == Expected(blocks + [b], b.head.name)
  {
    hide FieldsOf;
    var name := b.head.name;
    assert (blocks + [b])[..|blocks|] == blocks;
    var had := SectionEntries(blocks, name);
    if b.head.InSection? {
      assert SectionEntries(blocks + [b], name) == had + b.entries;
      assert GroupItems(blocks + [b], name) == GroupItems(blocks, name);
      FieldsConcat(had, b.entries);
      assert b.entries == [] ==> had + b.entries == had;
      assert had == [] ==> had + b.entries == b.entries;
    } else {
      assert SectionEntries(blocks + [b], name) == had;
      var items := GroupItems(blocks, name);
      assert b.head.id == "" ==> GroupItems(blocks + [b], name) == items;
      var item := FieldsOf(b.entries)["id" := Str(b.head.id)];
      assert b.head.id != "" ==> GroupItems(blocks + [b], name) == items + [item];
      assert items == [] ==> items + [item] == [item];
    }
  }

  lemma AddBlockFrame(out: Tree, b: Block, name: string)
    requires AddBlock(out, b).Some? && name != b.head.name
    ensures Lookup(AddBlock(out, b).value, name) == Lookup(out, name)
  {
  }

  /** A conflict never goes away. */
  lemma ConflictStays(blocks: seq<Block>, b: Block, name: string)
    requires Conflict(blocks, name)
    ensures Conflict(blocks + [b], name)
  {
    assert (blocks + [b])[..|blocks|] == blocks;
  }

  /**
   The loaded tree: an exception exactly when some name has both section entries and group
   items, otherwise under each name the merged entries or the items in file order.
   */
  lemma {:induction false} DenoteByName(blocks: seq<Block>)
    ensures Denote(blocks).None? <==> exists name :: Conflict(blocks, name)
    ensures Denote(blocks).Some? ==> forall name :: Lookup(Denote(blocks).value, name) == Expected(blocks, name)
  {
    hide AddBlock, Conflict, Expected, Lookup;
    if blocks == [] {
      NothingExpected();
    } else {
      var init, b := blocks[..|blocks| - 1], blocks[|blocks| - 1];
      assert blocks == init + [b];
      DenoteByName(init);
      forall name | name != b.head.name
        ensures Expected(blocks, name) == Expected(init, name) && (Conflict(blocks, name) <==> Conflict(init, name))
      {
        ExpectedStep(init, b, name);
      }
      if Denote(init).None? {
        var name :| Conflict(init, name);
        ConflictStays(init, b, name);
      } else {
        var out := Denote(init).value;
        ExpectedOwn(init, b, out);
        if AddBlock(out, b).Some? {
          forall name | name != b.head.name
            ensures Lookup(AddBlock(out, b).value, name) == Lookup(out, name)
          {
            AddBlockFrame(out, b, name);
          }
        }
      }
    }
  }

  lemma NothingExpected()
    ensures forall name :: !Conflict([], name) && Lookup(map[], name) == Expected([], name)
  {
  }
}

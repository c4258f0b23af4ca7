/**
 The Files screen: the list rebuilt from each server.files.list reply, the metadata requests
 sent for its rows, and the generation number that protects rows from late replies.
 */
module FileList {
  import opened Text

  const MAX_ROWS: nat := 40

  /** The generation is a 32-bit unsigned counter. */
  const WRAP: nat := 0x1_0000_0000

  /** A row object: its identity, the list index stored in its user data, its metadata line. */
  datatype Row = Row(id: nat, index: nat, meta: Option<string>)

  /** A metadata request in flight, with the generation, row object and path it captured. */
  datatype Call = Call(gen: nat, row: nat, path: string)

  /**
   `gen` counts rebuilds without wrapping; the program keeps it modulo `WRAP`. Row identities
   are never reused: the current rows are `base`, `base + 1`, and so on. `dangling` records a
   metadata reply that wrote to a row object that no longer exists.
   */
  datatype Files = Files(names: seq<string>, rows: seq<Row>, base: nat, gen: nat, calls: seq<Call>, dangling: bool)

  const Empty: Files := Files([], [], 0, 0, [], false)

  function NextId(f: Files): nat {
    f.base + |f.rows|
  }

  function Kept(paths: seq<string>): seq<string> {
    if paths == [] then [] else (if paths[0] == "" then [] else [paths[0]]) + Kept(paths[1..])
  }

  lemma {:induction false} KeptSnoc(paths: seq<string>, p: string)
    ensures Kept(paths + [p]) == Kept(paths) + if p == "" then [] else [p]
  {
    if paths == [] {
      assert paths + [p] == [p];
    } else {
      var rest, head := paths[1..], if paths[0] == "" then [] else [paths[0]];
      var tail := if p == "" then [] else [p];
      assert (paths + [p])[1..] == rest + [p];
      KeptSnoc(rest, p);
      assert Kept(paths + [p]) == head + Kept(rest + [p]);
      assert head + (Kept(rest) + tail) == head + Kept(rest) + tail;
    }
  }

  function FirstRows(paths: seq<string>): seq<string> {
    if |paths| <= MAX_ROWS then paths else paths[..MAX_ROWS]
  }

  function Rebuild(f: Files, paths: seq<string>): Files {
    var names := Kept(FirstRows(paths));
    Files(names,
          seq(|names|, i requires 0 <= i < |names| => Row(NextId(f) + i, i, None)),
          NextId(f),
          f.gen + 1,
          f.calls + seq(|names|, i requires 0 <= i < |names| => Call(f.gen + 1, NextId(f) + i, names[i])),
          f.dangling)
  }

  /** The list shows, in order, every entry with a path among the first forty. */
  lemma RebuildShowsFirstForty(f: Files, paths: seq<string>)
    ensures Rebuild(f, paths).names == Kept(if |paths| <= 40 then paths else paths[..40])
    ensures forall name :: name in Rebuild(f, paths).names <==> name != "" && name in (if |paths| <= 40 then paths else paths[..40])
  {
    var first := if |paths| <= 40 then paths else paths[..40];
    forall name
      ensures name in Kept(first) <==> name != "" && name in first
    {
      KeptMembers(first, name);
    }
  }

  lemma {:induction false} KeptMembers(paths: seq<string>, name: string)
    ensures name in Kept(paths) <==> name != "" && name in paths
  {
    if paths != [] {
      KeptMembers(paths[1..], name);
    }
  }

  /** Names, rows and requests sent after the entries `done` of a reply. */
  ghost predicate Building(f: Files, done: seq<string>, names: seq<string>, rows: seq<Row>, asked: seq<Call>) {
    && names == Kept(done) && |rows| == |names| && |asked| == |names|
    && (forall i :: 0 <= i < |names| ==> rows[i] == Row(NextId(f) + i, i, None))
    && (forall i :: 0 <= i < |names| ==> asked[i] == Call(f.gen + 1, NextId(f) + i, names[i]))
  }

  lemma BuildStart(f: Files)
    ensures Building(f, [], [], [], [])
  {
  }

  lemma BuildStep(f: Files, done: seq<string>, path: string, names: seq<string>, rows: seq<Row>, asked: seq<Call>)
    requires Building(f, done, names, rows, asked)
    ensures path == "" ==> Building(f, done + [path], names, rows, asked)
    ensures path != "" ==>
              Building(f, done + [path], names + [path], rows + [Row(NextId(f) + |names|, |names|, None)],
                       asked + [Call(f.gen + 1, NextId(f) + |names|, path)])
  {
    hide Kept;
    KeptSnoc(done, path);
  }

  /** A list built entry by entry is the rebuilt list. */
  lemma BuiltList(f: Files, paths: seq<string>, names: seq<string>, rows: seq<Row>, asked: seq<Call>)
    requires Building(f, FirstRows(paths), names, rows, asked)
    ensures Rebuild(f, paths) == Files(names, rows, NextId(f), f.gen + 1, f.calls + asked, f.dangling)
  {
    hide Kept, FirstRows;
    assert rows == seq(|names|, i requires 0 <= i < |names| => Row(NextId(f) + i, i, None));
    assert asked == seq(|names|, i requires 0 <= i < |names| => Call(f.gen + 1, NextId(f) + i, names[i]));
    var g := Rebuild(f, paths);
    assert g.rows == rows;
    assert g.calls == f.calls + asked;
  }

  function FindRow(rows: seq<Row>, id: nat): (r: Option<nat>)
    ensures r.Some? ==> r.value < |rows| && rows[r.value].id == id
    ensures r.None? ==> forall i :: 0 <= i < |rows| ==> rows[i].id != id
  {
    if rows == [] then None
    else if rows[|rows| - 1].id == id then Some(|rows| - 1)
    else FindRow(rows[..|rows| - 1], id)
  }

  /** The reply to call `k`: ignored when the captured generation differs from the register. */
  function ApplyMeta(f: Files, k: nat, text: string): Files
    requires k < |f.calls|
  {
    var c := f.calls[k];
    var rest := f.(calls := f.calls[..k] + f.calls[k + 1..]);
    if c.gen % WRAP != f.gen % WRAP then rest
    else
      match FindRow(f.rows, c.row)
      case Some(i) => rest.(rows := f.rows[i := f.rows[i].(meta := Some(text))])
      case None => rest.(dangling := true)
  }

  ghost predicate RowsMatch(f: Files) {
    && |f.rows| == |f.names|
    && forall i :: 0 <= i < |f.rows| ==> f.rows[i].index == i && f.rows[i].id == f.base + i
  }

  /** A current call names a current row showing its path; an older call names a row that is gone. */
  ghost predicate CallMatches(f: Files, c: Call) {
    && c.gen <= f.gen
    && (c.gen == f.gen ==> f.base <= c.row < f.base + |f.names| && f.names[c.row - f.base] == c.path)
    && (c.gen < f.gen ==> c.row < f.base)
  }

  ghost predicate Valid(f: Files) {
    && RowsMatch(f)
    && (forall k :: 0 <= k < |f.calls| ==> CallMatches(f, f.calls[k]))
    && (f.dangling ==> f.gen >= WRAP)
  }

  lemma RebuildValid(f: Files, paths: seq<string>)
    requires Valid(f)
    ensures Valid(Rebuild(f, paths))
  {
    var g := Rebuild(f, paths);
    forall k | 0 <= k < |g.calls|
      ensures CallMatches(g, g.calls[k])
    {
      if k < |f.calls| {
        assert g.calls[k] == f.calls[k] && CallMatches(f, f.calls[k]);
      }
    }
  }

  lemma CloseCalls(c: nat, g: nat)
    requires c < g < WRAP
    ensures c % WRAP != g % WRAP
  {
  }

  lemma MetaValid(f: Files, k: nat, text: string)
    requires Valid(f) && k < |f.calls|
    ensures Valid(ApplyMeta(f, k, text))
  {
    var g := ApplyMeta(f, k, text);
    var c := f.calls[k];
    assert CallMatches(f, c);
    forall j | 0 <= j < |g.calls|
      ensures CallMatches(g, g.calls[j])
    {
      assert CallMatches(f, f.calls[if j < k then j else j + 1]);
    }
    assert c.gen == f.gen ==> f.rows[c.row - f.base].id == c.row;
    if c.gen < f.gen < WRAP {
      CloseCalls(c.gen, f.gen);
    }
  }

  /** A metadata reply of the current list writes to exactly the row that shows its path. */
  lemma MetaReachesItsRow(f: Files, k: nat, text: string)
    requires Valid(f) && k < |f.calls| && f.calls[k].gen == f.gen
    ensures var c, g := f.calls[k], ApplyMeta(f, k, text);
            var i := c.row - f.base;
            && 0 <= i < |f.rows| && f.names[i] == c.path
            && g.rows == f.rows[i := f.rows[i].(meta := Some(text))]
            && g.names == f.names && g.dangling == f.dangling
  {
    var c := f.calls[k];
    assert CallMatches(f, c);
    assert f.rows[c.row - f.base].id == c.row;
  }

  /** A reply for an older list touches no row, unless the 32-bit generation has come round to it. */
  lemma LateMetaIgnored(f: Files, k: nat, text: string)
    requires Valid(f) && k < |f.calls| && f.calls[k].gen < f.gen
    ensures var c, g := f.calls[k], ApplyMeta(f, k, text);
            && g.rows == f.rows && g.names == f.names
            && (g.dangling <==> f.dangling || (f.gen - c.gen) % WRAP == 0)
  {
    var c := f.calls[k];
    assert CallMatches(f, c);
  }

  // ---- a list rebuilt until the generation comes round ----

  lemma FirstRebuild(path: string)
    requires path != ""
    ensures var f := Rebuild(Empty, [path]); f.gen == 1 && f.calls == [Call(1, 0, path)] && !f.dangling
  {
    assert [path][1..] == [];
    assert Kept([path]) == [path];
    assert Rebuild(Empty, [path]).calls == [Call(1, 0, path)];
  }

  lemma EmptyRebuild(f: Files)
    ensures var g := Rebuild(f, []); g.gen == f.gen + 1 && g.calls == f.calls && g.rows == [] && g.dangling == f.dangling
  {
    assert Rebuild(f, []).calls == f.calls;
  }

  lemma OneMore(n: nat)
    ensures (n + 1) % WRAP == 1 % WRAP <==> n % WRAP == 0
  {
  }

  lemma LateMetaDangles(f: Files, text: string)
    requires f.rows == [] && !f.dangling && f.gen > 0 && |f.calls| == 1 && f.calls[0].gen == 1
    ensures ApplyMeta(f, 0, text).dangling <==> (f.gen - 1) % WRAP == 0
  {
    OneMore(f.gen - 1);
  }
}

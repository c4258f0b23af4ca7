/** The configuration loader: lines, typed values and the one-pass loading loop. */
module IniConfig {
  import opened Text

  datatype Value = Bool(flag: bool) | Int(number: int) | Str(text: string)

  type Fields = map<string, Value>

  /** A top-level member of the loaded tree: a section's object or a group's array. */
  datatype Node = Object(fields: Fields) | Array(items: seq<Fields>)

  type Tree = map<string, Node>

  // ---- values ----

  predicate Quoted(s: string) {
    |s| >= 2 && s[0] == s[|s| - 1] && s[0] in {'"', '\''}
  }

  function Unquote(s: string): (r: string) {
    if Quoted(s) then s[1..|s| - 1] else s
  }

  function LowerChar(c: char): char {
    if 'A' <= c <= 'Z' then ((c as int) + 32) as char else c
  }

  function Lower(s: string): (r: string)
    ensures |r| == |s| && forall i :: 0 <= i < |s| ==> r[i] == LowerChar(s[i])
  {
    if s == "" then "" else Lower(s[..|s| - 1]) + [LowerChar(s[|s| - 1])]
  }

  function ParseBool(s: string): Option<bool> {
    var t := Lower(s);
    if t in {"true", "1", "yes", "on"} then Some(true)
    else if t in {"false", "0", "no", "off"} then Some(false)
    else None
  }

  function DropSpaces(s: string): (r: string)
    ensures |r| <= |s|
  {
    if s != "" && IsSpace(s[0]) then DropSpaces(s[1..]) else s
  }

  const INT64_MIN: int := -0x8000_0000_0000_0000
  const INT64_MAX: int := 0x7FFF_FFFF_FFFF_FFFF

  /** strtoll in base ten over the whole C string: blanks, a sign, digits, in 64-bit range. */
  function ParseInt(s: string): Option<int> {
    var t := DropSpaces(CStr(s));
    var signed := t != "" && (t[0] == '-' || t[0] == '+');
    var digits := if signed then t[1..] else t;
    if digits == "" || !AllDigits(digits) then None
    else
      var v := if signed && t[0] == '-' then 0 - Val(digits) else Val(digits);
      if INT64_MIN <= v <= INT64_MAX then Some(v) else None
  }

  function Typed(s: string): Value {
    match ParseBool(s)
    case Some(b) => Bool(b)
    case None =>
      match ParseInt(s)
      case Some(i) => Int(i)
      case None => Str(s)
  }

  // ---- lines ----

  /** The lines that getline delivers: no line after a final newline. */
  function SplitLines(text: string): seq<string> {
    if text == "" then []
    else
      var k := Find(text, {'\n'}, 0);
      [text[..k]] + if k < |text| then SplitLines(text[k + 1..]) else []
  }

  function PopCr(line: string): string {
    if line != "" && line[|line| - 1] == '\r' then line[..|line| - 1] else line
  }

  /** What is left of a line without its return, comment and outer blanks. */
  function Core(line: string): (r: string)
    ensures Tight(r, true)
  {
    var s := PopCr(line);
    Trim(s[..Find(s, {'#', ';'}, 0)], true)
  }

  datatype Line = Skip | Section(name: string) | Group(name: string, id: string) | Entry(key: string, val: string)

  predicate Bracketed(s: string) {
    s != "" && s[0] == '[' && s[|s| - 1] == ']'
  }

  function ReadHeader(inside: string): Line {
    var sp := Find(inside, {' ', '\t'}, 0);
    if sp == |inside| then Section(inside)
    else Group(inside[..sp], Unquote(Trim(inside[sp + 1..], true)))
  }

  function ReadCore(s: string): Line {
    if s == "" then Skip
    else if Bracketed(s) then ReadHeader(Trim(s[1..|s| - 1], true))
    else
      var pos := Find(s, {'=', ':'}, 0);
      if pos == |s| then Skip else Entry(Trim(s[..pos], true), Unquote(Trim(s[pos + 1..], true)))
  }

  function ReadLine(line: string): Line {
    ReadCore(Core(line))
  }

  // ---- the pass over the lines ----

  /** What the loop carries from line to line. */
  datatype Cursor = Cursor(out: Tree, section: string, group: string, id: string, obj: Fields)

  const START := Cursor(map[], "", "", "", map[])

  /** `out[name].push_back(item)`: None is the exception for a name that holds an object. */
  function Push(out: Tree, name: string, item: Fields): Option<Tree> {
    if name !in out then Some(out[name := Array([item])])
    else if out[name].Array? then Some(out[name := Array(out[name].items + [item])])
    else None
  }

  /** `out[name][key] = val`: None is the exception for a name that holds an array. */
  function Put(out: Tree, name: string, key: string, val: Value): Option<Tree> {
    if name !in out then Some(out[name := Object(map[key := val])])
    else if out[name].Object? then Some(out[name := Object(out[name].fields[key := val])])
    else None
  }

  function Flush(c: Cursor): Option<Tree> {
    if c.group != "" && c.id != "" then Push(c.out, c.group, c.obj["id" := Str(c.id)]) else Some(c.out)
  }

  function Feed(c: Cursor, line: Line): Option<Cursor> {
    match line
    case Skip => Some(c)
    case Section(name) =>
      var out := Flush(c);
      if out.None? then None else Some(Cursor(out.value, name, "", "", map[]))
    case Group(name, id) =>
      var out := Flush(c);
      if out.None? then None else Some(Cursor(out.value, "", name, id, map[]))
    case Entry(key, val) =>
      if c.group != "" && c.id != "" then Some(c.(obj := c.obj[key := Typed(val)]))
      else if c.section != "" then
        var out := Put(c.out, c.section, key, Typed(val));
        if out.None? then None else Some(c.(out := out.value))
      else Some(c)
  }

  function FeedAll(lines: seq<string>): Option<Cursor> {
    if lines == [] then Some(START)
    else
      var c := FeedAll(lines[..|lines| - 1]);
      if c.None? then None else Feed(c.value, ReadLine(lines[|lines| - 1]))
  }

  function LoadLines(lines: seq<string>): Option<Tree> {
    var c := FeedAll(lines);
    if c.None? then None else Flush(c.value)
  }

  /** The loaded tree, or None where the JSON library throws. */
  function Load(text: string): Option<Tree> {
    LoadLines(SplitLines(text))
  }

  // ---- the loops ----

  method TrimText(s: string) returns (r: string)
    ensures r == Trim(s, true)
  {
    var start, len := TrimLoop(s);
    r := s[start..start + len];
  }

  method LowerLoop(s: string) returns (t: string)
    ensures t == Lower(s)
  {
    t := "";
    for i := 0 to |s|
      invariant t == Lower(s[..i])
    {
      assert s[..i + 1][..i] == s[..i];
      t := t + [LowerChar(s[i])];
    }
    assert s[..|s|] == s;
  }

  method SetTyped(obj: Fields, key: string, val: string) returns (r: Fields)
    ensures r == obj[key := Typed(val)]
  {
    var t := LowerLoop(val);
    if t == "true" || t == "1" || t == "yes" || t == "on" {
      r := obj[key := Bool(true)];
    } else if t == "false" || t == "0" || t == "no" || t == "off" {
      r := obj[key := Bool(false)];
    } else {
      var n := ParseInt(val);
      r := obj[key := if n.Some? then Int(n.value) else Str(val)];
    }
  }

  /** The comment test, the cut and the trim; the early test never changes the outcome. */
  method Strip(line: string) returns (skip: bool, s: string)
    ensures skip <==> Core(line) == ""
    ensures !skip ==> s == Core(line)
  {
    hide Trim;
    s := PopCr(line);
    var i := 0;
    while i < |s| && IsSpace(s[i])
      invariant i <= |s| && AllBlank(s[..i], true)
    {
      i := i + 1;
    }
    ghost var cut := Find(s, {'#', ';'}, 0);
    if i < |s| && (s[i] == '#' || s[i] == ';') {
      assert cut == i;
      TrimPadded(s[..i], "", "", true);
      assert s[..i] + "" + "" == s[..i];
      return true, s;
    }
    var cpos := Find(s, {'#', ';'}, 0);
    s := TrimText(s[..cpos]);
    skip := s == "";
  }

  /** One header or entry line, split into its parts. */
  method SplitLine(s: string) returns (line: Line)
    requires s != ""
    ensures line == ReadCore(s)
  {
    hide Find, Trim, Unquote;
    if s[0] == '[' && s[|s| - 1] == ']' {
      var inside := TrimText(s[1..|s| - 1]);
      var sp := Find(inside, {' ', '\t'}, 0);
      if sp == |inside| {
        return Section(inside);
      }
      var rest := TrimText(inside[sp + 1..]);
      return Group(inside[..sp], Unquote(rest));
    }
    var pos := Find(s, {'=', ':'}, 0);
    if pos == |s| {
      return Skip;
    }
    var key := TrimText(s[..pos]);
    var val := TrimText(s[pos + 1..]);
    return Entry(key, Unquote(val));
  }

  /** The loader's own state, updated line by line. */
  class Loader {
    var out: Tree
    var curSection: string
    var curGroup: string
    var curId: string
    var curObj: Fields

    constructor ()
      ensures At() == START
    {
      out, curSection, curGroup, curId, curObj := map[], "", "", "", map[];
    }

    function At(): Cursor
      reads this
    {
      Cursor(out, curSection, curGroup, curId, curObj)
    }

    method FlushGroup() returns (ok: bool)
      modifies this
      ensures ok == Flush(old(At())).Some?
      ensures ok ==> At() == Cursor(Flush(old(At())).value, old(curSection), "", "", map[])
    {
      if curGroup != "" && curId != "" {
        curObj := curObj["id" := Str(curId)];
        if curGroup !in out {
          out := out[curGroup := Array([curObj])];
        } else if out[curGroup].Array? {
          out := out[curGroup := Array(out[curGroup].items + [curObj])];
        } else {
          return false;
        }
      }
      curGroup, curId, curObj := "", "", map[];
      return true;
    }

    method TakeEntry(key: string, val: string) returns (ok: bool)
      modifies this
      ensures ok == Feed(old(At()), Entry(key, val)).Some?
      ensures ok ==> At() == Feed(old(At()), Entry(key, val)).value
    {
      hide Typed;
      if curGroup != "" && curId != "" {
        curObj := SetTyped(curObj, key, val);
      } else if curSection != "" {
        if curSection in out && out[curSection].Array? {
          return false;
        }
        var obj := if curSection in out then out[curSection].fields else map[];
        obj := SetTyped(obj, key, val);
        out := out[curSection := Object(obj)];
      }
      return true;
    }

    method TakeLine(line: string) returns (ok: bool)
      modifies this
      ensures ok == Feed(old(At()), ReadLine(line)).Some?
      ensures ok ==> At() == Feed(old(At()), ReadLine(line)).value
    {
      hide ReadCore, Core, Flush, Typed, Put;
      var skip, s := Strip(line);
      if skip {
        SkipsEmpty();
        return true;
      }
      var parts := SplitLine(s);
      match parts {
        case Skip =>
          return true;
        case Section(name) =>
          ok := FlushGroup();
          curSection := name;
        case Group(name, id) =>
          ok := FlushGroup();
          curSection, curGroup, curId := "", name, id;
        case Entry(key, val) =>
          ok := TakeEntry(key, val);
      }
    }
  }

  lemma SkipsEmpty()
    ensures ReadCore("") == Skip
  {
  }

  method LoadIni(text: string) returns (r: Option<Tree>)
    ensures r == Load(text)
  {
    hide Feed, ReadLine, Flush, FeedAll, SplitLines, Find;
    var loader := new Loader();
    ghost var read: seq<string> := [];
    var pos := 0;
    assert text[0..] == text;
    assert read + SplitLines(text) == SplitLines(text);
    NothingRead();
    while pos < |text|
      invariant pos <= |text| && fresh(loader)
      invariant SplitLines(text) == read + SplitLines(text[pos..])
      invariant FeedAll(read) == Some(loader.At())
    {
      var end := Find(text, {'\n'}, pos);
      FindShifts(text, pos);
      var line := text[pos..end];
      pos := if end < |text| then end + 1 else end;
      FeedSnoc(read, line);
      var ok := loader.TakeLine(line);
      read := read + [line];
      assert SplitLines(text) == read + SplitLines(text[pos..]);
      if !ok {
        FailureSticks(read, SplitLines(text[pos..]));
        return None;
      }
    }
    assert text[pos..] == "";
    NothingRead();
    assert read + [] == read;
    var ok := loader.FlushGroup();
    r := if ok then Some(loader.out) else None;
  }

  lemma NothingRead()
    ensures SplitLines("") == [] && FeedAll([]) == Some(START)
  {
  }

  lemma FeedSnoc(read: seq<string>, line: string)
    ensures FeedAll(read + [line]) == if FeedAll(read).None? then None else Feed(FeedAll(read).value, ReadLine(line))
  {
    hide Feed, ReadLine;
    assert (read + [line])[..|read|] == read;
  }

  lemma {:induction false} FindInTail(text: string, pos: nat, i: nat)
    requires pos + i <= |text|
    ensures pos + Find(text[pos..], {'\n'}, i) == Find(text, {'\n'}, pos + i)
    decreases |text| - i
  {
    if pos + i < |text| && text[pos + i] !in {'\n'} {
      FindInTail(text, pos, i + 1);
    }
  }

  lemma SplitOnce(text: string)
    requires text != ""
    ensures var k := Find(text, {'\n'}, 0);
            SplitLines(text) == [text[..k]] + if k < |text| then SplitLines(text[k + 1..]) else []
  {
    hide Find;
  }

  lemma FindShifts(text: string, pos: nat)
    requires pos < |text|
    ensures var end := Find(text, {'\n'}, pos);
            && SplitLines(text[pos..]) == [text[pos..end]] + SplitLines(text[if end < |text| then end + 1 else end..])
  {
    hide Find, SplitLines;
    var end, rest := Find(text, {'\n'}, pos), text[pos..];
    FindInTail(text, pos, 0);
    SplitOnce(rest);
    assert rest[..end - pos] == text[pos..end];
    if end < |text| {
      assert rest[end - pos + 1..] == text[end + 1..];
    } else {
      assert text[end..] == "";
      NothingRead();
    }
  }

  lemma {:induction false} FailureSticks(a: seq<string>, b: seq<string>)
    ensures FeedAll(a).None? ==> FeedAll(a + b).None?
    decreases |b|
  {
    hide Feed, ReadLine;
    if b == [] {
      assert a + b == a;
    } else {
      assert (a + b)[..|a + b| - 1] == a + b[..|b| - 1];
      FailureSticks(a, b[..|b| - 1]);
    }
  }
}

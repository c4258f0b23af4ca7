/**
 What the text of a value means, said without the functions that read it: the eight boolean words in
 any case, then a 64-bit integer filling the whole C string, and otherwise a string.
 */
module IniValues {
  import opened Text
  import opened IniConfig

  // ---- booleans ----

  /** The same letters, capitals in `s` or not. */
  ghost predicate SpelledAs(s: string, word: string) {
    |s| == |word| && forall i :: 0 <= i < |s| ==> s[i] == word[i] || ('A' <= s[i] <= 'Z' && s[i] as int + 32 == word[i] as int)
  }


  ghost predicate BoolWord(s: string, b: bool) {
    exists word :: word in (if b then {"true", "1", "yes", "on"} else {"false", "0", "no", "off"}) && SpelledAs(s, word)
  }

  /** Lower-casing gives a word without capitals exactly when the word is spelled so in some case. */
  lemma LowerSpells(s: string, word: string)
    requires forall i :: 0 <= i < |word| ==> !('A' <= word[i] <= 'Z')
    ensures Lower(s) == word <==> SpelledAs(s, word)
  {
    if SpelledAs(s, word) {
      assert Lower(s) == word;
    }
    if Lower(s) == word {
      forall i | 0 <= i < |s|
        ensures s[i] == word[i] || ('A' <= s[i] <= 'Z' && s[i] as int + 32 == word[i] as int)
      {
        assert Lower(s)[i] == LowerChar(s[i]);
      }
    }
  }

  lemma ParseBoolIff(s: string, b: bool)
    ensures ParseBool(s) == Some(b) <==> BoolWord(s, b)
  {
    hide Lower, SpelledAs;
    LowerSpells(s, "true");
    LowerSpells(s, "1");
    LowerSpells(s, "yes");
    LowerSpells(s, "on");
    LowerSpells(s, "false");
    LowerSpells(s, "0");
    LowerSpells(s, "no");
    LowerSpells(s, "off");
  }

  // ---- integers ----

  /** `c` is blanks, an optional sign and a run of digits, and `v` the number they write. */
  ghost predicate Writes(c: string, blanks: string, sign: string, digits: string, v: int) {
    && c == blanks + sign + digits && AllBlank(blanks, true) && sign in {"", "-", "+"}
    && digits != "" && AllDigits(digits)
    && v == if sign == "-" then 0 - Val(digits) else Val(digits)
  }

  /** The whole C string of `s` is the 64-bit integer `v`. */
  ghost predicate WholeInteger(s: string, v: int) {
    && -9223372036854775808 <= v <= 9223372036854775807
    && exists blanks, sign, digits :: Writes(CStr(s), blanks, sign, digits, v)
  }

  lemma {:induction false} DropSpacesSplits(c: string) returns (blanks: string)
    ensures c == blanks + DropSpaces(c) && AllBlank(blanks, true)
  {
    if c != "" && IsSpace(c[0]) {
      var rest := DropSpacesSplits(c[1..]);
      blanks := [c[0]] + rest;
      assert c == [c[0]] + c[1..];
    } else {
      blanks := "";
      assert c == "" + c;
    }
  }

  lemma {:induction false} DropSpacesPadded(blanks: string, t: string)
    requires AllBlank(blanks, true) && t != "" && !IsSpace(t[0])
    ensures DropSpaces(blanks + t) == t
  {
    if blanks == "" {
      assert blanks + t == t;
    } else {
      assert (blanks + t)[1..] == blanks[1..] + t;
      DropSpacesPadded(blanks[1..], t);
    }
  }

  lemma ParsedIsWritten(s: string)
    requires ParseInt(s).Some?
    ensures WholeInteger(s, ParseInt(s).value)
  {
    hide CStr, Val, DropSpaces;
    var c := CStr(s);
    var blanks := DropSpacesSplits(c);
    var t := DropSpaces(c);
    var signed := t[0] == '-' || t[0] == '+';
    var sign := if signed then [t[0]] else "";
    var digits := if signed then t[1..] else t;
    assert t == sign + digits;
    assert c == blanks + sign + digits;
    assert Writes(c, blanks, sign, digits, ParseInt(s).value);
  }

  lemma WrittenIsParsed(s: string, blanks: string, sign: string, digits: string, v: int)
    requires Writes(CStr(s), blanks, sign, digits, v)
    ensures ParseInt(s) == if -9223372036854775808 <= v <= 9223372036854775807 then Some(v) else None
  {
    hide CStr, Val, DropSpaces;
    var t := sign + digits;
    assert blanks + sign + digits == blanks + t;
    assert sign == "" ==> t == digits;
    DropSpacesPadded(blanks, t);
    assert sign != "" ==> t[1..] == digits;
  }

  /** The integer reader accepts exactly the texts that are a 64-bit integer as a whole. */
  lemma ParseIntIff(s: string, v: int)
    ensures ParseInt(s) == Some(v) <==> WholeInteger(s, v)
  {
    hide ParseInt, Writes;
    if ParseInt(s) == Some(v) {
      ParsedIsWritten(s);
    }
    if WholeInteger(s, v) {
      var blanks, sign, digits :| Writes(CStr(s), blanks, sign, digits, v);
      WrittenIsParsed(s, blanks, sign, digits, v);
    }
  }

  /** Before a NUL the C string is the text; a NUL ends it. */
  lemma CStrIs(a: string, b: string)
    requires Avoids(a, {'\0'})
    ensures CStr(a) == a && CStr(a + ['\0'] + b) == a
  {
    FindNone(a, {'\0'});
    FindAfter(a, '\0', b, {'\0'});
  }

  // ---- typed values ----

  /** Exactly what a text is loaded as: a boolean word, else a whole integer, else the string. */
  lemma TypedIff(s: string, v: Value)
    ensures Typed(s) == v <==>
              match v
              case Bool(b) => BoolWord(s, b)
              case Int(n) => !BoolWord(s, true) && !BoolWord(s, false) && WholeInteger(s, n)
              case Str(t) => t == s && !BoolWord(s, true) && !BoolWord(s, false) && forall n :: !WholeInteger(s, n)
  {
    hide ParseBool, ParseInt, BoolWord, WholeInteger;
    ParseBoolIff(s, true);
    ParseBoolIff(s, false);
    forall n
      ensures ParseInt(s) == Some(n) <==> WholeInteger(s, n)
    {
      ParseIntIff(s, n);
    }
    if ParseBool(s).Some? {
      assert ParseBool(s) == Some(ParseBool(s).value);
    }
    assert ParseInt(s).Some? ==> ParseInt(s) == Some(ParseInt(s).value) && WholeInteger(s, ParseInt(s).value);
  }

  /** A character that is no blank, digit or sign keeps a text from being an integer. */
  lemma ForeignIsNoInteger(s: string, k: nat, v: int)
    requires k < |CStr(s)| && !IsSpace(CStr(s)[k]) && !IsDigit(CStr(s)[k]) && CStr(s)[k] !in {'-', '+'}
    ensures !WholeInteger(s, v)
  {
    hide CStr, Val;
  }
}

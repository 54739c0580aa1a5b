/** Lists inside a CSV field: the Python engine's quoted array literals (extractor/extractor.py, csv_field)
    and the Kafka engine's plain lists of column names (CsvEncoder.java, identifierArray), both read as
    PostgreSQL reads a one-dimensional text[] literal. */
module CsvArrays {
  import opened Options
  import opened CsvCodec

  function EscapedChar(c: char): string { if c == '\\' then "\\\\" else if c == '"' then "\\\"" else [c] }

  function Escaped(s: string): string { if s == [] then [] else EscapedChar(s[0]) + Escaped(s[1..]) }

  lemma {:induction false} ReplaceBoth(a: string, b: string, c: char, put: string)
    ensures Replace(a + b, c, put) == Replace(a, c, put) + Replace(b, c, put)
  {
    if a == [] { assert a + b == b; }
    else {
      assert (a + b)[1..] == a[1..] + b;
      ReplaceBoth(a[1..], b, c, put);
    }
  }

  /** Backslashes first, then quotes: the two replacements together escape each character once. */
  lemma {:induction false} EscapeIsPerChar(s: string)
    ensures Escape(s) == Escaped(s)
  {
    if s == [] {
    } else {
      var c, rest := s[0], Replace(s[1..], '\\', "\\\\");
      var head := if c == '\\' then "\\\\" else [c];
      assert Replace(s, '\\', "\\\\") == head + rest;
      ReplaceBoth(head, rest, '"', "\\\"");
      HeadEscapes(c);
      EscapeIsPerChar(s[1..]);
    }
  }

  lemma HeadEscapes(c: char)
    ensures Replace(if c == '\\' then "\\\\" else [c], '"', "\\\"") == EscapedChar(c)
  {
    var none: string := [];
    assert Replace(none, '"', "\\\"") == [];
    if c == '\\' {
      assert Replace("\\", '"', "\\\"") == "\\" by { assert "\\"[1..] == none; }
      assert "\\\\"[1..] == "\\";
      assert Replace("\\\\", '"', "\\\"") == "\\" + Replace("\\", '"', "\\\"");
    } else {
      assert [c][1..] == none;
    }
  }

  // ---- Reading array literals ----

  predicate Blank(c: char) { c == ' ' || '\t' <= c <= '\r' }

  function SkipBlanks(s: string): (r: string)
    ensures |r| <= |s| && (|r| == |s| ==> r == s) && (r != [] ==> !Blank(r[0]))
  {
    if s != [] && Blank(s[0]) then SkipBlanks(s[1..]) else s
  }

  /** The rest of a quoted element, a backslash taking the next character as it is. */
  function TakeItem(s: string): (r: Option<(string, string)>)
    ensures r.Some? ==> |r.value.0| + |r.value.1| < |s|
  {
    if s == [] then None
    else if s[0] == '"' then Some(([], s[1..]))
    else if s[0] == '\\' then
      if |s| == 1 then None
      else
        var more := TakeItem(s[2..]);
        if more.None? then None else Some(([s[1]] + more.value.0, more.value.1))
    else
      var more := TakeItem(s[1..]);
      if more.None? then None else Some(([s[0]] + more.value.0, more.value.1))
  }

  /** An element ends at a comma or at the closing brace. */
  predicate Closes(s: string) { s != [] && (s[0] == ',' || s[0] == '}') }

  /** A character of an unquoted element; an escaped one is never trimmed. */
  datatype Mark = Mark(c: char, escaped: bool)

  /** An unquoted element up to its end. A quote or an opening brace inside one is malformed. */
  function TakeRaw(s: string): (r: Option<(seq<Mark>, string)>)
    ensures r.Some? ==> |r.value.0| + |r.value.1| <= |s| && Closes(r.value.1)
    ensures r.Some? && |r.value.0| + |r.value.1| == |s| ==> forall m | m in r.value.0 :: !m.escaped && !Special(m.c)
  {
    if s == [] then None
    else if Closes(s) then Some(([], s))
    else if s[0] == '"' || s[0] == '{' then None
    else if s[0] == '\\' then
      if |s| == 1 then None
      else
        var more := TakeRaw(s[2..]);
        if more.None? then None else Some(([Mark(s[1], true)] + more.value.0, more.value.1))
    else
      var more := TakeRaw(s[1..]);
      if more.None? then None else Some(([Mark(s[0], false)] + more.value.0, more.value.1))
  }

  predicate Special(c: char) { c == ',' || c == '{' || c == '}' || c == '"' || c == '\\' }

  /** Without the unescaped blanks at the end. */
  function Trimmed(raw: seq<Mark>): (r: seq<Mark>)
    ensures |r| <= |raw| && (|r| == |raw| ==> r == raw)
    ensures r != [] ==> r[|r| - 1].escaped || !Blank(r[|r| - 1].c)
  {
    if raw != [] && !raw[|raw| - 1].escaped && Blank(raw[|raw| - 1].c) then Trimmed(raw[..|raw| - 1]) else raw
  }

  function Chars(raw: seq<Mark>): (s: string)
    ensures |s| == |raw| && forall i | 0 <= i < |s| :: s[i] == raw[i].c
  {
    if raw == [] then [] else [raw[0].c] + Chars(raw[1..])
  }

  /** The keyword for a missing element, in any case. */
  predicate IsNull(s: string) {
    |s| == 4 && s[0] in {'n', 'N'} && s[1] in {'u', 'U'} && s[2] in {'l', 'L'} && s[3] in {'l', 'L'}
  }

  /** The value of an unquoted element: none is empty, and an unescaped NULL is a missing one. */
  function RawValue(raw: seq<Mark>): Option<Option<string>> {
    var t := Trimmed(raw);
    if t == [] then None
    else if IsNull(Chars(t)) && (forall m | m in t :: !m.escaped) then Some(None)
    else Some(Some(Chars(t)))
  }

  /** One element, quoted or not, and the rest from its comma or brace on. */
  function TakeElement(s: string): (r: Option<(Option<string>, string)>)
    ensures r.Some? ==> |r.value.1| <= |s| && Closes(r.value.1)
  {
    var t := SkipBlanks(s);
    if t != [] && t[0] == '"' then
      var item := TakeItem(t[1..]);
      if item.None? then None
      else
        var rest := SkipBlanks(item.value.1);
        if Closes(rest) then Some((Some(item.value.0), rest)) else None
    else
      var raw := TakeRaw(t);
      if raw.None? then None
      else
        var v := RawValue(raw.value.0);
        if v.None? then None else Some((v.value, raw.value.1))
  }

  function TakeElements(s: string): Option<seq<Option<string>>>
    decreases |s|
  {
    var e := TakeElement(s);
    if e.None? then None
    else if e.value.1[0] == ',' then
      var more := TakeElements(e.value.1[1..]);
      if more.None? then None else Some([e.value.0] + more.value)
    else if e.value.1 == "}" then Some([e.value.0])
    else None
  }

  function ReadArray(s: string): Option<seq<Option<string>>> {
    if s == [] || s[0] != '{' then None
    else if SkipBlanks(s[1..]) == "}" then Some([])
    else TakeElements(s[1..])
  }

  /** A list without missing elements. */
  function Given(items: seq<string>): (es: seq<Option<string>>)
    ensures |es| == |items| && forall i | 0 <= i < |es| :: es[i] == Some(items[i])
  {
    if items == [] then [] else [Some(items[0])] + Given(items[1..])
  }

  // ---- Quoted lists ----

  lemma {:induction false} ItemBack(s: string, rest: string)
    ensures TakeItem(Escaped(s) + "\"" + rest) == Some((s, rest))
  {
    if s == [] {
      assert Escaped(s) + "\"" + rest == "\"" + rest;
      assert ("\"" + rest)[1..] == rest;
    } else {
      ItemBack(s[1..], rest);
      var tail := Escaped(s[1..]) + "\"" + rest;
      var head := EscapedChar(s[0]);
      assert Escaped(s) + "\"" + rest == head + tail;
      assert (head + tail)[|head|..] == tail;
      assert s == [s[0]] + s[1..];
    }
  }

  lemma QuotedBack(s: string, rest: string)
    requires Closes(rest)
    ensures TakeElement("\"" + Escape(s) + "\"" + rest) == Some((Some(s), rest))
  {
    EscapeIsPerChar(s);
    ItemBack(s, rest);
    var text := "\"" + Escape(s) + "\"" + rest;
    assert text[0] == '"' && text[1..] == Escaped(s) + "\"" + rest;
    assert SkipBlanks(text) == text && SkipBlanks(rest) == rest;
  }

  lemma {:induction false} ItemsBack(items: seq<string>)
    requires items != []
    ensures TakeElements(Join(ArrayItems(items), ",") + "}") == Some(Given(items))
  {
    var first := items[0];
    var text := Join(ArrayItems(items), ",") + "}";
    if |items| == 1 {
      assert items[1..] == [] && ArrayItems(items) == ["\"" + Escape(first) + "\""];
      assert text == "\"" + Escape(first) + "\"" + "}";
      QuotedBack(first, "}");
      assert Given(items) == [Some(first)];
    } else {
      var tail := Join(ArrayItems(items[1..]), ",") + "}";
      assert ArrayItems(items)[1..] == ArrayItems(items[1..]);
      assert text == "\"" + Escape(first) + "\"" + ("," + tail);
      QuotedBack(first, "," + tail);
      assert ("," + tail)[1..] == tail;
      ItemsBack(items[1..]);
    }
  }

  /** Every list of strings survives the inner escaping. */
  lemma ArrayRoundTrip(items: seq<string>)
    ensures ReadArray(ArrayText(items)) == Some(Given(items))
  {
    if items == [] {
      assert ArrayText(items) == "{}" && "{}"[1..] == "}";
    } else {
      ItemsBack(items);
      var inner := Join(ArrayItems(items), ",");
      assert ArrayText(items)[1..] == inner + "}";
      assert inner[0] == '"' && SkipBlanks(inner + "}") == inner + "}";
    }
  }

  /** A list in a CSV field survives both layers of quoting, wherever it stands in its row. */
  lemma ListSurvives(items: seq<string>, rest: string)
    requires Ends(rest)
    ensures var f := TakeField(CsvField(List(items)) + rest);
            f.Some? && f.value.1 == rest && f.value.0.Some? && ReadArray(f.value.0.value) == Some(Given(items))
  {
    FieldBack(List(items), rest);
    ArrayRoundTrip(items);
  }

  // ---- Plain lists of names ----

  function IdentifierArray(names: seq<string>): Option<string> {
    if names == [] then None else Some("{" + Join(names, ",") + "}")
  }

  /** No list at all reads as no names. */
  function ReadNames(text: Option<string>): Option<seq<Option<string>>> {
    if text.None? then Some([]) else ReadArray(text.value)
  }

  /** A name that needs no quoting. */
  predicate PlainName(s: string) {
    && s != [] && !Blank(s[0]) && !Blank(s[|s| - 1]) && !IsNull(s)
    && forall i | 0 <= i < |s| :: !Special(s[i])
  }

  function Marks(s: string): (r: seq<Mark>)
    ensures |r| == |s| && forall i | 0 <= i < |r| :: r[i] == Mark(s[i], false)
  {
    if s == [] then [] else [Mark(s[0], false)] + Marks(s[1..])
  }

  lemma {:induction false} RawBack(s: string, rest: string)
    requires Closes(rest) && forall i | 0 <= i < |s| :: !Special(s[i])
    ensures TakeRaw(s + rest) == Some((Marks(s), rest))
  {
    if s == [] {
      assert s + rest == rest;
    } else {
      assert (s + rest)[1..] == s[1..] + rest;
      RawBack(s[1..], rest);
    }
  }

  lemma PlainBack(s: string, rest: string)
    requires Closes(rest) && PlainName(s)
    ensures TakeElement(s + rest) == Some((Some(s), rest))
  {
    RawBack(s, rest);
    var raw := Marks(s);
    assert SkipBlanks(s + rest) == s + rest;
    assert Trimmed(raw) == raw;
    assert Chars(raw) == s;
  }

  lemma {:induction false} PlainListBack(names: seq<string>)
    requires names != [] && forall n | n in names :: PlainName(n)
    ensures TakeElements(Join(names, ",") + "}") == Some(Given(names))
  {
    var first := names[0];
    assert first in names;
    if |names| == 1 {
      PlainBack(first, "}");
      assert names[1..] == [] && Given(names) == [Some(first)];
    } else {
      var tail := Join(names[1..], ",") + "}";
      assert Join(names, ",") + "}" == first + ("," + tail);
      PlainBack(first, "," + tail);
      assert ("," + tail)[1..] == tail;
      PlainListBack(names[1..]);
    }
  }

  /** An element never gives more characters than it takes, and one that gives all it takes is plain. */
  lemma ElementWeighs(s: string)
    requires TakeElement(s).Some? && TakeElement(s).value.0.Some?
    ensures var e := TakeElement(s).value;
            && |e.0.value| + |e.1| <= |s|
            && (|e.0.value| + |e.1| == |s| ==> PlainName(e.0.value))
  {
    var t := SkipBlanks(s);
    if !(t != [] && t[0] == '"') {
      var raw := TakeRaw(t).value.0;
      var rest := TakeRaw(t).value.1;
      var kept := Trimmed(raw);
      if |kept| + |rest| == |s| {
        assert kept == raw && t == s && forall m | m in raw :: !m.escaped && !Special(m.c);
        FirstOfRaw(t);
        forall i | 0 <= i < |Chars(raw)| ensures !Special(Chars(raw)[i]) { assert raw[i] in raw; }
        assert raw[|raw| - 1] in raw;
      }
    }
  }

  lemma FirstOfRaw(t: string)
    requires TakeRaw(t).Some? && TakeRaw(t).value.0 != [] && !TakeRaw(t).value.0[0].escaped
    ensures t != [] && TakeRaw(t).value.0[0].c == t[0]
  {
  }

  function Total(names: seq<string>): nat { if names == [] then 0 else |names[0]| + Total(names[1..]) }

  lemma {:induction false} JoinWeighs(names: seq<string>)
    requires names != []
    ensures |Join(names, ",")| == Total(names) + |names| - 1
  {
    if |names| > 1 { JoinWeighs(names[1..]); }
    else { assert names[1..] == []; }
  }

  lemma {:induction false} ElementsWeigh(s: string, names: seq<string>)
    requires names != [] && TakeElements(s) == Some(Given(names))
    ensures Total(names) + |names| <= |s|
    ensures Total(names) + |names| == |s| ==> forall n | n in names :: PlainName(n)
    decreases |names|
  {
    var e := TakeElement(s).value;
    var es := Given(names);
    assert es[0] == Some(names[0]) && e.0 == es[0];
    ElementWeighs(s);
    assert names == [names[0]] + names[1..];
    if e.1[0] == ',' {
      var more := TakeElements(e.1[1..]).value;
      assert es == [e.0] + more;
      assert Given(names[1..]) == es[1..] == more;
      if names[1..] == [] { NoElements(e.1[1..]); }
      else { ElementsWeigh(e.1[1..], names[1..]); }
    } else {
      assert es == [e.0] && names[1..] == [];
    }
  }

  lemma NoElements(s: string)
    ensures TakeElements(s) != Some([])
  {
  }

  /** Column names come back from the plain list if and only if each of them is plain: not empty, not NULL,
      without comma, brace, quote or backslash, and without a blank at either end. */
  lemma IdentifiersBackIff(names: seq<string>)
    ensures ReadNames(IdentifierArray(names)) == Some(Given(names)) <==> forall n | n in names :: PlainName(n)
  {
    if names != [] {
      var inner := Join(names, ",");
      var text := IdentifierArray(names).value;
      assert text[1..] == inner + "}";
      JoinWeighs(names);
      if forall n | n in names :: PlainName(n) {
        PlainListBack(names);
        assert names[0] in names && inner[0] == names[0][0];
        assert SkipBlanks(inner + "}") == inner + "}" && |inner| > 0;
      }
      if TakeElements(inner + "}") == Some(Given(names)) { ElementsWeigh(inner + "}", names); }
    }
  }
}

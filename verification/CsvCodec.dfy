/** The CSV both engines feed to COPY (ingestion-core: CsvEncoder.java; extractor/extractor.py, csv_field
    and build_copy_payload), and a reader that follows section 2 of RFC 4180 with LF as the line break and
    an unquoted empty field read as NULL. */
module CsvCodec {
  import opened Options

  /** Python's str.replace for a single character. */
  function Replace(s: string, c: char, put: string): string {
    if s == [] then [] else (if s[0] == c then put else [s[0]]) + Replace(s[1..], c, put)
  }

  function Doubled(s: string): string { Replace(s, '"', "\"\"") }

  function Quoted(s: string): string { "\"" + Doubled(s) + "\"" }

  // ---- Values ----

  /** What a column can hold: nothing, a truth value, a text (numbers and dates as their text), a list. */
  datatype Cell = Null | Truth(yes: bool) | Text(text: string) | List(items: seq<string>)

  function Join(parts: seq<string>, sep: string): string {
    if parts == [] then [] else if |parts| == 1 then parts[0] else parts[0] + sep + Join(parts[1..], sep)
  }

  function Escape(s: string): string { Replace(Replace(s, '\\', "\\\\"), '"', "\\\"") }

  function ArrayItems(items: seq<string>): seq<string> {
    if items == [] then [] else ["\"" + Escape(items[0]) + "\""] + ArrayItems(items[1..])
  }

  function ArrayText(items: seq<string>): string { "{" + Join(ArrayItems(items), ",") + "}" }

  function CsvField(v: Cell): string {
    match v
    case Null => ""
    case Truth(yes) => if yes then "t" else "f"
    case Text(s) => Quoted(s)
    case List(items) => Quoted(ArrayText(items))
  }

  function Fields(row: seq<Cell>): seq<string> {
    if row == [] then [] else [CsvField(row[0])] + Fields(row[1..])
  }

  function RowText(row: seq<Cell>): string { Join(Fields(row), ",") + "\n" }

  function Payload(rows: seq<seq<Cell>>): string {
    if rows == [] then [] else RowText(rows[0]) + Payload(rows[1..])
  }

  // ---- The two encoders ----

  /** Java's append. */
  method Append(sb: string, value: Option<string>) returns (out: string)
    ensures out == sb + CsvField(if value.None? then Null else Text(value.value))
  {
    out := sb;
    if value.None? { return; }
    var s := value.value;
    out := out + ['"'];
    for i := 0 to |s|
      invariant out + Doubled(s[i..]) == sb + "\"" + Doubled(s)
    {
      ghost var was := out;
      var ch := s[i];
      if ch == '"' { out := out + ['"']; }
      out := out + [ch];
      assert s[i..][1..] == s[i + 1..];
      assert out + Doubled(s[i + 1..]) == was + Doubled(s[i..]);
    }
    assert s[|s|..] == [] && out == sb + "\"" + Doubled(s);
    out := out + ['"'];
    assert out == sb + Quoted(s);
  }

  /** Python's build_copy_payload. */
  method BuildCopyPayload(rows: seq<seq<Cell>>) returns (buf: string)
    ensures buf == Payload(rows)
  {
    buf := [];
    for i := 0 to |rows|
      invariant buf + Payload(rows[i..]) == Payload(rows)
    {
      assert rows[i..][1..] == rows[i + 1..];
      buf := buf + Join(Fields(rows[i]), ",");
      buf := buf + "\n";
    }
  }

  // ---- The reader ----

  /** The rest of a quoted field: its text and what follows the closing quote. */
  function TakeQuoted(s: string): (r: Option<(string, string)>)
    ensures r.Some? ==> |r.value.1| < |s|
  {
    if s == [] then None
    else if s[0] == '"' then
      if |s| > 1 && s[1] == '"' then
        var more := TakeQuoted(s[2..]);
        if more.None? then None else Some((['"'] + more.value.0, more.value.1))
      else Some(([], s[1..]))
    else
      var more := TakeQuoted(s[1..]);
      if more.None? then None else Some(([s[0]] + more.value.0, more.value.1))
  }

  predicate Ends(s: string) { s != [] && (s[0] == ',' || s[0] == '\n') }

  /** An unquoted field runs to the next comma or line break. */
  function TakeBare(s: string): (r: (string, string))
    ensures |r.1| <= |s|
  {
    if s == [] || Ends(s) then ([], s)
    else
      var more := TakeBare(s[1..]);
      ([s[0]] + more.0, more.1)
  }

  function TakeField(s: string): (r: Option<(Option<string>, string)>)
    ensures r.Some? ==> |r.value.1| <= |s|
  {
    if s != [] && s[0] == '"' then
      var q := TakeQuoted(s[1..]);
      if q.None? then None else Some((Some(q.value.0), q.value.1))
    else
      var b := TakeBare(s);
      if '"' in b.0 then None
      else Some((if b.0 == [] then None else Some(b.0), b.1))
  }

  function TakeRow(s: string): (r: Option<(seq<Option<string>>, string)>)
    ensures r.Some? ==> |r.value.1| < |s|
    decreases |s|
  {
    var f := TakeField(s);
    if f.None? || f.value.1 == [] then None
    else if f.value.1[0] == '\n' then Some(([f.value.0], f.value.1[1..]))
    else if f.value.1[0] == ',' then
      var more := TakeRow(f.value.1[1..]);
      if more.None? then None else Some(([f.value.0] + more.value.0, more.value.1))
    else None
  }

  function Decode(s: string): Option<seq<seq<Option<string>>>>
    decreases |s|
  {
    if s == [] then Some([])
    else
      var row := TakeRow(s);
      if row.None? then None
      else
        var more := Decode(row.value.1);
        if more.None? then None else Some([row.value.0] + more.value)
  }

  // ---- Round trips ----

  /** The text a cell stands for. */
  function Meaning(v: Cell): Option<string> {
    match v
    case Null => None
    case Truth(yes) => Some(if yes then "t" else "f")
    case Text(s) => Some(s)
    case List(items) => Some(ArrayText(items))
  }

  function Meanings(row: seq<Cell>): seq<Option<string>> {
    if row == [] then [] else [Meaning(row[0])] + Meanings(row[1..])
  }

  function AllMeanings(rows: seq<seq<Cell>>): seq<seq<Option<string>>> {
    if rows == [] then [] else [Meanings(rows[0])] + AllMeanings(rows[1..])
  }

  lemma {:induction false} QuotedBack(s: string, rest: string)
    requires rest == [] || rest[0] != '"'
    ensures TakeQuoted(Doubled(s) + "\"" + rest) == Some((s, rest))
  {
    if s == [] {
      assert Doubled(s) + "\"" + rest == "\"" + rest;
      assert ("\"" + rest)[1..] == rest;
    } else {
      QuotedBack(s[1..], rest);
      var tail := Doubled(s[1..]) + "\"" + rest;
      if s[0] == '"' {
        assert Doubled(s) + "\"" + rest == "\"\"" + tail;
        assert ("\"\"" + tail)[2..] == tail;
      } else {
        assert Doubled(s) + "\"" + rest == [s[0]] + tail;
        assert ([s[0]] + tail)[1..] == tail;
      }
      assert s == [s[0]] + s[1..];
    }
  }

  lemma FieldBack(v: Cell, rest: string)
    requires Ends(rest)
    ensures TakeField(CsvField(v) + rest) == Some((Meaning(v), rest))
  {
    match v
    case Null =>
      assert "" + rest == rest;
    case Truth(yes) =>
      var s := CsvField(v) + rest;
      assert s[1..] == rest && !Ends(s);
      assert TakeBare(rest) == ([], rest);
      assert [s[0]] + TakeBare(rest).0 == [s[0]];
      assert TakeBare(s) == ([s[0]], rest);
      assert Meaning(v) == Some([s[0]]);
    case Text(s) => QuotedFieldBack(s, rest);
    case List(items) => QuotedFieldBack(ArrayText(items), rest);
  }

  lemma QuotedFieldBack(s: string, rest: string)
    requires Ends(rest)
    ensures TakeField(Quoted(s) + rest) == Some((Some(s), rest))
  {
    QuotedBack(s, rest);
    assert (Quoted(s) + rest)[1..] == Doubled(s) + "\"" + rest;
  }

  lemma {:induction false} RowBack(row: seq<Cell>, rest: string)
    requires row != []
    ensures TakeRow(RowText(row) + rest) == Some((Meanings(row), rest))
  {
    var v := row[0];
    if |row| == 1 {
      assert row[1..] == [] && Fields(row) == [CsvField(v)] && Meanings(row) == [Meaning(v)];
      assert RowText(row) + rest == CsvField(v) + ("\n" + rest);
      FieldBack(v, "\n" + rest);
      assert ("\n" + rest)[1..] == rest;
    } else {
      var tail := RowText(row[1..]) + rest;
      assert Fields(row)[1..] == Fields(row[1..]);
      assert |Fields(row[1..])| >= 1;
      assert RowText(row) + rest == CsvField(v) + ("," + tail);
      FieldBack(v, "," + tail);
      assert ("," + tail)[1..] == tail;
      RowBack(row[1..], rest);
    }
  }

  /** What a reader makes of a row: one without columns reads as a single NULL. */
  function ReadAs(row: seq<Cell>): seq<Option<string>> { if row == [] then [None] else Meanings(row) }

  function AllReadAs(rows: seq<seq<Cell>>): seq<seq<Option<string>>> {
    if rows == [] then [] else [ReadAs(rows[0])] + AllReadAs(rows[1..])
  }

  lemma {:induction false} PayloadReadsAs(rows: seq<seq<Cell>>)
    ensures Decode(Payload(rows)) == Some(AllReadAs(rows))
  {
    if rows == [] {
    } else {
      var rest := Payload(rows[1..]);
      if rows[0] == [] {
        assert Fields([]) == [];
        assert RowText(rows[0]) == "\n";
        assert Payload(rows) == "" + ("\n" + rest);
        FieldBack(Null, "\n" + rest);
        assert ("\n" + rest)[1..] == rest;
      } else {
        RowBack(rows[0], rest);
      }
      PayloadReadsAs(rows[1..]);
    }
  }

  lemma {:induction false} ReadAsMeant(rows: seq<seq<Cell>>)
    ensures AllReadAs(rows) == AllMeanings(rows) <==> forall row | row in rows :: row != []
  {
    if rows == [] {
    } else {
      assert rows == [rows[0]] + rows[1..];
      ReadAsMeant(rows[1..]);
      assert rows[0] in rows;
      assert forall row | row in rows[1..] :: row in rows;
      assert forall row | row in rows :: row == rows[0] || row in rows[1..];
      assert Meanings([]) == [] && (ReadAs(rows[0]) == Meanings(rows[0]) <==> rows[0] != []);
      assert AllReadAs(rows)[1..] == AllReadAs(rows[1..]) && AllMeanings(rows)[1..] == AllMeanings(rows[1..]);
      assert AllReadAs(rows)[0] == ReadAs(rows[0]) && AllMeanings(rows)[0] == Meanings(rows[0]);
      assert AllReadAs(rows) == AllMeanings(rows) <==>
             ReadAs(rows[0]) == Meanings(rows[0]) && AllReadAs(rows[1..]) == AllMeanings(rows[1..]);
    }
  }

  /** Reading a payload gives back every row, embedded quotes, commas, line breaks and empty strings
      included, exactly when no row is without columns. */
  lemma CsvRoundTripIff(rows: seq<seq<Cell>>)
    ensures Decode(Payload(rows)) == Some(AllMeanings(rows)) <==> forall row | row in rows :: row != []
  {
    PayloadReadsAs(rows);
    ReadAsMeant(rows);
  }
}

/**
 * Text printers whose output can be read in one way only: CSV documents, JSON on one line,
 * and server-sent events. The readers are written from the standards, not from the printers.
 */
module Printers {
  import opened Shared
  import opened Text

  /******* CSV documents *******/

  /** A cell before printing; numbers, booleans and structures are given by their text. */
  datatype Cell = Missing | TextCell(text: string) | ScalarCell(text: string) | StructuredCell(canonical: string)

  function CellText(cell: Cell): string {
    match cell
    case Missing => ""
    case TextCell(text) => text
    case ScalarCell(text) => text
    case StructuredCell(canonical) => canonical
  }

  /** Doubles every quote. */
  function Escaped(text: string): string {
    if text == "" then "" else (if text[0] == '"' then "\"\"" else [text[0]]) + Escaped(text[1..])
  }

  function CsvCell(cell: Cell): string {
    "\"" + Escaped(CellText(cell)) + "\""
  }

  function CsvRow(row: seq<Cell>): string {
    if row == [] then ""
    else if |row| == 1 then CsvCell(row[0])
    else CsvCell(row[0]) + "," + CsvRow(row[1..])
  }

  function CsvLines(rows: seq<seq<Cell>>): string {
    if rows == [] then "" else CsvRow(rows[0]) + "\n" + CsvLines(rows[1..])
  }

  /** The header row and the data rows, each line ended by a line feed. */
  function CsvDocument(headers: seq<Cell>, rows: seq<seq<Cell>>): string {
    CsvLines([headers] + rows)
  }

  /** A quoted field after its opening quote, by section 2 of RFC 4180: its text and what follows. */
  function ReadQuoted(s: string): (r: Option<(string, string)>)
    ensures r.Some? ==> |r.value.1| < |s|
  {
    if s == "" then None
    else if s[0] != '"' then
      match ReadQuoted(s[1..])
      case None => None
      case Some((text, rest)) => Some(([s[0]] + text, rest))
    else if 1 < |s| && s[1] == '"' then
      match ReadQuoted(s[2..])
      case None => None
      case Some((text, rest)) => Some((['"'] + text, rest))
    else Some(("", s[1..]))
  }

  /** An unquoted field: anything up to a separator, but no quotes. */
  function ReadBare(s: string): (r: Option<(string, string)>)
    ensures r.Some? ==> |r.value.1| <= |s|
  {
    if s == "" || s[0] == ',' || s[0] == '\n' then Some(("", s))
    else if s[0] == '"' then None
    else
      match ReadBare(s[1..])
      case None => None
      case Some((text, rest)) => Some(([s[0]] + text, rest))
  }

  function ReadField(s: string): (r: Option<(string, string)>)
    ensures r.Some? ==> |r.value.1| <= |s|
  {
    if s != "" && s[0] == '"' then ReadQuoted(s[1..]) else ReadBare(s)
  }

  /** One record: fields separated by commas, up to a line feed or the end. */
  function ReadRecord(s: string): (r: Option<(seq<string>, string)>)
    ensures r.Some? ==> |r.value.1| <= |s|
    decreases |s|
  {
    match ReadField(s)
    case None => None
    case Some((text, rest)) =>
      if rest == "" || rest[0] == '\n' then Some(([text], rest))
      else if rest[0] != ',' then None
      else
        match ReadRecord(rest[1..])
        case None => None
        case Some((texts, after)) => Some(([text] + texts, after))
  }

  /** A file of records; the last one may or may not end with a line feed. */
  function ReadCsv(s: string): Option<seq<seq<string>>>
    decreases |s|
  {
    if s == "" then Some([])
    else
      match ReadRecord(s)
      case None => None
      case Some((record, rest)) =>
        if rest == "" then Some([record])
        else
          match ReadCsv(rest[1..])
          case None => None
          case Some(records) => Some([record] + records)
  }

  lemma {:induction false} QuotedReadsBack(text: string, rest: string)
    requires rest == "" || rest[0] != '"'
    ensures ReadQuoted(Escaped(text) + "\"" + rest) == Some((text, rest))
  {
    var s := Escaped(text) + "\"" + rest;
    if text == "" {
      assert s == "\"" + rest && s[1..] == rest;
    } else {
      QuotedReadsBack(text[1..], rest);
      var tail := Escaped(text[1..]) + "\"" + rest;
      assert text == [text[0]] + text[1..];
      if text[0] == '"' {
        assert s == "\"\"" + tail && s[2..] == tail;
      } else {
        assert s == [text[0]] + tail && s[1..] == tail;
      }
    }
  }

  lemma CellReadsBack(cell: Cell, rest: string)
    requires rest == "" || rest[0] != '"'
    ensures ReadField(CsvCell(cell) + rest) == Some((CellText(cell), rest))
  {
    var s := CsvCell(cell) + rest;
    assert s[0] == '"' && s[1..] == Escaped(CellText(cell)) + "\"" + rest;
    QuotedReadsBack(CellText(cell), rest);
  }

  function Texts(row: seq<Cell>): seq<string> {
    seq(|row|, i requires 0 <= i < |row| => CellText(row[i]))
  }

  /** A cell and a comma in front of a record that reads back. */
  lemma OneMoreCell(cell: Cell, tail: string, texts: seq<string>, rest: string)
    requires ReadRecord(tail) == Some((texts, rest))
    ensures ReadRecord(CsvCell(cell) + "," + tail) == Some(([CellText(cell)] + texts, rest))
  {
    ConcatAssociates(CsvCell(cell), ",", tail);
    CellReadsBack(cell, "," + tail);
    assert ("," + tail)[1..] == tail;
  }

  lemma LastCell(cell: Cell, rest: string)
    requires rest != "" && rest[0] == '\n'
    ensures ReadRecord(CsvCell(cell) + rest) == Some(([CellText(cell)], rest))
  {
    CellReadsBack(cell, rest);
  }

  lemma RowText(row: seq<Cell>, rest: string)
    requires 1 < |row|
    ensures CsvRow(row) + rest == CsvCell(row[0]) + "," + (CsvRow(row[1..]) + rest)
  {
    var cell, later := CsvCell(row[0]), CsvRow(row[1..]);
    assert CsvRow(row) == cell + "," + later;
    ConcatAssociates(cell + ",", later, rest);
  }

  lemma TextsCons(row: seq<Cell>)
    requires row != []
    ensures Texts(row) == [CellText(row[0])] + Texts(row[1..])
  {
  }

  lemma {:induction false} RowReadsBack(row: seq<Cell>, rest: string)
    requires row != [] && rest != "" && rest[0] == '\n'
    ensures ReadRecord(CsvRow(row) + rest) == Some((Texts(row), rest))
  {
    if |row| == 1 {
      LastCell(row[0], rest);
      assert Texts(row) == [CellText(row[0])];
    } else {
      RowReadsBack(row[1..], rest);
      OneMoreCell(row[0], CsvRow(row[1..]) + rest, Texts(row[1..]), rest);
      RowText(row, rest);
      TextsCons(row);
    }
  }

  /** What a reader sees of a row: a row without cells looks like one empty cell. */
  function Seen(row: seq<Cell>): seq<string> {
    if row == [] then [""] else Texts(row)
  }

  function AllSeen(rows: seq<seq<Cell>>): seq<seq<string>> {
    seq(|rows|, i requires 0 <= i < |rows| => Seen(rows[i]))
  }

  lemma LineReadsBack(row: seq<Cell>, rest: string)
    requires rest != "" && rest[0] == '\n'
    ensures CsvRow(row) + rest != "" && ReadRecord(CsvRow(row) + rest) == Some((Seen(row), rest))
  {
    if row == [] {
      assert CsvRow(row) + rest == rest;
      assert ReadField(rest) == Some(("", rest));
    } else {
      RowReadsBack(row, rest);
    }
  }

  lemma FirstLine(s: string, record: seq<string>, rest: string, records: seq<seq<string>>)
    requires s != "" && rest != "" && ReadRecord(s) == Some((record, rest)) && ReadCsv(rest[1..]) == Some(records)
    ensures ReadCsv(s) == Some([record] + records)
  {
  }

  lemma LinesText(rows: seq<seq<Cell>>)
    requires rows != []
    ensures CsvLines(rows) == CsvRow(rows[0]) + ("\n" + CsvLines(rows[1..]))
    ensures ("\n" + CsvLines(rows[1..]))[1..] == CsvLines(rows[1..])
  {
    ConcatAssociates(CsvRow(rows[0]), "\n", CsvLines(rows[1..]));
    AfterBreak(CsvLines(rows[1..]));
  }

  lemma AfterBreak(s: string)
    ensures ("\n" + s)[1..] == s
  {
  }

  lemma SeenCons(rows: seq<seq<Cell>>)
    requires rows != []
    ensures AllSeen(rows) == [Seen(rows[0])] + AllSeen(rows[1..])
  {
  }

  lemma {:induction false} LinesReadBack(rows: seq<seq<Cell>>)
    ensures ReadCsv(CsvLines(rows)) == Some(AllSeen(rows))
  {
    if rows == [] {
      assert AllSeen(rows) == [];
    } else {
      var rest := "\n" + CsvLines(rows[1..]);
      LinesText(rows);
      SeenCons(rows);
      LineReadsBack(rows[0], rest);
      LinesReadBack(rows[1..]);
      FirstLine(CsvRow(rows[0]) + rest, Seen(rows[0]), rest, AllSeen(rows[1..]));
    }
  }

  /**
   * Reading a printed document gives back exactly its text cells, whatever quotes, commas or
   * line breaks they contain, if and only if no row is without cells.
   */
  lemma CsvRoundTrip(headers: seq<Cell>, rows: seq<seq<Cell>>)
    ensures ReadCsv(CsvDocument(headers, rows)) == Some(AllSeen([headers] + rows))
    ensures ReadCsv(CsvDocument(headers, rows)) == Some(seq(|rows| + 1, i requires 0 <= i < |rows| + 1 => Texts(([headers] + rows)[i])))
            <==> headers != [] && forall i | 0 <= i < |rows| :: rows[i] != []
  {
    var all := [headers] + rows;
    LinesReadBack(all);
    var texts := seq(|rows| + 1, i requires 0 <= i < |rows| + 1 => Texts(([headers] + rows)[i]));
    if headers != [] && forall i | 0 <= i < |rows| :: rows[i] != [] {
      assert AllSeen(all) == texts;
    } else if headers == [] {
      assert AllSeen(all)[0] != texts[0];
    } else {
      var i :| 0 <= i < |rows| && rows[i] == [];
      assert all[i + 1] == [] && AllSeen(all)[i + 1] != texts[i + 1];
    }
  }

  /******* JSON on one line *******/

  datatype Json =
    | JsonNull
    | JsonBool(value: bool)
    | JsonNumber(digits: string)
    | JsonString(text: string)
    | JsonArray(items: seq<Json>)
    | JsonObject(fields: seq<(string, Json)>)

  const NUMBER_CHARACTERS := "0123456789+-.e"

  ghost predicate ValidJson(j: Json) {
    match j
    case JsonNumber(digits) => digits != "" && forall i | 0 <= i < |digits| :: digits[i] in NUMBER_CHARACTERS
    case JsonArray(items) => forall i | 0 <= i < |items| :: ValidJson(items[i])
    case JsonObject(fields) => forall i | 0 <= i < |fields| :: ValidJson(fields[i].1)
    case _ => true
  }

  function HexDigit(d: nat): char
    requires d < 16
  {
    "0123456789abcdef"[d]
  }

  /** Control characters, quotes and backslashes are escaped; everything else stands for itself. */
  function JsonEscape(c: char): string {
    if c == '"' then "\\\""
    else if c == '\\' then "\\\\"
    else if c == '\U{08}' then "\\b"
    else if c == '\U{0C}' then "\\f"
    else if c == '\n' then "\\n"
    else if c == '\r' then "\\r"
    else if c == '\t' then "\\t"
    else if c < ' ' then "\\u00" + [HexDigit(c as int / 16), HexDigit(c as int % 16)]
    else [c]
  }

  function JsonEscaped(text: string): string {
    if text == "" then "" else JsonEscape(text[0]) + JsonEscaped(text[1..])
  }

  function Quoted(text: string): string {
    "\"" + JsonEscaped(text) + "\""
  }

  function Stringify(j: Json): string
    decreases j, 1
  {
    match j
    case JsonNull => "null"
    case JsonBool(value) => if value then "true" else "false"
    case JsonNumber(digits) => digits
    case JsonString(text) => Quoted(text)
    case JsonArray(items) => "[" + StringifyItems(j, items) + "]"
    case JsonObject(fields) => "{" + StringifyFields(j, fields) + "}"
  }

  function StringifyItems(ghost parent: Json, items: seq<Json>): string
    requires forall i | 0 <= i < |items| :: items[i] < parent
    decreases parent, 0, |items|
  {
    if items == [] then ""
    else if |items| == 1 then Stringify(items[0])
    else Stringify(items[0]) + "," + StringifyItems(parent, items[1..])
  }

  function StringifyFields(ghost parent: Json, fields: seq<(string, Json)>): string
    requires forall i | 0 <= i < |fields| :: fields[i].1 < parent
    decreases parent, 0, |fields|
  {
    if fields == [] then ""
    else
      var first := Quoted(fields[0].0) + ":" + Stringify(fields[0].1);
      if |fields| == 1 then first else first + "," + StringifyFields(parent, fields[1..])
  }

  /** No control characters, so in particular no line breaks. */
  ghost predicate Printable(s: string) {
    forall i | 0 <= i < |s| :: ' ' <= s[i]
  }

  lemma PrintableConcat(a: string, b: string)
    requires Printable(a) && Printable(b)
    ensures Printable(a + b)
  {
  }

  lemma {:induction false} EscapedIsPrintable(text: string)
    ensures Printable(JsonEscaped(text))
  {
    if text != "" {
      EscapedIsPrintable(text[1..]);
      EscapeIsPrintable(text[0]);
      PrintableConcat(JsonEscape(text[0]), JsonEscaped(text[1..]));
    }
  }

  lemma EscapeIsPrintable(c: char)
    ensures Printable(JsonEscape(c))
  {
  }

  lemma NumberIsPrintable(digits: string)
    requires forall i | 0 <= i < |digits| :: digits[i] in NUMBER_CHARACTERS
    ensures Printable(digits)
  {
    forall i | 0 <= i < |digits| ensures ' ' <= digits[i] {
      assert digits[i] in NUMBER_CHARACTERS;
    }
  }

  lemma EnclosedIsPrintable(left: char, s: string, right: char)
    requires ' ' <= left && Printable(s) && ' ' <= right
    ensures Printable([left] + s + [right]) && [left] + s + [right] != ""
  {
  }

  /** Whatever text is embedded, the printed JSON stays on one line. */
  lemma {:induction false} StringifyIsPrintable(j: Json)
    requires ValidJson(j)
    ensures Printable(Stringify(j)) && Stringify(j) != ""
    decreases j, 1
  {
    match j
    case JsonNull =>
    case JsonBool(_) =>
    case JsonString(text) =>
      EscapedIsPrintable(text);
      EnclosedIsPrintable('"', JsonEscaped(text), '"');
    case JsonNumber(digits) =>
      NumberIsPrintable(digits);
    case JsonArray(items) =>
      ItemsArePrintable(j, items);
      EnclosedIsPrintable('[', StringifyItems(j, items), ']');
    case JsonObject(fields) =>
      FieldsArePrintable(j, fields);
      EnclosedIsPrintable('{', StringifyFields(j, fields), '}');
  }

  lemma {:induction false} ItemsArePrintable(parent: Json, items: seq<Json>)
    requires forall i | 0 <= i < |items| :: items[i] < parent && ValidJson(items[i])
    ensures Printable(StringifyItems(parent, items))
    decreases parent, 0, |items|
  {
    if items != [] {
      StringifyIsPrintable(items[0]);
      ItemsArePrintable(parent, items[1..]);
    }
  }

  lemma {:induction false} FieldsArePrintable(parent: Json, fields: seq<(string, Json)>)
    requires forall i | 0 <= i < |fields| :: fields[i].1 < parent && ValidJson(fields[i].1)
    ensures Printable(StringifyFields(parent, fields))
    decreases parent, 0, |fields|
  {
    if fields != [] {
      StringifyIsPrintable(fields[0].1);
      EscapedIsPrintable(fields[0].0);
      var first := Quoted(fields[0].0) + ":" + Stringify(fields[0].1);
      PrintableConcat(Quoted(fields[0].0) + ":", Stringify(fields[0].1));
      if |fields| != 1 {
        FieldsArePrintable(parent, fields[1..]);
        PrintableConcat(first + ",", StringifyFields(parent, fields[1..]));
      }
    }
  }

  /******* Reading JSON, by sections 4 to 7 of RFC 8259 *******/

  function HexValue(c: char): Option<nat> {
    if '0' <= c <= '9' then Some(c as int - '0' as int)
    else if 'a' <= c <= 'f' then Some(c as int - 'a' as int + 10)
    else if 'A' <= c <= 'F' then Some(c as int - 'A' as int + 10)
    else None
  }

  /** The character of a four-digit escape; halves of surrogate pairs are refused. */
  function CodeUnit(s: string): Option<char>
    requires |s| == 4
  {
    var a, b, c, d := HexValue(s[0]), HexValue(s[1]), HexValue(s[2]), HexValue(s[3]);
    if a.None? || b.None? || c.None? || d.None? then None
    else
      var code := 4096 * a.value + 256 * b.value + 16 * c.value + d.value;
      if 0 <= code < 0xD800 || 0xE000 <= code < 0x11_0000 then Some(code as char) else None
  }

  /** The character a backslash and `c` stand for, `u` excepted. */
  function Escape(c: char): Option<char> {
    match c
    case '"' => Some('"')
    case '\\' => Some('\\')
    case '/' => Some('/')
    case 'b' => Some('\U{08}')
    case 'f' => Some('\U{0C}')
    case 'n' => Some('\n')
    case 'r' => Some('\r')
    case 't' => Some('\t')
    case _ => None
  }

  /** One character of a string after its opening quote, and what follows it. */
  function ReadChar(s: string): (r: Option<(char, string)>)
    ensures r.Some? ==> |r.value.1| < |s|
  {
    if s == "" || s[0] < ' ' || s[0] == '"' then None
    else if s[0] != '\\' then Some((s[0], s[1..]))
    else if 6 <= |s| && s[1] == 'u' then
      match CodeUnit(s[2..6])
      case None => None
      case Some(c) => Some((c, s[6..]))
    else if 2 <= |s| && Escape(s[1]).Some? then Some((Escape(s[1]).value, s[2..]))
    else None
  }

  /** A string after its opening quote: its text and what follows the closing one. */
  function ReadString(s: string): (r: Option<(string, string)>)
    ensures r.Some? ==> |r.value.1| < |s|
    decreases |s|
  {
    if s != "" && s[0] == '"' then Some(("", s[1..]))
    else
      match ReadChar(s)
      case None => None
      case Some((c, rest)) =>
        match ReadString(rest)
        case None => None
        case Some((text, after)) => Some(([c] + text, after))
  }

  /** How many characters of a number `s` starts with. */
  function NumberLength(s: string): (n: nat)
    ensures n <= |s|
  {
    if s == "" || s[0] !in NUMBER_CHARACTERS then 0 else 1 + NumberLength(s[1..])
  }

  predicate StartsWith(s: string, word: string) {
    |word| <= |s| && s[..|word|] == word
  }

  /** A value without white space, and what follows it. */
  function ReadJson(s: string): (r: Option<(Json, string)>)
    ensures r.Some? ==> |r.value.1| < |s|
    decreases |s|, 1
  {
    if StartsWith(s, "null") then Some((JsonNull, s[4..]))
    else if StartsWith(s, "true") then Some((JsonBool(true), s[4..]))
    else if StartsWith(s, "false") then Some((JsonBool(false), s[5..]))
    else if StartsWith(s, "\"") then
      match ReadString(s[1..])
      case None => None
      case Some((text, rest)) => Some((JsonString(text), rest))
    else if StartsWith(s, "[]") then Some((JsonArray([]), s[2..]))
    else if StartsWith(s, "[") then
      match ReadItems(s[1..])
      case None => None
      case Some((items, rest)) => Some((JsonArray(items), rest))
    else if StartsWith(s, "{}") then Some((JsonObject([]), s[2..]))
    else if StartsWith(s, "{") then
      match ReadFields(s[1..])
      case None => None
      case Some((fields, rest)) => Some((JsonObject(fields), rest))
    else if NumberLength(s) == 0 then None
    else Some((JsonNumber(s[..NumberLength(s)]), s[NumberLength(s)..]))
  }

  /** One or more values up to and including the closing bracket. */
  function ReadItems(s: string): (r: Option<(seq<Json>, string)>)
    ensures r.Some? ==> |r.value.1| < |s|
    decreases |s|, 2
  {
    match ReadJson(s)
    case None => None
    case Some((item, rest)) =>
      if StartsWith(rest, "]") then Some(([item], rest[1..]))
      else if !StartsWith(rest, ",") then None
      else
        match ReadItems(rest[1..])
        case None => None
        case Some((items, after)) => Some(([item] + items, after))
  }

  /** A name, a colon and a value. */
  function ReadMember(s: string): (r: Option<((string, Json), string)>)
    ensures r.Some? ==> |r.value.1| < |s|
    decreases |s|, 1
  {
    if !StartsWith(s, "\"") then None
    else
      match ReadString(s[1..])
      case None => None
      case Some((name, rest)) =>
        if !StartsWith(rest, ":") then None
        else
          match ReadJson(rest[1..])
          case None => None
          case Some((value, after)) => Some(((name, value), after))
  }

  /** One or more members up to and including the closing brace. */
  function ReadFields(s: string): (r: Option<(seq<(string, Json)>, string)>)
    ensures r.Some? ==> |r.value.1| < |s|
    decreases |s|, 2
  {
    match ReadMember(s)
    case None => None
    case Some((field, rest)) =>
      if StartsWith(rest, "}") then Some(([field], rest[1..]))
      else if !StartsWith(rest, ",") then None
      else
        match ReadFields(rest[1..])
        case None => None
        case Some((fields, after)) => Some(([field] + fields, after))
  }

  lemma HexReadsBack(d: nat)
    requires d < 16
    ensures HexValue(HexDigit(d)) == Some(d)
  {
  }

  lemma EscapeReadsBack(c: char, rest: string)
    ensures ReadChar(JsonEscape(c) + rest) == Some((c, rest))
    ensures JsonEscape(c) != "" && JsonEscape(c)[0] != '"'
  {
    var s := JsonEscape(c) + rest;
    if |JsonEscape(c)| == 1 {
      assert s[1..] == rest;
    } else if |JsonEscape(c)| == 2 {
      assert s[2..] == rest;
    } else {
      HexReadsBack(c as int / 16);
      HexReadsBack(c as int % 16);
      assert s[2..6] == ['0', '0', HexDigit(c as int / 16), HexDigit(c as int % 16)];
      assert s[6..] == rest;
    }
  }

  lemma {:induction false} TextReadsBack(text: string, rest: string)
    ensures ReadString(JsonEscaped(text) + "\"" + rest) == Some((text, rest))
    decreases text
  {
    var s := JsonEscaped(text) + "\"" + rest;
    if text == "" {
      assert s == "\"" + rest && s[1..] == rest;
    } else {
      var tail := JsonEscaped(text[1..]) + "\"" + rest;
      assert s == JsonEscape(text[0]) + tail;
      EscapeReadsBack(text[0], tail);
      TextReadsBack(text[1..], rest);
      assert text == [text[0]] + text[1..];
    }
  }

  lemma QuotedTextReadsBack(text: string, rest: string)
    ensures var s := Quoted(text) + rest;
            StartsWith(s, "\"") && ReadString(s[1..]) == Some((text, rest))
  {
    var s := Quoted(text) + rest;
    assert s[..1] == "\"" && s[1..] == JsonEscaped(text) + "\"" + rest;
    TextReadsBack(text, rest);
  }

  /** A number ends where something else follows it. */
  predicate EndsNumber(rest: string) {
    rest == "" || rest[0] !in NUMBER_CHARACTERS
  }

  lemma {:induction false} NumberEnds(digits: string, rest: string)
    requires (forall i | 0 <= i < |digits| :: digits[i] in NUMBER_CHARACTERS) && EndsNumber(rest)
    ensures NumberLength(digits + rest) == |digits|
  {
    if digits == "" {
      assert digits + rest == rest;
    } else {
      assert (digits + rest)[1..] == digits[1..] + rest;
      NumberEnds(digits[1..], rest);
    }
  }

  lemma NumberReadsBack(digits: string, rest: string)
    requires digits != "" && (forall i | 0 <= i < |digits| :: digits[i] in NUMBER_CHARACTERS) && EndsNumber(rest)
    ensures ReadJson(digits + rest) == Some((JsonNumber(digits), rest))
  {
    var s := digits + rest;
    NumberEnds(digits, rest);
    assert s[0] == digits[0];
    OtherStarts(s);
    assert s[..|digits|] == digits && s[|digits|..] == rest;
  }

  lemma WordReadsBack(j: Json, rest: string)
    requires j.JsonNull? || j.JsonBool? || j == JsonArray([]) || j == JsonObject([])
    ensures ReadJson(Stringify(j) + rest) == Some((j, rest))
  {
    var word := Stringify(j);
    var s := word + rest;
    assert s[..|word|] == word && s[|word|..] == rest;
    assert s[0] == word[0];
    assert j.JsonBool? ==> !StartsWith(s, "null") by {
      assert StartsWith(s, "null") ==> s[..4][0] == s[0];
    }
    assert j == JsonBool(false) ==> !StartsWith(s, "true") by {
      assert StartsWith(s, "true") ==> s[..4][0] == s[0];
    }
    OtherStarts(s);
  }

  /** What a text starts with is decided by its first character. */
  lemma OtherStarts(s: string)
    requires s != ""
    ensures s[0] != 'n' ==> !StartsWith(s, "null")
    ensures s[0] != 't' ==> !StartsWith(s, "true")
    ensures s[0] != 'f' ==> !StartsWith(s, "false")
    ensures StartsWith(s, "\"") <==> s[0] == '"'
    ensures StartsWith(s, "[") <==> s[0] == '['
    ensures StartsWith(s, "{") <==> s[0] == '{'
    ensures StartsWith(s, "[]") <==> s[0] == '[' && 1 < |s| && s[1] == ']'
    ensures StartsWith(s, "{}") <==> s[0] == '{' && 1 < |s| && s[1] == '}'
  {
    assert StartsWith(s, "null") ==> s[..4][0] == s[0];
    assert StartsWith(s, "true") ==> s[..4][0] == s[0];
    assert StartsWith(s, "false") ==> s[..5][0] == s[0];
    assert s[..1] == [s[0]];
    assert 1 < |s| ==> s[..2] == [s[0], s[1]];
  }

  /** No value starts with a closing bracket or brace. */
  lemma ValuesStart(j: Json)
    requires ValidJson(j)
    ensures Stringify(j) != "" && Stringify(j)[0] !in "]}"
  {
    StringifyIsPrintable(j);
    if j.JsonNumber? {
      assert j.digits[0] in NUMBER_CHARACTERS;
    }
  }

  /** A JSON reader gives back whatever was printed, and stops where it ends. */
  lemma {:induction false} JsonRoundTrip(j: Json, rest: string)
    requires ValidJson(j) && EndsNumber(rest)
    ensures ReadJson(Stringify(j) + rest) == Some((j, rest))
    decreases j, 1
  {
    match j
    case JsonNull => WordReadsBack(j, rest);
    case JsonBool(_) => WordReadsBack(j, rest);
    case JsonNumber(digits) => NumberReadsBack(digits, rest);
    case JsonString(text) =>
      OtherStarts(Quoted(text) + rest);
      QuotedTextReadsBack(text, rest);
    case JsonArray(items) =>
      if items == [] {
        WordReadsBack(j, rest);
      } else {
        ItemsReadBack(j, items, rest);
        ArrayReadsBack(j, rest);
      }
    case JsonObject(fields) =>
      if fields == [] {
        WordReadsBack(j, rest);
      } else {
        FieldsReadBack(j, fields, rest);
        ObjectReadsBack(j, rest);
      }
  }

  lemma ArrayReadsBack(j: Json, rest: string)
    requires ValidJson(j) && j.JsonArray? && j.items != []
    requires ReadItems(StringifyItems(j, j.items) + "]" + rest) == Some((j.items, rest))
    ensures ReadJson(Stringify(j) + rest) == Some((j, rest))
  {
    var s := Stringify(j) + rest;
    assert s[1..] == StringifyItems(j, j.items) + "]" + rest;
    ItemsStart(j, j.items);
    OtherStarts(s);
  }

  lemma ObjectReadsBack(j: Json, rest: string)
    requires ValidJson(j) && j.JsonObject? && j.fields != []
    requires ReadFields(StringifyFields(j, j.fields) + "}" + rest) == Some((j.fields, rest))
    ensures ReadJson(Stringify(j) + rest) == Some((j, rest))
  {
    var inner := StringifyFields(j, j.fields) + "}" + rest;
    FieldsText(j, j.fields, rest);
    assert inner[0] == '"';
    assert Stringify(j) + rest == "{" + inner;
    BracedReadsBack(inner, j.fields, rest);
  }

  lemma BracedReadsBack(inner: string, fields: seq<(string, Json)>, rest: string)
    requires inner != "" && inner[0] == '"' && ReadFields(inner) == Some((fields, rest))
    ensures ReadJson("{" + inner) == Some((JsonObject(fields), rest))
  {
    Follows('{', inner);
    OtherStarts("{" + inner);
  }

  lemma ItemsStart(parent: Json, items: seq<Json>)
    requires items != [] && forall i | 0 <= i < |items| :: items[i] < parent && ValidJson(items[i])
    ensures StringifyItems(parent, items) != "" && StringifyItems(parent, items)[0] != ']'
  {
    ValuesStart(items[0]);
  }

  lemma Follows(c: char, rest: string)
    ensures StartsWith([c] + rest, [c]) && ([c] + rest)[1..] == rest
  {
    assert ([c] + rest)[..1] == [c];
  }

  lemma LastItem(s: string, item: Json, rest: string)
    requires ReadJson(s) == Some((item, "]" + rest))
    ensures ReadItems(s) == Some(([item], rest))
  {
    Follows(']', rest);
  }

  lemma OneMoreItem(s: string, item: Json, tail: string, items: seq<Json>, rest: string)
    requires ReadJson(s) == Some((item, "," + tail)) && ReadItems(tail) == Some((items, rest))
    ensures ReadItems(s) == Some(([item] + items, rest))
  {
    Follows(',', tail);
    OtherStarts("," + tail);
    assert !StartsWith("," + tail, "]") by {
      assert ("," + tail)[..1] == ",";
    }
  }

  lemma ItemsText(parent: Json, items: seq<Json>, rest: string)
    requires items != [] && forall i | 0 <= i < |items| :: items[i] < parent
    ensures StringifyItems(parent, items) + "]" + rest ==
            Stringify(items[0]) + if |items| == 1 then "]" + rest
                                  else "," + (StringifyItems(parent, items[1..]) + "]" + rest)
  {
  }

  /** What follows the first item of a list. */
  function AfterFirstItem(parent: Json, items: seq<Json>, rest: string): string
    requires items != [] && forall i | 0 <= i < |items| :: items[i] < parent
  {
    if |items| == 1 then "]" + rest else "," + (StringifyItems(parent, items[1..]) + "]" + rest)
  }

  /** A list reads back when its first item does and what follows does. */
  lemma ItemsStep(parent: Json, items: seq<Json>, rest: string)
    requires items != [] && forall i | 0 <= i < |items| :: items[i] < parent
    requires var after := AfterFirstItem(parent, items, rest); ReadJson(Stringify(items[0]) + after) == Some((items[0], after))
    requires 1 < |items| ==> ReadItems(StringifyItems(parent, items[1..]) + "]" + rest) == Some((items[1..], rest))
    ensures ReadItems(StringifyItems(parent, items) + "]" + rest) == Some((items, rest))
  {
    ItemsText(parent, items, rest);
    var later := if |items| == 1 then "" else StringifyItems(parent, items[1..]) + "]" + rest;
    ListStep(StringifyItems(parent, items) + "]" + rest, items, later, rest);
  }

  lemma ListStep(s: string, items: seq<Json>, later: string, rest: string)
    requires items != [] && ReadJson(s) == Some((items[0], if |items| == 1 then "]" + rest else "," + later))
    requires 1 < |items| ==> ReadItems(later) == Some((items[1..], rest))
    ensures ReadItems(s) == Some((items, rest))
  {
    if |items| == 1 {
      assert items == [items[0]];
      LastItem(s, items[0], rest);
    } else {
      assert items == [items[0]] + items[1..];
      OneMoreItem(s, items[0], later, items[1..], rest);
    }
  }

  lemma {:induction false} ItemsReadBack(parent: Json, items: seq<Json>, rest: string)
    requires items != [] && forall i | 0 <= i < |items| :: items[i] < parent && ValidJson(items[i])
    ensures ReadItems(StringifyItems(parent, items) + "]" + rest) == Some((items, rest))
    decreases parent, 0, |items|
  {
    if 1 < |items| {
      ItemsReadBack(parent, items[1..], rest);
    }
    JsonRoundTrip(items[0], AfterFirstItem(parent, items, rest));
    ItemsStep(parent, items, rest);
  }

  lemma MemberReadsBack(name: string, value: Json, text: string, rest: string)
    requires ReadJson(text) == Some((value, rest))
    ensures ReadMember(Quoted(name) + (":" + text)) == Some(((name, value), rest))
  {
    QuotedTextReadsBack(name, ":" + text);
    Follows(':', text);
  }

  lemma LastField(s: string, field: (string, Json), rest: string)
    requires ReadMember(s) == Some((field, "}" + rest))
    ensures ReadFields(s) == Some(([field], rest))
  {
    Follows('}', rest);
  }

  lemma OneMoreField(s: string, field: (string, Json), tail: string, fields: seq<(string, Json)>, rest: string)
    requires ReadMember(s) == Some((field, "," + tail)) && ReadFields(tail) == Some((fields, rest))
    ensures ReadFields(s) == Some(([field] + fields, rest))
  {
    Follows(',', tail);
    assert !StartsWith("," + tail, "}") by {
      assert ("," + tail)[..1] == ",";
    }
  }

  /** The text of members, taken apart at the first colon. */
  lemma FieldsText(parent: Json, fields: seq<(string, Json)>, rest: string)
    requires fields != [] && forall i | 0 <= i < |fields| :: fields[i].1 < parent
    ensures StringifyFields(parent, fields) + "}" + rest ==
            Quoted(fields[0].0) + (":" + (Stringify(fields[0].1) +
              if |fields| == 1 then "}" + rest else "," + (StringifyFields(parent, fields[1..]) + "}" + rest)))
  {
  }

  /** What follows the first member of an object. */
  function AfterFirstField(parent: Json, fields: seq<(string, Json)>, rest: string): string
    requires fields != [] && forall i | 0 <= i < |fields| :: fields[i].1 < parent
  {
    if |fields| == 1 then "}" + rest else "," + (StringifyFields(parent, fields[1..]) + "}" + rest)
  }

  /** An object reads back when its first value does and what follows does. */
  lemma FieldsStep(parent: Json, fields: seq<(string, Json)>, rest: string)
    requires fields != [] && forall i | 0 <= i < |fields| :: fields[i].1 < parent
    requires var after := AfterFirstField(parent, fields, rest);
             ReadJson(Stringify(fields[0].1) + after) == Some((fields[0].1, after))
    requires 1 < |fields| ==> ReadFields(StringifyFields(parent, fields[1..]) + "}" + rest) == Some((fields[1..], rest))
    ensures ReadFields(StringifyFields(parent, fields) + "}" + rest) == Some((fields, rest))
  {
    var (name, value) := fields[0];
    var after := AfterFirstField(parent, fields, rest);
    FieldsText(parent, fields, rest);
    MemberReadsBack(name, value, Stringify(value) + after, after);
    var later := if |fields| == 1 then "" else StringifyFields(parent, fields[1..]) + "}" + rest;
    MembersStep(StringifyFields(parent, fields) + "}" + rest, fields, later, rest);
  }

  lemma MembersStep(s: string, fields: seq<(string, Json)>, later: string, rest: string)
    requires fields != [] && ReadMember(s) == Some((fields[0], if |fields| == 1 then "}" + rest else "," + later))
    requires 1 < |fields| ==> ReadFields(later) == Some((fields[1..], rest))
    ensures ReadFields(s) == Some((fields, rest))
  {
    if |fields| == 1 {
      assert fields == [fields[0]];
      LastField(s, fields[0], rest);
    } else {
      assert fields == [fields[0]] + fields[1..];
      OneMoreField(s, fields[0], later, fields[1..], rest);
    }
  }

  lemma {:induction false} FieldsReadBack(parent: Json, fields: seq<(string, Json)>, rest: string)
    requires fields != [] && forall i | 0 <= i < |fields| :: fields[i].1 < parent && ValidJson(fields[i].1)
    ensures ReadFields(StringifyFields(parent, fields) + "}" + rest) == Some((fields, rest))
    decreases parent, 0, |fields|
  {
    if 1 < |fields| {
      FieldsReadBack(parent, fields[1..], rest);
    }
    JsonRoundTrip(fields[0].1, AfterFirstField(parent, fields, rest));
    FieldsStep(parent, fields, rest);
  }

  /******* Server-sent events *******/

  datatype SseFrame = SseFrame(id: nat, event: string, data: Json)

  datatype Chunk = CommentChunk(text: string) | FrameChunk(frame: SseFrame)

  function IdLine(frame: SseFrame): string {
    "id" + ": " + Decimal(frame.id)
  }

  function EventLine(frame: SseFrame): string {
    "event" + ": " + frame.event
  }

  function DataLine(frame: SseFrame): string {
    "data" + ": " + Stringify(frame.data)
  }

  function SerializeSseFrame(frame: SseFrame): string {
    IdLine(frame) + "\n" + (EventLine(frame) + "\n" + (DataLine(frame) + "\n" + "\n"))
  }

  function SerializeChunk(chunk: Chunk): string {
    match chunk
    case CommentChunk(text) => (":" + text) + "\n" + "\n"
    case FrameChunk(frame) => SerializeSseFrame(frame)
  }

  function Serialize(chunks: seq<Chunk>): string {
    if chunks == [] then "" else SerializeChunk(chunks[0]) + Serialize(chunks[1..])
  }

  predicate OneLine(s: string) {
    forall i | 0 <= i < |s| :: s[i] != '\n' && s[i] != '\r'
  }

  /** What the server writes: one-line comments, and frames with a plain event name. */
  ghost predicate ValidChunk(chunk: Chunk) {
    match chunk
    case CommentChunk(text) => OneLine(text)
    case FrameChunk(frame) => OneLine(frame.event) && frame.event != "" && ValidJson(frame.data)
  }

  ghost predicate ValidChunks(chunks: seq<Chunk>) {
    forall i | 0 <= i < |chunks| :: ValidChunk(chunks[i])
  }

  /** A message as the client's event source dispatches it. */
  datatype Message = Message(lastEventId: string, eventType: string, data: string)

  /**
   * The event stream interpreter of section 9.2.6 of the WHATWG HTML standard: the line being
   * read, the buffers, the event source's last event ID, and the messages dispatched so far.
   */
  datatype Client = Client(
    line: string, afterCr: bool, idBuffer: string, typeBuffer: string, dataBuffer: string,
    lastEventId: string, messages: seq<Message>)

  const FRESH_CLIENT := Client("", false, "", "", "", "", [])

  function Dispatch(c: Client): Client {
    var named := c.(lastEventId := c.idBuffer);
    if c.dataBuffer == "" then named.(typeBuffer := "")
    else
      var n := |c.dataBuffer| - 1;
      var data := if c.dataBuffer[n] == '\n' then c.dataBuffer[..n] else c.dataBuffer;
      var eventType := if c.typeBuffer == "" then "message" else c.typeBuffer;
      named.(messages := c.messages + [Message(c.idBuffer, eventType, data)], typeBuffer := "", dataBuffer := "")
  }

  function ProcessField(c: Client, name: string, value: string): Client {
    if name == "event" then c.(typeBuffer := value)
    else if name == "data" then c.(dataBuffer := c.dataBuffer + value + "\n")
    else if name == "id" then if '\U{00}' in value then c else c.(idBuffer := value)
    else c
  }

  /** The position of the first colon, or the length. */
  function ColonAt(line: string): (i: nat)
    ensures i <= |line|
  {
    if line == "" || line[0] == ':' then 0 else ColonAt(line[1..]) + 1
  }

  function ProcessLine(c: Client, line: string): Client {
    if line == "" then Dispatch(c)
    else if line[0] == ':' then c
    else
      var i := ColonAt(line);
      if i == |line| then ProcessField(c, line, "")
      else
        var value := line[i + 1..];
        ProcessField(c, line[..i], if value != "" && value[0] == ' ' then value[1..] else value)
  }

  function EndLine(c: Client): Client {
    ProcessLine(c.(line := ""), c.line)
  }

  /** Lines end with a line feed, a carriage return, or both. */
  function FeedChar(c: Client, ch: char): Client {
    if ch == '\n' then if c.afterCr then c.(afterCr := false) else EndLine(c)
    else if ch == '\r' then EndLine(c.(afterCr := false)).(afterCr := true)
    else c.(line := c.line + [ch], afterCr := false)
  }

  function Feed(c: Client, s: string): Client
    decreases |s|
  {
    if s == "" then c else Feed(FeedChar(c, s[0]), s[1..])
  }

  /** A leading byte order mark is not part of the stream. */
  function Interpret(s: string): Client {
    Feed(FRESH_CLIENT, if s != "" && s[0] == '\U{FEFF}' then s[1..] else s)
  }

  lemma {:induction false} FeedConcat(c: Client, a: string, b: string)
    ensures Feed(c, a + b) == Feed(Feed(c, a), b)
    decreases |a|
  {
    if a == "" {
      assert a + b == b;
    } else {
      assert (a + b)[1..] == a[1..] + b;
      FeedConcat(FeedChar(c, a[0]), a[1..], b);
    }
  }

  /** Between lines: nothing pending from the last one. */
  predicate AtLineStart(c: Client) {
    c.line == "" && !c.afterCr
  }

  lemma {:induction false} FeedText(c: Client, text: string)
    requires OneLine(text) && !c.afterCr
    ensures Feed(c, text) == c.(line := c.line + text)
    decreases |text|
  {
    if text == "" {
      assert c.line + text == c.line;
    } else {
      FeedText(FeedChar(c, text[0]), text[1..]);
      assert c.line + [text[0]] + text[1..] == c.line + text;
    }
  }

  lemma FeedLine(c: Client, text: string, rest: string)
    requires OneLine(text) && AtLineStart(c)
    ensures Feed(c, text + "\n" + rest) == Feed(ProcessLine(c, text), rest)
  {
    assert text + "\n" + rest == text + ("\n" + rest);
    FeedConcat(c, text, "\n" + rest);
    FeedText(c, text);
    assert "" + text == text && ("\n" + rest)[1..] == rest;
  }

  lemma {:induction false} ColonAfterName(name: string, rest: string)
    requires ':' !in name
    ensures ColonAt(name + ":" + rest) == |name|
  {
    var line := name + ":" + rest;
    if name != "" {
      assert line[1..] == name[1..] + ":" + rest;
      ColonAfterName(name[1..], rest);
    }
  }

  lemma FieldLine(c: Client, name: string, value: string)
    requires name != "" && ':' !in name
    ensures ProcessLine(c, name + ": " + value) == ProcessField(c, name, value)
  {
    var line := name + ": " + value;
    assert line == name + ":" + (" " + value);
    ColonAfterName(name, " " + value);
    assert line[..|name|] == name && line[|name| + 1..] == " " + value && (" " + value)[1..] == value;
  }

  /** Between events: all buffers but the ID are empty. */
  predicate AtEventStart(c: Client) {
    AtLineStart(c) && c.typeBuffer == "" && c.dataBuffer == "" && c.lastEventId == c.idBuffer
  }

  function MessageOf(frame: SseFrame): Message {
    Message(Decimal(frame.id), frame.event, Stringify(frame.data))
  }

  lemma DigitsAreOneLine(n: nat)
    ensures OneLine(Decimal(n)) && '\U{00}' !in Decimal(n)
  {
    var s := Decimal(n);
    assert AllDigits(s);
  }

  /** The state after the three field lines of a frame, before the blank line. */
  function Filled(c: Client, frame: SseFrame): Client {
    c.(idBuffer := Decimal(frame.id), typeBuffer := frame.event, dataBuffer := Stringify(frame.data) + "\n")
  }

  lemma FeedField(c: Client, name: string, value: string, rest: string)
    requires AtLineStart(c) && name != "" && ':' !in name && OneLine(name) && OneLine(value)
    ensures Feed(c, name + ": " + value + "\n" + rest) == Feed(ProcessField(c, name, value), rest)
  {
    FeedLine(c, name + ": " + value, rest);
    FieldLine(c, name, value);
  }

  lemma FrameFillsBuffers(c: Client, frame: SseFrame, rest: string)
    requires AtEventStart(c) && ValidChunk(FrameChunk(frame))
    ensures Feed(c, IdLine(frame) + "\n" + (EventLine(frame) + "\n" + (DataLine(frame) + "\n" + rest)))
            == Feed(Filled(c, frame), rest)
  {
    var third := DataLine(frame) + "\n" + rest;
    DigitsAreOneLine(frame.id);
    StringifyIsPrintable(frame.data);
    FeedField(c, "id", Decimal(frame.id), EventLine(frame) + "\n" + third);
    var c1 := c.(idBuffer := Decimal(frame.id));
    FeedField(c1, "event", frame.event, third);
    var c2 := c1.(typeBuffer := frame.event);
    FeedField(c2, "data", Stringify(frame.data), rest);
    assert "" + Stringify(frame.data) + "\n" == Stringify(frame.data) + "\n";
  }

  /** A frame dispatches exactly one message, a comment none; either leaves the client between events. */
  lemma ChunkReadsBack(c: Client, chunk: Chunk)
    requires AtEventStart(c) && ValidChunk(chunk)
    ensures var after := Feed(c, SerializeChunk(chunk));
            && AtEventStart(after)
            && (chunk.CommentChunk? ==> after == c)
            && (chunk.FrameChunk? ==> after.messages == c.messages + [MessageOf(chunk.frame)]
                                      && after.lastEventId == Decimal(chunk.frame.id))
  {
    match chunk
    case CommentChunk(text) =>
      FeedLine(c, ":" + text, "\n");
      FeedLine(c, "", "");
      assert "" + "\n" + "" == "\n";
    case FrameChunk(frame) =>
      FrameFillsBuffers(c, frame, "\n");
      FeedLine(Filled(c, frame), "", "");
      assert "" + "\n" + "" == "\n";
      assert (Stringify(frame.data) + "\n")[..|Stringify(frame.data)|] == Stringify(frame.data);
  }

  function Frames(chunks: seq<Chunk>): seq<SseFrame> {
    if chunks == [] then []
    else (if chunks[0].FrameChunk? then [chunks[0].frame] else []) + Frames(chunks[1..])
  }

  function Messages(frames: seq<SseFrame>): seq<Message> {
    seq(|frames|, i requires 0 <= i < |frames| => MessageOf(frames[i]))
  }

  function MessagesOf(chunk: Chunk): seq<Message> {
    if chunk.FrameChunk? then [MessageOf(chunk.frame)] else []
  }

  lemma MessagesCons(chunks: seq<Chunk>)
    requires chunks != []
    ensures Messages(Frames(chunks)) == MessagesOf(chunks[0]) + Messages(Frames(chunks[1..]))
  {
    var own := if chunks[0].FrameChunk? then [chunks[0].frame] else [];
    MessagesConcat(own, Frames(chunks[1..]));
    assert Messages(own) == MessagesOf(chunks[0]);
  }

  lemma MessagesConcat(xs: seq<SseFrame>, ys: seq<SseFrame>)
    ensures Messages(xs + ys) == Messages(xs) + Messages(ys)
  {
  }

  /** The ID of the last frame, or the one known before. */
  function FinalId(chunks: seq<Chunk>, before: string): string {
    if chunks == [] then before
    else FinalId(chunks[1..], if chunks[0].FrameChunk? then Decimal(chunks[0].frame.id) else before)
  }

  /** What the client shows of its state changed by exactly these chunks. */
  ghost predicate ReadsAs(before: Client, after: Client, chunks: seq<Chunk>) {
    && after.messages == before.messages + Messages(Frames(chunks))
    && after.lastEventId == FinalId(chunks, before.lastEventId)
  }

  lemma ReadsAsCons(before: Client, next: Client, after: Client, chunks: seq<Chunk>)
    requires chunks != [] && next.messages == before.messages + MessagesOf(chunks[0])
    requires next.lastEventId == if chunks[0].FrameChunk? then Decimal(chunks[0].frame.id) else before.lastEventId
    requires ReadsAs(next, after, chunks[1..])
    ensures ReadsAs(before, after, chunks)
  {
    MessagesCons(chunks);
  }

  lemma {:induction false} StreamReadsBack(c: Client, chunks: seq<Chunk>)
    requires AtEventStart(c) && ValidChunks(chunks)
    ensures AtEventStart(Feed(c, Serialize(chunks))) && ReadsAs(c, Feed(c, Serialize(chunks)), chunks)
    decreases |chunks|
  {
    if chunks != [] {
      var next := Feed(c, SerializeChunk(chunks[0]));
      ChunkStep(c, chunks[0]);
      StreamReadsBack(next, chunks[1..]);
      FeedConcat(c, SerializeChunk(chunks[0]), Serialize(chunks[1..]));
      ReadsAsCons(c, next, Feed(next, Serialize(chunks[1..])), chunks);
    }
  }

  lemma ChunkStep(c: Client, chunk: Chunk)
    requires AtEventStart(c) && ValidChunk(chunk)
    ensures var after := Feed(c, SerializeChunk(chunk));
            && AtEventStart(after) && after.messages == c.messages + MessagesOf(chunk)
            && after.lastEventId == if chunk.FrameChunk? then Decimal(chunk.frame.id) else c.lastEventId
  {
    ChunkReadsBack(c, chunk);
  }

  lemma {:induction false} FinalIdIsLast(chunks: seq<Chunk>, before: string)
    ensures FinalId(chunks, before) ==
            if Frames(chunks) == [] then before else Decimal(Frames(chunks)[|Frames(chunks)| - 1].id)
    decreases |chunks|
  {
    if chunks != [] {
      FinalIdIsLast(chunks[1..], if chunks[0].FrameChunk? then Decimal(chunks[0].frame.id) else before);
    }
  }

  /** The message tells the frame: its id, its event name and, read as JSON, its data. */
  predicate Tells(message: Message, frame: SseFrame) {
    && AllDigits(message.lastEventId) && ParseDecimal(message.lastEventId) == frame.id
    && message.eventType == frame.event
    && ReadJson(message.data) == Some((frame.data, ""))
  }

  ghost predicate TellsAll(messages: seq<Message>, frames: seq<SseFrame>) {
    |messages| == |frames| && forall i | 0 <= i < |frames| :: Tells(messages[i], frames[i])
  }

  lemma MessagesTell(frame: SseFrame)
    requires ValidJson(frame.data)
    ensures Tells(MessageOf(frame), frame)
  {
    DecimalRoundTrip(frame.id);
    JsonRoundTrip(frame.data, "");
    assert Stringify(frame.data) + "" == Stringify(frame.data);
  }

  lemma {:induction false} FramesAreValid(chunks: seq<Chunk>)
    requires ValidChunks(chunks)
    ensures forall i | 0 <= i < |Frames(chunks)| :: ValidJson(Frames(chunks)[i].data)
  {
    if chunks != [] {
      assert ValidChunk(chunks[0]);
      FramesAreValid(chunks[1..]);
    }
  }

  lemma AllMessagesTell(chunks: seq<Chunk>)
    requires ValidChunks(chunks)
    ensures TellsAll(Messages(Frames(chunks)), Frames(chunks))
  {
    var frames := Frames(chunks);
    FramesAreValid(chunks);
    forall i | 0 <= i < |frames| ensures Tells(Messages(frames)[i], frames[i]) {
      MessagesTell(frames[i]);
    }
  }

  /** From its very start, a stream is read as the chunks written. */
  lemma StreamIsRead(chunks: seq<Chunk>)
    requires ValidChunks(chunks)
    ensures ReadsAs(FRESH_CLIENT, Interpret(Serialize(chunks)), chunks)
  {
    if chunks != [] {
      StartsPlainly(chunks[0]);
    }
    StreamReadsBack(FRESH_CLIENT, chunks);
  }

  /** The client dispatches exactly the frames written, whatever comments lie between them. */
  lemma SseRoundTrip(chunks: seq<Chunk>)
    requires ValidChunks(chunks)
    ensures TellsAll(Interpret(Serialize(chunks)).messages, Frames(chunks))
    ensures Frames(chunks) != [] ==>
              var last := Interpret(Serialize(chunks)).lastEventId;
              AllDigits(last) && ParseDecimal(last) == Frames(chunks)[|Frames(chunks)| - 1].id
  {
    StreamIsRead(chunks);
    FinalIdIsLast(chunks, "");
    if Frames(chunks) != [] {
      DecimalRoundTrip(Frames(chunks)[|Frames(chunks)| - 1].id);
    }
    AllMessagesTell(chunks);
    assert [] + Messages(Frames(chunks)) == Messages(Frames(chunks));
  }

  lemma StartsPlainly(chunk: Chunk)
    ensures SerializeChunk(chunk) != "" && SerializeChunk(chunk)[0] in ":i"
  {
  }

  /******* A stream cut off anywhere *******/

  /** No line that ends in `s` is blank; the line being read at first is empty if `empty` says so. */
  predicate NoBlankLine(s: string, empty: bool) {
    s == "" || (s[0] != '\r' && !(empty && s[0] == '\n') && NoBlankLine(s[1..], s[0] == '\n'))
  }

  /** Without a blank line nothing is dispatched, and the last event ID stays. */
  lemma {:induction false} NothingDispatched(c: Client, s: string)
    requires !c.afterCr && NoBlankLine(s, c.line == "")
    ensures Feed(c, s).messages == c.messages && Feed(c, s).lastEventId == c.lastEventId
    decreases |s|
  {
    if s != "" {
      NothingDispatched(FeedChar(c, s[0]), s[1..]);
    }
  }

  lemma {:induction false} NoBlankLineBefore(s: string, n: nat, empty: bool)
    requires NoBlankLine(s, empty) && n <= |s|
    ensures NoBlankLine(s[..n], empty)
  {
    if n != 0 {
      NoBlankLineBefore(s[1..], n - 1, s[0] == '\n');
      assert s[..n][1..] == s[1..][..n - 1];
    }
  }

  lemma {:induction false} NoBlankLineAfterText(text: string, rest: string, empty: bool)
    requires OneLine(text) && (text != "" || !empty) && NoBlankLine(rest, true)
    ensures NoBlankLine(text + "\n" + rest, empty)
    decreases |text|
  {
    var s := text + "\n" + rest;
    if text == "" {
      assert s[1..] == rest;
    } else {
      assert s[1..] == text[1..] + "\n" + rest;
      NoBlankLineAfterText(text[1..], rest, false);
    }
  }

  /** Only the last character of a chunk completes a blank line. */
  lemma ChunkEndsInItsBlankLine(chunk: Chunk)
    requires ValidChunk(chunk)
    ensures var text := SerializeChunk(chunk); text != "" && NoBlankLine(text[..|text| - 1], true)
  {
    var text := SerializeChunk(chunk);
    match chunk {
      case CommentChunk(comment) =>
        assert text[..|text| - 1] == ":" + comment + "\n" + "";
        NoBlankLineAfterText(":" + comment, "", true);
      case FrameChunk(frame) =>
        var third := DataLine(frame) + "\n" + "";
        assert text[..|text| - 1] == IdLine(frame) + "\n" + (EventLine(frame) + "\n" + third);
        DigitsAreOneLine(frame.id);
        StringifyIsPrintable(frame.data);
        NoBlankLineAfterText(DataLine(frame), "", true);
        NoBlankLineAfterText(EventLine(frame), third, true);
        NoBlankLineAfterText(IdLine(frame), EventLine(frame) + "\n" + third, true);
    }
  }

  /** A chunk that has not arrived completely dispatches nothing and leaves the last event ID alone. */
  lemma PartialChunkIsSilent(c: Client, chunk: Chunk, n: nat)
    requires AtEventStart(c) && ValidChunk(chunk) && n < |SerializeChunk(chunk)|
    ensures Feed(c, SerializeChunk(chunk)[..n]).messages == c.messages
    ensures Feed(c, SerializeChunk(chunk)[..n]).lastEventId == c.lastEventId
  {
    var text := SerializeChunk(chunk);
    ChunkEndsInItsBlankLine(chunk);
    NoBlankLineBefore(text[..|text| - 1], n, true);
    assert text[..|text| - 1][..n] == text[..n];
    NothingDispatched(c, text[..n]);
  }

  /** How many chunks fit into the first `n` characters. */
  function Whole(chunks: seq<Chunk>, n: nat): (k: nat)
    ensures k <= |chunks|
  {
    if chunks == [] || n < |SerializeChunk(chunks[0])| then 0
    else Whole(chunks[1..], n - |SerializeChunk(chunks[0])|) + 1
  }

  /** The length of the first `k` chunks. */
  function LengthOf(chunks: seq<Chunk>, k: nat): nat
    requires k <= |chunks|
  {
    if k == 0 then 0 else |SerializeChunk(chunks[0])| + LengthOf(chunks[1..], k - 1)
  }

  lemma {:induction false} LengthOfPrefix(chunks: seq<Chunk>, k: nat)
    requires k <= |chunks|
    ensures |Serialize(chunks[..k])| == LengthOf(chunks, k)
  {
    if k != 0 {
      LengthOfPrefix(chunks[1..], k - 1);
      assert chunks[..k][1..] == chunks[1..][..k - 1];
    }
  }

  lemma {:induction false} WholeLength(chunks: seq<Chunk>, n: nat)
    ensures LengthOf(chunks, Whole(chunks, n)) <= n
    ensures Whole(chunks, n) < |chunks| ==> n < LengthOf(chunks, Whole(chunks, n) + 1)
    decreases |chunks|
  {
    if chunks != [] && |SerializeChunk(chunks[0])| <= n {
      WholeLength(chunks[1..], n - |SerializeChunk(chunks[0])|);
    }
  }

  /** The chunks counted as whole are in the text that arrived, and the next one is not. */
  lemma WholeFits(chunks: seq<Chunk>, n: nat)
    ensures var k := Whole(chunks, n);
            |Serialize(chunks[..k])| <= n && (k < |chunks| ==> n < |Serialize(chunks[..k + 1])|)
  {
    var k := Whole(chunks, n);
    WholeLength(chunks, n);
    LengthOfPrefix(chunks, k);
    if k < |chunks| {
      LengthOfPrefix(chunks, k + 1);
    }
  }

  lemma TakeFromConcat(a: string, b: string, n: nat)
    requires n <= |a| + |b|
    ensures (a + b)[..n] == if n < |a| then a[..n] else a + b[..n - |a|]
  {
  }

  lemma ArrivedChunks(chunks: seq<Chunk>, n: nat)
    requires chunks != [] && |SerializeChunk(chunks[0])| <= n
    ensures var arrived := chunks[..Whole(chunks, n)];
            arrived != [] && arrived[0] == chunks[0]
            && arrived[1..] == chunks[1..][..Whole(chunks[1..], n - |SerializeChunk(chunks[0])|)]
  {
  }

  /**
   * After any cut the client has seen exactly the frames of the chunks that arrived completely,
   * those that fit into the text up to the cut, and the ID it would reconnect with is the last
   * one among them.
   */
  lemma {:induction false} CutStream(c: Client, chunks: seq<Chunk>, n: nat)
    requires AtEventStart(c) && ValidChunks(chunks) && n <= |Serialize(chunks)|
    ensures ReadsAs(c, Feed(c, Serialize(chunks)[..n]), chunks[..Whole(chunks, n)])
    ensures |Serialize(chunks[..Whole(chunks, n)])| <= n
    ensures Whole(chunks, n) < |chunks| ==> n < |Serialize(chunks[..Whole(chunks, n) + 1])|
    decreases |chunks|
  {
    WholeFits(chunks, n);
    if chunks != [] {
      var first, later := SerializeChunk(chunks[0]), Serialize(chunks[1..]);
      TakeFromConcat(first, later, n);
      if n < |first| {
        PartialChunkIsSilent(c, chunks[0], n);
      } else {
        ChunkStep(c, chunks[0]);
        CutStream(Feed(c, first), chunks[1..], n - |first|);
        FeedConcat(c, first, later[..n - |first|]);
        ArrivedChunks(chunks, n);
        ReadsAsCons(c, Feed(c, first), Feed(c, Serialize(chunks)[..n]), chunks[..Whole(chunks, n)]);
      }
    }
  }
}

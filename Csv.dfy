/** The CSV export (script.js:236-244): a header line, then one line per stored
    record whose fields are each written with `JSON.stringify(String(...))`.
    A reader for that format is defined alongside, as the partner that shows
    the export loses nothing. */
module Csv {

  import opened Wrappers
  import opened Expenses
  import opened Text

  // ---------------------------------------------------------------- writing

  const Header: seq<string> := ["id", "date", "amount", "category", "description", "payment", "mood"]

  /** `header.join(",")`: the column names, not quoted. */
  const HeaderLine: string := Join(Header, ",")

  /** `String(r[h] ?? "")` for each column `h` in header order. */
  function Fields(r: Expense): (fs: seq<string>)
    ensures |fs| == |Header|
  {
    [r.id, r.date, IntToString(r.amount), r.category, r.description, r.payment, r.mood]
  }

  const HexDigits: string := "0123456789abcdef"

  /** How `JSON.stringify` writes one character inside a string literal
      (section 7 of RFC 8259, with the short forms and lower-case hex digits
      that ECMAScript's QuoteJSONString chooses). */
  function EscapeChar(c: char): (r: string)
    ensures |r| >= 1
  {
    if c == '"' then "\\\""
    else if c == '\\' then "\\\\"
    else if c == 8 as char then "\\b"
    else if c == 12 as char then "\\f"
    else if c == '\n' then "\\n"
    else if c == '\r' then "\\r"
    else if c == '\t' then "\\t"
    else if c < ' ' then "\\u00" + [HexDigits[c as int / 16], HexDigits[c as int % 16]]
    else [c]
  }

  function Escape(s: string): string
  {
    if s == [] then [] else EscapeChar(s[0]) + Escape(s[1..])
  }

  /** `JSON.stringify(s)` for a string `s`. */
  function Quote(s: string): string
  {
    "\"" + Escape(s) + "\""
  }

  function QuoteAll(fs: seq<string>): (qs: seq<string>)
    ensures |qs| == |fs|
    ensures forall i :: 0 <= i < |fs| ==> qs[i] == Quote(fs[i])
  {
    seq(|fs|, i requires 0 <= i < |fs| => Quote(fs[i]))
  }

  /** One record line: the quoted fields joined by commas. */
  function Row(fs: seq<string>): string
  {
    Join(QuoteAll(fs), ",")
  }

  function RecordLines(records: seq<Expense>): (ls: seq<string>)
    ensures |ls| == |records|
    ensures forall i :: 0 <= i < |records| ==> ls[i] == Row(Fields(records[i]))
  {
    seq(|records|, i requires 0 <= i < |records| => Row(Fields(records[i])))
  }

  /** The fields of every record, record by record. */
  function FieldTable(records: seq<Expense>): (t: seq<seq<string>>)
    ensures |t| == |records|
    ensures forall i :: 0 <= i < |records| ==> t[i] == Fields(records[i])
  {
    if records == [] then [] else [Fields(records[0])] + FieldTable(records[1..])
  }

  /** The whole file: header line and record lines joined by newlines. */
  function Export(records: seq<Expense>): string
  {
    Join([HeaderLine] + RecordLines(records), "\n")
  }

  // ---------------------------------------------------------------- reading

  function HexValue(c: char): (r: Option<nat>)
    ensures r.Some? ==> r.value < 16
  {
    if '0' <= c <= '9' then Some(c as int - '0' as int)
    else if 'a' <= c <= 'f' then Some(c as int - 'a' as int + 10)
    else if 'A' <= c <= 'F' then Some(c as int - 'A' as int + 10)
    else None
  }

  /** The character written as `\uXXXX` by the four hex digits `h`, if it is one. */
  function HexChar(h: string): Option<char>
    requires |h| == 4
  {
    match (HexValue(h[0]), HexValue(h[1]), HexValue(h[2]), HexValue(h[3]))
    case (Some(a), Some(b), Some(c), Some(d)) =>
      var v := ((a * 16 + b) * 16 + c) * 16 + d;
      if v < 0xD800 || 0xE000 <= v then Some(v as char) else None
    case _ => None
  }

  /** Reads one character of a string literal's body: the character and how
      many input characters it took, or None for a malformed escape or a raw
      control character. */
  function DecodeOne(s: string): (r: Option<(char, nat)>)
    requires s != [] && s[0] != '"'
    ensures r.Some? ==> 1 <= r.value.1 <= |s|
  {
    if s[0] == '\\' then
      if |s| < 2 then None
      else if s[1] == '"' then Some(('"', 2))
      else if s[1] == '\\' then Some(('\\', 2))
      else if s[1] == '/' then Some(('/', 2))
      else if s[1] == 'b' then Some((8 as char, 2))
      else if s[1] == 'f' then Some((12 as char, 2))
      else if s[1] == 'n' then Some(('\n', 2))
      else if s[1] == 'r' then Some(('\r', 2))
      else if s[1] == 't' then Some(('\t', 2))
      else if s[1] == 'u' && |s| >= 6 then
        match HexChar(s[2..6])
        case Some(c) => Some((c, 6))
        case None => None
      else None
    else if s[0] < ' ' then None
    else Some((s[0], 1))
  }

  /** Reads a string literal's body up to its closing quote: the text and what follows. */
  function ParseBody(s: string): (r: Option<(string, string)>)
    ensures r.Some? ==> |r.value.1| < |s|
    decreases |s|
  {
    if s == [] then None
    else if s[0] == '"' then Some(([], s[1..]))
    else
      match DecodeOne(s)
      case None => None
      case Some((c, n)) =>
        match ParseBody(s[n..])
        case None => None
        case Some((v, rest)) => Some(([c] + v, rest))
  }

  /** Reads one quoted field: the text and what follows. */
  function ParseField(s: string): (r: Option<(string, string)>)
    ensures r.Some? ==> |r.value.1| < |s|
  {
    if s != [] && s[0] == '"' then ParseBody(s[1..]) else None
  }

  /** Reads a line of comma-separated quoted fields. */
  function ParseRow(s: string): Option<seq<string>>
    decreases |s|
  {
    match ParseField(s)
    case None => None
    case Some((v, rest)) =>
      if rest == [] then Some([v])
      else if rest[0] != ',' then None
      else
        match ParseRow(rest[1..])
        case None => None
        case Some(vs) => Some([v] + vs)
  }

  function ParseRows(lines: seq<string>): Option<seq<seq<string>>>
  {
    if lines == [] then Some([])
    else
      match (ParseRow(lines[0]), ParseRows(lines[1..]))
      case (Some(fs), Some(rest)) => Some([fs] + rest)
      case _ => None
  }

  /** Reads a whole export: the header line, then one row per line. */
  function ParseExport(text: string): Option<seq<seq<string>>>
  {
    var lines := Split(text, '\n');
    if lines[0] != HeaderLine then None else ParseRows(lines[1..])
  }

  /** Rebuilds a record from its seven fields, reading the amount as an integer. */
  function FromFields(fs: seq<string>): Option<Expense>
  {
    if |fs| != |Header| then None
    else
      match ParseInt(fs[2])
      case None => None
      case Some(a) => Some(Expense(fs[0], a, fs[1], fs[3], fs[4], fs[5], fs[6]))
  }

  // ---------------------------------------------------------------- properties

  /** Each written character reads back as itself, taking exactly its escape. */
  lemma EscapeCharReadsBack(c: char, t: string)
    ensures var s := EscapeChar(c) + t;
      s[0] != '"' && DecodeOne(s) == Some((c, |EscapeChar(c)|))
  {
    var s := EscapeChar(c) + t;
    if c < ' ' && c != 8 as char && c != 12 as char && c != '\n' && c != '\r' && c != '\t' {
      assert s[2..6] == ['0', '0', HexDigits[c as int / 16], HexDigits[c as int % 16]];
      ControlHexReadsBack(c);
    }
  }

  /** The four hex digits written for a control character read back as it. */
  lemma ControlHexReadsBack(c: char)
    requires c < ' '
    ensures HexChar(['0', '0', HexDigits[c as int / 16], HexDigits[c as int % 16]]) == Some(c)
  {
    var hi, lo := c as int / 16, c as int % 16;
    assert hi == 0 || hi == 1;
    assert HexValue(HexDigits[hi]) == Some(hi);
    assert HexValue(HexDigits[lo]) == Some(lo);
  }

  /** The body of a quoted field reads back as the text that was escaped. */
  lemma {:induction false} EscapeReadsBack(x: string, rest: string)
    ensures ParseBody(Escape(x) + "\"" + rest) == Some((x, rest))
  {
    var s := Escape(x) + "\"" + rest;
    if x == [] {
      assert s == "\"" + rest;
    } else {
      var e := EscapeChar(x[0]);
      var t := Escape(x[1..]) + "\"" + rest;
      assert s == e + t;
      EscapeCharReadsBack(x[0], t);
      assert s[|e|..] == t;
      EscapeReadsBack(x[1..], rest);
      assert [x[0]] + x[1..] == x;
    }
  }

  /** `JSON.stringify` of a string reads back as that string, whatever follows it. */
  lemma QuoteReadsBack(x: string, rest: string)
    ensures ParseField(Quote(x) + rest) == Some((x, rest))
  {
    var s := Quote(x) + rest;
    assert s[1..] == Escape(x) + "\"" + rest;
    EscapeReadsBack(x, rest);
  }

  /** A record line reads back as exactly the fields it was written from. */
  lemma {:induction false} RowReadsBack(fs: seq<string>)
    requires |fs| >= 1
    ensures ParseRow(Row(fs)) == Some(fs)
  {
    var qs := QuoteAll(fs);
    if |fs| == 1 {
      var q := Quote(fs[0]);
      assert q + [] == q;
      QuoteReadsBack(fs[0], []);
      assert ParseField(q) == Some((fs[0], []));
      assert Row(fs) == q;
      assert [fs[0]] == fs;
    } else {
      var tail := Row(fs[1..]);
      assert qs[1..] == QuoteAll(fs[1..]);
      assert Row(fs) == Quote(fs[0]) + ("," + tail);
      QuoteReadsBack(fs[0], "," + tail);
      assert ("," + tail)[1..] == tail;
      RowReadsBack(fs[1..]);
      assert [fs[0]] + fs[1..] == fs;
    }
  }

  lemma EscapeCharHasNoNewline(c: char)
    ensures '\n' !in EscapeChar(c)
  {
    if c < ' ' && c != 8 as char && c != 12 as char && c != '\n' && c != '\r' && c != '\t' {
      var hi, lo := c as int / 16, c as int % 16;
      assert HexDigits[hi] != '\n' && HexDigits[lo] != '\n';
    }
  }

  lemma {:induction false} EscapeHasNoNewline(x: string)
    ensures '\n' !in Escape(x)
  {
    if x != [] {
      EscapeHasNoNewline(x[1..]);
      EscapeCharHasNoNewline(x[0]);
      assert Escape(x) == EscapeChar(x[0]) + Escape(x[1..]);
    }
  }

  /** No field, and so no record line, contains a raw newline. */
  lemma RowHasNoNewline(fs: seq<string>)
    ensures '\n' !in Row(fs)
  {
    var qs := QuoteAll(fs);
    forall i | 0 <= i < |qs| ensures '\n' !in qs[i] {
      EscapeHasNoNewline(fs[i]);
    }
    JoinExcludes(qs, ",", '\n');
  }

  lemma HeaderHasNoNewline()
    ensures '\n' !in HeaderLine
  {
    forall i | 0 <= i < |Header| ensures '\n' !in Header[i] {
      if i == 0 { } else if i == 1 { } else if i == 2 { } else if i == 3 { }
      else if i == 4 { } else if i == 5 { } else { }
    }
    JoinExcludes(Header, ",", '\n');
  }

  /** The file splits into the header line followed by one line per record,
      so it has exactly one line more than there are records. */
  lemma ExportLines(records: seq<Expense>)
    ensures Split(Export(records), '\n') == [HeaderLine] + RecordLines(records)
    ensures |Split(Export(records), '\n')| == |records| + 1
  {
    var ls := [HeaderLine] + RecordLines(records);
    forall i | 0 <= i < |ls| ensures '\n' !in ls[i] {
      if i == 0 {
        HeaderHasNoNewline();
      } else {
        assert ls[i] == Row(Fields(records[i - 1]));
        RowHasNoNewline(Fields(records[i - 1]));
      }
    }
    SplitJoin(ls, '\n');
  }

  lemma {:induction false} RowsReadBack(records: seq<Expense>)
    ensures ParseRows(RecordLines(records)) ==
      Some(FieldTable(records))
  {
    if records != [] {
      var ls := RecordLines(records);
      assert ls[0] == Row(Fields(records[0]));
      RowsReadBack(records[1..]);
      RowReadsBack(Fields(records[0]));
      assert RecordLines(records)[1..] == RecordLines(records[1..]);
    }
  }

  /** Reading the export gives every record's seven fields, in header order. */
  lemma ExportReadsBack(records: seq<Expense>)
    ensures ParseExport(Export(records)) == Some(FieldTable(records))
  {
    ExportLines(records);
    RowsReadBack(records);
    assert ([HeaderLine] + RecordLines(records))[1..] == RecordLines(records);
  }

  /** A record rebuilt from its written fields is the record itself. */
  lemma FieldsReadBack(r: Expense)
    ensures FromFields(Fields(r)) == Some(r)
  {
    IntToStringRoundTrip(r.amount);
  }

  /** A field the record leaves empty is written as `""`. */
  lemma EmptyFieldIsTwoQuotes()
    ensures Quote("") == "\"\""
  {
  }
}

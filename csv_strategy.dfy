/**
 * `CsvExportStrategy`: the CSV text is a data-URI prefix, a header line of
 * the first row's keys, and one line per row with its values in header
 * order. A string containing a comma is wrapped in double quotes; quotes
 * inside it are left as they are. The link click that downloads the text
 * and `encodeURI` are not modelled; number rendering is a parameter.
 */
module CsvExportStrategy {
  import opened Text
  import opened ExportRows
  import opened ExportService

  /** The start of every CSV download. */
  const DataUriPrefix: string := "data:text/csv;charset=utf-8,"

  /**
   * A value as it ends up between the commas: a string with a comma quoted,
   * any other string as it is, a number as rendered, a boolean as its
   * literal, and `undefined` as nothing (what `join` writes for it).
   */
  function Field(c: Cell, show: real -> string): string {
    match c
    case Str(s) => if ',' in s then "\"" + s + "\"" else s
    case Num(x) => show(x)
    case Bool(b) => if b then "true" else "false"
    case Missing => ""
  }

  /** One row's line: its values in header order, comma-joined, then a newline. */
  function Line(row: Row, headers: seq<string>, show: real -> string): string {
    Join(seq(|headers|, j requires 0 <= j < |headers| => Field(Lookup(row, headers[j]), show)), ",") + "\n"
  }

  /** The lines of all rows, in order. */
  function Lines(data: seq<Row>, headers: seq<string>, show: real -> string): (r: seq<string>)
    ensures |r| == |data|
  {
    seq(|data|, i requires 0 <= i < |data| => Line(data[i], headers, show))
  }

  /** The CSV text of the rows. */
  function Content(data: seq<Row>, show: real -> string): string {
    if data == [] then DataUriPrefix
    else DataUriPrefix + Join(TableHeaders(data), ",") + "\n" + Concat(Lines(data, TableHeaders(data), show))
  }

  /** The accumulation in `export`: prefix, header line, then each row's line appended in turn. */
  method BuildContent(data: seq<Row>, show: real -> string) returns (csvContent: string)
    ensures csvContent == Content(data, show)
  {
    csvContent := DataUriPrefix;
    if |data| > 0 {
      var headers := ObjectKeys(data[0]);
      csvContent := csvContent + Join(headers, ",") + "\n";
      csvContent := AppendEach(csvContent, Lines(data, headers, show));
    }
  }

  /** What the download link receives: the CSV text and the file name. */
  method Export(payload: ExportData, show: real -> string) returns (href: string, download: string)
    ensures href == Content(payload.data, show) && download == payload.filename
  {
    href := BuildContent(payload.data, show);
    download := payload.filename;
  }

  /** No rows give the prefix alone, without a header line. */
  lemma EmptyData(show: real -> string)
    ensures Content([], show) == DataUriPrefix
    ensures CountChar(Content([], show), '\n') == 0
  {
    PrefixSingleLine();
    CountCharAbsent(DataUriPrefix, '\n');
  }

  /** The data-URI prefix holds no line break. */
  lemma PrefixSingleLine()
    ensures '\n' !in DataUriPrefix
  {
    assert DataUriPrefix == "data:text/csv;" + "charset=utf-8,";
  }

  /** With rows, the text opens with the prefix and the first row's keys joined by commas on a line of their own. */
  lemma HeaderLine(data: seq<Row>, show: real -> string)
    requires data != []
    ensures var h := DataUriPrefix + Join(ObjectKeys(data[0]), ",") + "\n";
      |h| <= |Content(data, show)| && Content(data, show)[..|h|] == h
  {
  }

  /** No header and no rendered value of the rows holds a newline. */
  predicate SingleLineFields(data: seq<Row>, show: real -> string) {
    && (forall k :: 0 <= k < |TableHeaders(data)| ==> '\n' !in TableHeaders(data)[k])
    && (forall i, k :: 0 <= i < |data| && 0 <= k < |TableHeaders(data)| ==> '\n' !in Field(Lookup(data[i], TableHeaders(data)[k]), show))
  }

  /** Each row's line holds exactly one newline, its last character, when its fields hold none. */
  lemma LineCount(data: seq<Row>, show: real -> string, i: nat)
    requires SingleLineFields(data, show) && i < |data|
    ensures CountChar(Line(data[i], TableHeaders(data), show), '\n') == 1
  {
    var headers := TableHeaders(data);
    var values := seq(|headers|, j requires 0 <= j < |headers| => Field(Lookup(data[i], headers[j]), show));
    JoinAvoids(values, ",", '\n');
    CountCharAbsent(Join(values, ","), '\n');
    CountCharAppend(Join(values, ","), "\n", '\n');
  }

  /** The prefix and the header line hold a single newline when no header holds one. */
  lemma HeaderNewlines(headers: seq<string>)
    requires forall k :: 0 <= k < |headers| ==> '\n' !in headers[k]
    ensures CountChar(DataUriPrefix + Join(headers, ",") + "\n", '\n') == 1
  {
    JoinAvoids(headers, ",", '\n');
    CountCharAbsent(DataUriPrefix + Join(headers, ","), '\n');
    CountCharAppend(DataUriPrefix + Join(headers, ","), "\n", '\n');
  }

  /** Non-empty output has one line per row plus the header line. */
  lemma NewlineCount(data: seq<Row>, show: real -> string)
    requires data != [] && SingleLineFields(data, show)
    ensures CountChar(Content(data, show), '\n') == |data| + 1
  {
    var headers := TableHeaders(data);
    var lines := Lines(data, headers, show);
    forall i | 0 <= i < |lines| ensures CountChar(lines[i], '\n') == 1 {
      LineCount(data, show, i);
    }
    ConcatCountOne(lines, '\n');
    HeaderNewlines(headers);
    CountCharAppend(DataUriPrefix + Join(headers, ",") + "\n", Concat(lines), '\n');
  }

  /**
   * Quoting adds exactly two quote characters to a string with a comma and
   * none otherwise: quotes already in the string are not doubled.
   */
  lemma QuotesNotDoubled(s: string, show: real -> string)
    ensures ',' in s ==> CountChar(Field(Str(s), show), '"') == CountChar(s, '"') + 2
    ensures ',' !in s ==> Field(Str(s), show) == s
  {
    if ',' in s {
      CountCharAppend("\"", s, '"');
      CountCharAppend("\"" + s, "\"", '"');
    }
  }

  /**
   * The value `a,"b` comes out as `"a,"b"`: a quoted field with an odd
   * number of quote characters, which section 2 of RFC 4180 does not allow
   * (an embedded quote must be written twice).
   */
  lemma UnescapedQuoteExample(show: real -> string)
    ensures Field(Str("a,\"b"), show) == "\"a,\"b\""
    ensures CountChar(Field(Str("a,\"b"), show), '"') == 3
  {
    var s := "a,\"b";
    assert ',' in s by { assert s[1] == ','; }
    assert CountChar(s, '"') == 1 by {
      assert s[1..] == ",\"b" && s[1..][1..] == "\"b" && s[1..][1..][1..] == "b";
      assert CountChar("b", '"') == 0 by { assert "b"[1..] == ""; }
    }
    QuotesNotDoubled(s, show);
  }
}

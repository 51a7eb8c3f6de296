/**
 * `PdfExportStrategy`: the printable HTML page of a table of rows, opened
 * in a new window for printing. The page's indentation is dropped, the
 * style sheet and the generation time (`toLocaleString('pt-BR')`) are
 * parameters, and so is whether the browser lets the window open.
 */
module PdfExportStrategy {
  import opened Wrappers
  import opened Text
  import opened ExportRows
  import opened ExportService
  import CsvExportStrategy

  /** The only error the export surfaces, whatever went wrong. */
  const ExportError: string := "Erro ao exportar PDF"

  /** The fixed markup around the title, the heading, the header cells and the body rows. */
  datatype Layout = Layout(
    documentStart: string, bodyStart: string, generatedLabel: string, tableStart: string,
    tableHeadEnd: string, closing: string)

  /** The markup of the page template, without its indentation. */
  const Standard: Layout := Layout(
    "<!DOCTYPE html><html lang=\"pt-BR\"><head><meta charset=\"UTF-8\"><meta name=\"viewport\" content=\"width=device-width, initial-scale=1.0\">",
    "</head><body><div class=\"header\">",
    "<p>Gerado em ",
    "</p></div><table><thead><tr>",
    "</tr></thead><tbody>",
    "</tbody></table><div class=\"footer\"><p>BitBudget - Sistema de Controle Financeiro</p></div></body></html>")

  /** JavaScript falsiness of a value: `''`, `0`, `false` and `undefined`. */
  predicate Falsy(c: Cell) {
    c == Str("") || c == Num(0.0) || c == Bool(false) || c == Missing
  }

  /** `${item[header] || ''}`: nothing for a falsy value, otherwise the value as text. */
  function CellText(c: Cell, show: real -> string): string {
    match c
    case Str(s) => s
    case Num(x) => if x == 0.0 then "" else show(x)
    case Bool(b) => if b then "true" else ""
    case Missing => ""
  }

  /** The `<title>` element. */
  function TitleTag(title: string): string {
    "<title>" + title + "</title>"
  }

  /** The page heading. */
  function Heading(title: string): string {
    "<h1>" + title + "</h1>"
  }

  /** `tableHeaders.map(header => <th>header</th>).join('')`. */
  function HeaderCells(headers: seq<string>): string {
    Concat(seq(|headers|, k requires 0 <= k < |headers| => "<th>" + headers[k] + "</th>"))
  }

  /** The table head: the generation line, then one `<th>` per header. */
  function TableHead(layout: Layout, generatedAt: string, headers: seq<string>): string {
    layout.generatedLabel + generatedAt + layout.tableStart + HeaderCells(headers) + layout.tableHeadEnd
  }

  /** What follows the `<title>` element up to the first body row. */
  function AfterTitle(layout: Layout, title: string, styles: string, generatedAt: string, headers: seq<string>): string {
    styles + layout.bodyStart + Heading(title) + TableHead(layout, generatedAt, headers)
  }

  /** Everything before the first body row. */
  function Opening(layout: Layout, title: string, styles: string, generatedAt: string, headers: seq<string>): string {
    layout.documentStart + TitleTag(title) + AfterTitle(layout, title, styles, generatedAt, headers)
  }

  /** `<td>${item[header] || ''}</td>`. */
  function CellHtml(row: Row, header: string, show: real -> string): string {
    "<td>" + CellText(Lookup(row, header), show) + "</td>"
  }

  /** The cells of one row, one per header, in header order. */
  function Cells(row: Row, headers: seq<string>, show: real -> string): (r: seq<string>)
    ensures |r| == |headers|
  {
    seq(|headers|, k requires 0 <= k < |headers| => CellHtml(row, headers[k], show))
  }

  /** One `<tr>` holding the row's cells. */
  function RowHtml(row: Row, headers: seq<string>, show: real -> string): string {
    "<tr>" + Concat(Cells(row, headers, show)) + "</tr>"
  }

  /** The body rows, one per row of data, in order. */
  function Rows(data: seq<Row>, headers: seq<string>, show: real -> string): (r: seq<string>)
    ensures |r| == |data|
  {
    seq(|data|, i requires 0 <= i < |data| => RowHtml(data[i], headers, show))
  }

  /** The page `generateHtml` returns. */
  function Html(layout: Layout, data: seq<Row>, title: string, styles: string, generatedAt: string, show: real -> string): string {
    Opening(layout, title, styles, generatedAt, TableHeaders(data)) + Concat(Rows(data, TableHeaders(data), show)) + layout.closing
  }

  /**
   * `generateHtml`: the opening with the first row's keys as headers, then
   * each row's `<tr>` appended in turn, then the closing.
   */
  method GenerateHtml(layout: Layout, data: seq<Row>, title: string, styles: string, generatedAt: string, show: real -> string)
    returns (html: string)
    ensures html == Html(layout, data, title, styles, generatedAt, show)
  {
    var tableHeaders := if |data| > 0 then ObjectKeys(data[0]) else [];
    html := Opening(layout, title, styles, generatedAt, tableHeaders);
    html := AppendEach(html, Rows(data, tableHeaders, show));
    html := html + layout.closing;
  }

  /**
   * `export`: the page when the window opens; when it does not (blocked
   * pop-ups), the single error 'Erro ao exportar PDF'.
   */
  method Export(payload: ExportData, styles: string, generatedAt: string, show: real -> string, windowOpens: bool)
    returns (r: Result<string, string>)
    ensures windowOpens ==> r == Success(Html(Standard, payload.data, payload.title, styles, generatedAt, show))
    ensures !windowOpens ==> r == Failure(ExportError)
  {
    var html := GenerateHtml(Standard, payload.data, payload.title, styles, generatedAt, show);
    if windowOpens {
      r := Success(html);
    } else {
      r := Failure(ExportError);
    }
  }

  /** Text found in the opening is found in the page. */
  lemma InOpening(layout: Layout, data: seq<Row>, title: string, styles: string, generatedAt: string, show: real -> string, sub: string)
    requires Contains(Opening(layout, title, styles, generatedAt, TableHeaders(data)), sub)
    ensures Contains(Html(layout, data, title, styles, generatedAt, show), sub)
  {
    var opening := Opening(layout, title, styles, generatedAt, TableHeaders(data));
    ContainsBefore(opening, Concat(Rows(data, TableHeaders(data), show)), sub);
    ContainsBefore(opening + Concat(Rows(data, TableHeaders(data), show)), layout.closing, sub);
  }

  /** The title appears both as the document's `<title>` and as the page heading. */
  lemma TitleTwice(layout: Layout, data: seq<Row>, title: string, styles: string, generatedAt: string, show: real -> string)
    ensures Contains(Html(layout, data, title, styles, generatedAt, show), TitleTag(title))
    ensures Contains(Html(layout, data, title, styles, generatedAt, show), Heading(title))
  {
    var headers := TableHeaders(data);
    var rest := AfterTitle(layout, title, styles, generatedAt, headers);
    ContainsInfix(layout.documentStart, TitleTag(title), rest);
    InOpening(layout, data, title, styles, generatedAt, show, TitleTag(title));
    ContainsInfix(styles + layout.bodyStart, Heading(title), TableHead(layout, generatedAt, headers));
    ContainsAfter(layout.documentStart + TitleTag(title), rest, Heading(title));
    InOpening(layout, data, title, styles, generatedAt, show, Heading(title));
  }

  /** No rows give no header cells and no body rows. */
  lemma EmptyData(show: real -> string)
    ensures HeaderCells(TableHeaders([])) == ""
    ensures Concat(Rows([], TableHeaders([]), show)) == ""
  {
  }

  /**
   * Row `i` of the page is the `i`-th row of data: a `<tr>` whose `k`-th
   * cell shows the value under the `k`-th header of the first row, with a
   * key the row lacks shown empty.
   */
  lemma RowLayout(data: seq<Row>, show: real -> string, i: nat, k: nat)
    requires i < |data| && k < |TableHeaders(data)|
    ensures var headers := TableHeaders(data);
      var tr := Rows(data, headers, show)[i];
      && |tr| >= 9 && tr[..4] == "<tr>" && tr[|tr| - 5..] == "</tr>"
      && tr[4..|tr| - 5] == Concat(Cells(data[i], headers, show))
      && Cells(data[i], headers, show)[k] == "<td>" + CellText(Lookup(data[i], headers[k]), show) + "</td>"
      && (headers[k] !in ObjectKeys(data[i]) ==> Cells(data[i], headers, show)[k] == "<td></td>")
  {
    var headers := TableHeaders(data);
    var tr := Rows(data, headers, show)[i];
    assert tr == "<tr>" + Concat(Cells(data[i], headers, show)) + "</tr>";
    if headers[k] !in ObjectKeys(data[i]) {
      LookupAbsent(data[i], headers[k]);
    }
  }

  /**
   * A falsy value, 0 and false included, renders as an empty cell and
   * every other string as itself; the CSV export, by contrast, writes 0 as
   * the rendered number and false as 'false'.
   */
  lemma FalsyCells(c: Cell, show: real -> string)
    ensures Falsy(c) ==> CellText(c, show) == ""
    ensures c.Str? ==> (CellText(c, show) == "" <==> c.s == "") && (c.s != "" ==> CellText(c, show) == c.s)
    ensures c.Bool? ==> (CellText(c, show) == "" <==> !c.b)
    ensures c.Num? && c.x != 0.0 ==> CellText(c, show) == show(c.x)
    ensures CellText(Num(0.0), show) == "" && CsvExportStrategy.Field(Num(0.0), show) == show(0.0)
    ensures CellText(Bool(false), show) == "" && CsvExportStrategy.Field(Bool(false), show) == "false"
  {
  }
}

/**
 * The older export panel (`ExportArea/index.tsx`), which builds its files
 * itself: CSV text per collection, printable HTML pages per collection,
 * the empty-collection guard and the dispatch on the selected format and
 * type. The locale formatters, `toString` of a number, the generation time
 * and the year are parameters; the pages' static markup is a `Page`
 * parameter; the download link, the print window and the JSON files are
 * not modelled.
 */
module LegacyExportArea {
  import opened Wrappers
  import opened Text
  import opened App
  import opened Categories
  import opened AiContext
  import opened ExportTypes
  import Formatters
  import TransactionFormatter
  import RecommendationFormatter
  import Web3AssetFormatter
  import ExportRows
  import ExportService
  import PdfExportStrategy
  import CsvExportStrategy

  // ---------------------------------------------------------------- categories

  /** `propCategories || categories`: the categories passed in, or the registry. */
  function CategoriesData(propCategories: Option<map<string, CategoryInfo>>): map<string, CategoryInfo> {
    propCategories.GetOr(Registry)
  }

  /** `getCategoryName`, the same rule as the formatter's: the title, or 'Desconhecida'. */
  function CategoryName(propCategories: Option<map<string, CategoryInfo>>, key: string): string {
    TransactionFormatter.CategoryName(key, CategoriesData(propCategories))
  }

  /** Without categories passed in, an unregistered key is named 'Desconhecida' and a registered one by its title. */
  lemma DefaultCategoryNames(key: string)
    ensures CategoryName(None, key) == TransactionFormatter.Unknown <==> key !in Registry
    ensures key in Registry ==> CategoryName(None, key) == Registry[key].title
  {
    TransactionFormatter.RegistryNames(key);
  }

  // ---------------------------------------------------------------- CSV

  /** The header lines of the three CSV files. */
  const TransactionsHeader: string := "Data,Categoria,Título,Valor\n"
  const CryptoHeader: string := "Nome,Símbolo,Saldo,Tipo de Token,Rede,Última Atualização\n"
  const RecommendationsHeader: string := "Título,Tipo,Conteúdo,Data de Criação,Lida\n"

  /** `value.toString().replace('.', ',')`: the first point becomes a comma. */
  function DecimalComma(s: string): string {
    ReplaceFirst(s, '.', ',')
  }

  /**
   * A rendered number with a decimal point gets exactly one point fewer
   * and one comma more, everything else in place; one without a point is
   * unchanged.
   */
  lemma DecimalCommaSpec(s: string)
    ensures |DecimalComma(s)| == |s|
    ensures '.' !in s ==> DecimalComma(s) == s
    ensures '.' in s ==> CountChar(DecimalComma(s), '.') + 1 == CountChar(s, '.')
    ensures '.' in s ==> CountChar(DecimalComma(s), ',') == CountChar(s, ',') + 1
    ensures CountChar(s, '.') == 1 ==> '.' !in DecimalComma(s)
  {
    if '.' in s {
      var r := ReplaceFirst(s, '.', ',');
      assert exists k :: 0 <= k < |s| && s[k] == '.' && '.' !in s[..k] && r == s[..k] + [','] + s[k + 1..];
      var k :| 0 <= k < |s| && s[k] == '.' && '.' !in s[..k] && r == s[..k] + [','] + s[k + 1..];
      ReplaceAtCount(s, k, ',', '.');
      ReplaceAtCount(s, k, ',', ',');
      if '.' in DecimalComma(s) {
        CountCharPositive(DecimalComma(s), '.');
      }
    }
  }

  /** Overwriting the character at `k` with `d` moves one count from the old character to `d`. */
  lemma ReplaceAtCount(s: string, k: nat, d: char, x: char)
    requires k < |s|
    ensures CountChar(s[..k] + [d] + s[k + 1..], x) + (if s[k] == x then 1 else 0)
         == CountChar(s, x) + (if d == x then 1 else 0)
  {
    assert s == s[..k] + [s[k]] + s[k + 1..];
    CountCharAppend(s[..k] + [s[k]], s[k + 1..], x);
    CountCharAppend(s[..k], [s[k]], x);
    CountCharAppend(s[..k] + [d], s[k + 1..], x);
    CountCharAppend(s[..k], [d], x);
  }

  /** A character that occurs is counted at least once. */
  lemma {:induction false} CountCharPositive(s: string, c: char)
    requires c in s
    ensures CountChar(s, c) >= 1
  {
    if s[0] != c {
      assert c in s[1..];
      CountCharPositive(s[1..], c);
    }
  }

  /** One transaction's line: date, category name, title and decimal-comma value, unquoted. */
  function TransactionLine(item: Item, propCategories: Option<map<string, CategoryInfo>>,
                           formatDate: int -> string, numberToString: real -> string): string
  {
    formatDate(item.date) + "," + CategoryName(propCategories, item.category) + "," + item.title + ","
    + DecimalComma(numberToString(item.value)) + "\n"
  }

  /** One asset's line: name, symbol, balance, token standard, network and update time, unquoted. */
  function CryptoLine(asset: Web3AssetFormatter.Web3Asset, toLocale: string -> string): string {
    asset.name + "," + asset.symbol + "," + asset.balance + "," + Web3AssetFormatter.TokenTypeName(asset.tokenType)
    + "," + asset.network + "," + toLocale(asset.lastUpdated) + "\n"
  }

  /** `content.replace(/"/g, '""')`. */
  function EscapeQuotes(content: string): string {
    ReplaceAll(content, '"', "\"\"")
  }

  /** Reading a quoted field back: each doubled quote stands for one quote. */
  function UnescapeQuotes(s: string): string {
    if s == [] then []
    else if |s| >= 2 && s[0] == '"' && s[1] == '"' then "\"" + UnescapeQuotes(s[2..])
    else [s[0]] + UnescapeQuotes(s[1..])
  }

  /** Escaping doubles every quote, and reading the field back gives the content. */
  lemma {:induction false} EscapeRoundTrip(content: string)
    ensures UnescapeQuotes(EscapeQuotes(content)) == content
    ensures CountChar(EscapeQuotes(content), '"') == 2 * CountChar(content, '"')
  {
    if content != [] {
      EscapeRoundTrip(content[1..]);
      var rest := EscapeQuotes(content[1..]);
      if content[0] == '"' {
        assert EscapeQuotes(content) == "\"\"" + rest;
        assert ("\"\"" + rest)[2..] == rest;
        CountCharAppend("\"\"", rest, '"');
      } else {
        assert EscapeQuotes(content) == [content[0]] + rest;
        assert ([content[0]] + rest)[1..] == rest;
        CountCharAppend([content[0]], rest, '"');
      }
    }
  }

  /** The read column, as in the formatter. */
  function ReadLabel(isRead: bool): string {
    RecommendationFormatter.ReadLabel(isRead)
  }

  /** One recommendation's line: title, raw type, escaped content and creation time quoted, then Sim or Não. */
  function RecommendationLine(rec: Recommendation, toLocale: string -> string): string {
    ContentStart(rec) + EscapeQuotes(rec.content) + ContentEnd(rec, toLocale)
  }

  /** The part of a recommendation line before the content: the quoted title and type and the content's opening quote. */
  function ContentStart(rec: Recommendation): string {
    "\"" + rec.title + "\",\"" + rec.kind + "\",\""
  }

  /** The part after the content: its closing quote, the quoted creation time and the read column. */
  function ContentEnd(rec: Recommendation, toLocale: string -> string): string {
    "\",\"" + toLocale(rec.createdAt) + "\"," + ReadLabel(rec.isRead) + "\n"
  }

  /**
   * The content column of a recommendation line sits between the quotes
   * that open and close it and reads back as the content, with twice its
   * quotes.
   */
  lemma RecommendationContentField(rec: Recommendation, toLocale: string -> string)
    ensures var line := RecommendationLine(rec, toLocale);
      var start := |ContentStart(rec)|;
      var field := EscapeQuotes(rec.content);
      && line[start - 1] == '"' && line[start + |field|] == '"'
      && line[start..start + |field|] == field
      && UnescapeQuotes(field) == rec.content
      && CountChar(field, '"') == 2 * CountChar(rec.content, '"')
  {
    var a, f, b := ContentStart(rec), EscapeQuotes(rec.content), ContentEnd(rec, toLocale);
    assert RecommendationLine(rec, toLocale) == a + f + b;
    assert a[|a| - 1] == '"' && b[0] == '"';
    assert (a + f + b)[|a|..|a| + |f|] == f;
    assert (a + f + b)[|a| - 1] == a[|a| - 1] && (a + f + b)[|a| + |f|] == b[0];
    EscapeRoundTrip(rec.content);
  }

  /** The lines of a collection, in order. */
  function TransactionLines(list: seq<Item>, propCategories: Option<map<string, CategoryInfo>>,
                            formatDate: int -> string, numberToString: real -> string): (r: seq<string>)
    ensures |r| == |list|
  {
    seq(|list|, i requires 0 <= i < |list| => TransactionLine(list[i], propCategories, formatDate, numberToString))
  }

  function CryptoLines(assets: seq<Web3AssetFormatter.Web3Asset>, toLocale: string -> string): (r: seq<string>)
    ensures |r| == |assets|
  {
    seq(|assets|, i requires 0 <= i < |assets| => CryptoLine(assets[i], toLocale))
  }

  function RecommendationLines(recs: seq<Recommendation>, toLocale: string -> string): (r: seq<string>)
    ensures |r| == |recs|
  {
    seq(|recs|, i requires 0 <= i < |recs| => RecommendationLine(recs[i], toLocale))
  }

  /** The CSV text of `exportTransactionsToCSV`: prefix, header, then each item's line appended in turn. */
  method TransactionsCsv(list: seq<Item>, propCategories: Option<map<string, CategoryInfo>>,
                         formatDate: int -> string, numberToString: real -> string) returns (csvContent: string)
    ensures csvContent == CsvExportStrategy.DataUriPrefix + TransactionsHeader
      + Concat(TransactionLines(list, propCategories, formatDate, numberToString))
  {
    csvContent := CsvExportStrategy.DataUriPrefix + TransactionsHeader;
    csvContent := AppendEach(csvContent, TransactionLines(list, propCategories, formatDate, numberToString));
  }

  /** The CSV text of `exportCryptoToCSV`. */
  method CryptoCsv(assets: seq<Web3AssetFormatter.Web3Asset>, toLocale: string -> string) returns (csvContent: string)
    ensures csvContent == CsvExportStrategy.DataUriPrefix + CryptoHeader + Concat(CryptoLines(assets, toLocale))
  {
    csvContent := CsvExportStrategy.DataUriPrefix + CryptoHeader;
    csvContent := AppendEach(csvContent, CryptoLines(assets, toLocale));
  }

  /** The CSV text of `exportRecommendationsToCSV`. */
  method RecommendationsCsv(recs: seq<Recommendation>, toLocale: string -> string) returns (csvContent: string)
    ensures csvContent == CsvExportStrategy.DataUriPrefix + RecommendationsHeader + Concat(RecommendationLines(recs, toLocale))
  {
    csvContent := CsvExportStrategy.DataUriPrefix + RecommendationsHeader;
    csvContent := AppendEach(csvContent, RecommendationLines(recs, toLocale));
  }

  /** The transactions header is the formatter's keys joined by commas. */
  lemma TransactionsHeaderJoin()
    ensures TransactionsHeader == Join(TransactionFormatter.Headers, ",") + "\n"
  {
    var h := TransactionFormatter.Headers;
    assert Join(h[3..], ",") == "Valor";
    assert Join(h[2..], ",") == "Título,Valor";
    assert Join(h[1..], ",") == "Categoria,Título,Valor";
  }

  /**
   * So the legacy transactions file starts with the header line the
   * strategy-based CSV export writes for formatted transactions.
   */
  lemma TransactionsHeaderAgrees(list: seq<Item>, categories: map<string, CategoryInfo>,
                                 formatDate: int -> string, formatCurrency: real -> string)
    requires list != []
    ensures var rows := TransactionFormatter.Format(list, categories, formatDate, formatCurrency);
      TransactionsHeader == Join(ExportRows.TableHeaders(rows), ",") + "\n"
  {
    TransactionFormatter.FormatSpec(list, categories, formatDate, formatCurrency, 0);
    TransactionsHeaderJoin();
  }

  /**
   * Every line ends the file's row with a newline, and a transaction line
   * holds one more comma than its date, category name, title and rendered
   * value: fields are not quoted.
   */
  lemma TransactionLineCommas(item: Item, propCategories: Option<map<string, CategoryInfo>>,
                              formatDate: int -> string, numberToString: real -> string)
    ensures var line := TransactionLine(item, propCategories, formatDate, numberToString);
      && line[|line| - 1] == '\n'
      && CountChar(line, ',') == 3 + CountChar(formatDate(item.date), ',')
           + CountChar(CategoryName(propCategories, item.category), ',') + CountChar(item.title, ',')
           + CountChar(DecimalComma(numberToString(item.value)), ',')
  {
    var a := formatDate(item.date);
    var b := CategoryName(propCategories, item.category);
    var c := item.title;
    var d := DecimalComma(numberToString(item.value));
    CountCharAppend(a, ",", ',');
    CountCharAppend(a + ",", b, ',');
    CountCharAppend(a + "," + b, ",", ',');
    CountCharAppend(a + "," + b + ",", c, ',');
    CountCharAppend(a + "," + b + "," + c, ",", ',');
    CountCharAppend(a + "," + b + "," + c + ",", d, ',');
    CountCharAppend(a + "," + b + "," + c + "," + d, "\n", ',');
  }

  // ---------------------------------------------------------------- names and JSON

  /** The download name of every legacy file: the collection's prefix, the date, the extension. */
  function DownloadName(kind: ExportType, date: string, extension: string): string {
    (match kind case Transactions => "transacoes" case Crypto => "ativos_cripto" case Recommendations => "recomendacoes")
    + "_" + date + "." + extension
  }

  /** The page title of each legacy PDF. */
  function PdfTitle(kind: ExportType): string {
    match kind
    case Transactions => "BitBudget - Relatório de Transações"
    case Crypto => "BitBudget - Relatório de Ativos Cripto"
    case Recommendations => "BitBudget - Relatório de Recomendações"
  }

  /**
   * The legacy panel names its files and titles its pages exactly as the
   * export service does for the same collection, so both paths download
   * the same file names.
   */
  lemma AgreesWithService(kind: ExportType, date: string, extension: string)
    ensures DownloadName(kind, date, extension) == ExportService.Filename(TypeKey(kind), extension, date)
    ensures PdfTitle(kind) == ExportService.TitleFor(TypeKey(kind))
  {
  }

  /** The objects `exportTransactionsToJSON` serialises: formatted date, category name, title and the raw value. */
  function TransactionsJsonData(list: seq<Item>, propCategories: Option<map<string, CategoryInfo>>,
                                formatDate: int -> string): (r: seq<ExportRows.Row>)
    ensures |r| == |list|
  {
    seq(|list|, i requires 0 <= i < |list| =>
      [("date", ExportRows.Str(formatDate(list[i].date))),
       ("category", ExportRows.Str(CategoryName(propCategories, list[i].category))),
       ("title", ExportRows.Str(list[i].title)),
       ("value", ExportRows.Num(list[i].value))])
  }

  /** Each serialised object holds the item's fields under the four keys, the value unformatted. */
  lemma TransactionsJsonSpec(list: seq<Item>, propCategories: Option<map<string, CategoryInfo>>,
                             formatDate: int -> string, i: nat)
    requires i < |list|
    ensures var row := TransactionsJsonData(list, propCategories, formatDate)[i];
      && ExportRows.ObjectKeys(row) == ["date", "category", "title", "value"]
      && ExportRows.Lookup(row, "title") == ExportRows.Str(list[i].title)
      && ExportRows.Lookup(row, "value") == ExportRows.Num(list[i].value)
      && ExportRows.Lookup(row, "category") == ExportRows.Str(CategoryName(propCategories, list[i].category))
  {
    var row := TransactionsJsonData(list, propCategories, formatDate)[i];
    assert ExportRows.DistinctKeys(row) by {
      assert |"date"| == 4 && |"category"| == 8 && "title"[0] != "value"[0];
    }
    ExportRows.LookupFinds(row, 1);
    ExportRows.LookupFinds(row, 2);
    ExportRows.LookupFinds(row, 3);
  }

  // ---------------------------------------------------------------- PDF pages

  /** The fixed markup of the legacy pages: head with styles, header block, table head and footer. */
  datatype Page = Page(
    documentStart: string, bodyStart: string, generatedLabel: string, tableStart: string,
    tableHeadEnd: string, footerStart: string, footerEnd: string)

  /** `<tr><td>…</td>…</tr>` around the given cell texts. */
  function TableRow(cells: seq<string>): string {
    "<tr>" + Concat(seq(|cells|, k requires 0 <= k < |cells| => "<td>" + cells[k] + "</td>")) + "</tr>"
  }

  /** A whole page: head, title and heading, generation time, header cells, body rows, footer with the year. */
  function PageHtml(page: Page, title: string, generatedAt: string, headers: seq<string>, body: string, year: string): string {
    page.documentStart + PdfExportStrategy.TitleTag(title) + page.bodyStart + PdfExportStrategy.Heading(title)
    + page.generatedLabel + generatedAt + page.tableStart + PdfExportStrategy.HeaderCells(headers) + page.tableHeadEnd
    + body + page.footerStart + year + page.footerEnd
  }

  /** The content cell of the recommendations page: more than 100 characters become the first 100 and '...'. */
  function PdfContent(content: string): string {
    if |content| > 100 then content[..100] + "..." else content
  }

  /**
   * Content of at most 100 characters is kept; longer content keeps its
   * first 100 and ends in '...', at most 103 characters. Content of 101 or
   * 102 characters comes out longer than it went in, where the shared
   * `truncateText` with a limit of 103 would keep it whole; from 104 on the
   * two agree.
   */
  lemma PdfContentSpec(content: string)
    ensures |content| <= 100 ==> PdfContent(content) == content
    ensures |content| > 100 ==> PdfContent(content)[..100] == content[..100] && |PdfContent(content)| == 103
    ensures 100 < |content| < 103 ==> |PdfContent(content)| > |content|
    ensures 100 < |content| < 103 ==> Formatters.TruncateText(content, 103) == content != PdfContent(content)
    ensures |content| <= 100 || |content| > 103 ==> PdfContent(content) == Formatters.TruncateText(content, 103)
  {
    if |content| > 100 {
      assert PdfContent(content)[..100] == content[..100];
      if |content| <= 103 {
        assert |PdfContent(content)| == 103;
      }
    }
  }

  /** One transaction's row on the page: the currency formatter, not the decimal comma. */
  function TransactionPdfRow(item: Item, categories: map<string, CategoryInfo>,
                             formatDate: int -> string, formatCurrency: real -> string): string
  {
    TableRow([formatDate(item.date), TransactionFormatter.CategoryName(item.category, categories), item.title, formatCurrency(item.value)])
  }

  function CryptoPdfRow(asset: Web3AssetFormatter.Web3Asset, toLocale: string -> string): string {
    TableRow([asset.name, asset.symbol, asset.balance, Web3AssetFormatter.TokenTypeName(asset.tokenType), asset.network,
              toLocale(asset.lastUpdated)])
  }

  function RecommendationPdfRow(rec: Recommendation, toLocale: string -> string): string {
    TableRow([rec.title, rec.kind, PdfContent(rec.content), toLocale(rec.createdAt), ReadLabel(rec.isRead)])
  }

  /** `generateTransactionsPdfHtml`: the page with each item's row appended in turn. */
  method TransactionsPdfHtml(page: Page, list: seq<Item>, categories: map<string, CategoryInfo>, title: string,
                             generatedAt: string, year: string, formatDate: int -> string, formatCurrency: real -> string)
    returns (html: string)
    ensures html == PageHtml(page, title, generatedAt, TransactionFormatter.Headers,
      Concat(seq(|list|, i requires 0 <= i < |list| => TransactionPdfRow(list[i], categories, formatDate, formatCurrency))), year)
  {
    html := page.documentStart + PdfExportStrategy.TitleTag(title) + page.bodyStart + PdfExportStrategy.Heading(title)
      + page.generatedLabel + generatedAt;
    html := html + page.tableStart + PdfExportStrategy.HeaderCells(TransactionFormatter.Headers) + page.tableHeadEnd;
    html := AppendEach(html, seq(|list|, i requires 0 <= i < |list| => TransactionPdfRow(list[i], categories, formatDate, formatCurrency)));
    html := html + page.footerStart + year + page.footerEnd;
  }

  /** `generateCryptoAssetsPdfHtml`. */
  method CryptoPdfHtml(page: Page, assets: seq<Web3AssetFormatter.Web3Asset>, title: string,
                       generatedAt: string, year: string, toLocale: string -> string)
    returns (html: string)
    ensures html == PageHtml(page, title, generatedAt, Web3AssetFormatter.Headers,
      Concat(seq(|assets|, i requires 0 <= i < |assets| => CryptoPdfRow(assets[i], toLocale))), year)
  {
    html := page.documentStart + PdfExportStrategy.TitleTag(title) + page.bodyStart + PdfExportStrategy.Heading(title)
      + page.generatedLabel + generatedAt;
    html := html + page.tableStart + PdfExportStrategy.HeaderCells(Web3AssetFormatter.Headers) + page.tableHeadEnd;
    html := AppendEach(html, seq(|assets|, i requires 0 <= i < |assets| => CryptoPdfRow(assets[i], toLocale)));
    html := html + page.footerStart + year + page.footerEnd;
  }

  /** `generateRecommendationsPdfHtml`. */
  method RecommendationsPdfHtml(page: Page, recs: seq<Recommendation>, title: string,
                                generatedAt: string, year: string, toLocale: string -> string)
    returns (html: string)
    ensures html == PageHtml(page, title, generatedAt, RecommendationFormatter.Headers,
      Concat(seq(|recs|, i requires 0 <= i < |recs| => RecommendationPdfRow(recs[i], toLocale))), year)
  {
    html := page.documentStart + PdfExportStrategy.TitleTag(title) + page.bodyStart + PdfExportStrategy.Heading(title)
      + page.generatedLabel + generatedAt;
    html := html + page.tableStart + PdfExportStrategy.HeaderCells(RecommendationFormatter.Headers) + page.tableHeadEnd;
    html := AppendEach(html, seq(|recs|, i requires 0 <= i < |recs| => RecommendationPdfRow(recs[i], toLocale)));
    html := html + page.footerStart + year + page.footerEnd;
  }

  // ---------------------------------------------------------------- dispatch

  /** The nine export functions of the panel. */
  datatype Builder =
    | TransactionsToCsv | CryptoToCsv | RecommendationsToCsv
    | TransactionsToJson | CryptoToJson | RecommendationsToJson
    | TransactionsToPdf | CryptoToPdf | RecommendationsToPdf

  /** The nested `switch` of `handleExport`. */
  function Dispatch(format: ExportFormat, kind: ExportType): Builder {
    match format
    case Csv => (match kind case Transactions => TransactionsToCsv case Crypto => CryptoToCsv case Recommendations => RecommendationsToCsv)
    case Json => (match kind case Transactions => TransactionsToJson case Crypto => CryptoToJson case Recommendations => RecommendationsToJson)
    case Pdf => (match kind case Transactions => TransactionsToPdf case Crypto => CryptoToPdf case Recommendations => RecommendationsToPdf)
  }

  /** The format a builder writes. */
  function FormatOf(b: Builder): ExportFormat {
    match b
    case TransactionsToCsv | CryptoToCsv | RecommendationsToCsv => Csv
    case TransactionsToJson | CryptoToJson | RecommendationsToJson => Json
    case TransactionsToPdf | CryptoToPdf | RecommendationsToPdf => Pdf
  }

  /** The collection a builder exports. */
  function TypeOf(b: Builder): ExportType {
    match b
    case TransactionsToCsv | TransactionsToJson | TransactionsToPdf => Transactions
    case CryptoToCsv | CryptoToJson | CryptoToPdf => Crypto
    case RecommendationsToCsv | RecommendationsToJson | RecommendationsToPdf => Recommendations
  }

  /** Each format and type pair reaches exactly one builder, and every builder is reached by its own pair. */
  lemma DispatchBijective(format: ExportFormat, kind: ExportType, b: Builder)
    ensures FormatOf(Dispatch(format, kind)) == format && TypeOf(Dispatch(format, kind)) == kind
    ensures Dispatch(FormatOf(b), TypeOf(b)) == b
  {
  }

  /** `getExportTypeLabel`. */
  function TypeLabel(kind: ExportType): string {
    match kind
    case Transactions => "Transações"
    case Crypto => "Ativos Cripto"
    case Recommendations => "Recomendações"
  }

  /** The guard's message. */
  function NothingMessage(kind: ExportType): string {
    "Não há " + Lower(TypeLabel(kind)) + " para exportar"
  }

  /** The guard's message holds the collection's name in lower case between its fixed opening and ending. */
  lemma NothingMessageShape(kind: ExportType)
    ensures var m := NothingMessage(kind);
      |m| == 21 + |TypeLabel(kind)| && m[7..|m| - 14] == Lower(TypeLabel(kind))
  {
    var m := NothingMessage(kind);
    assert m[7..|m| - 14] == Lower(TypeLabel(kind));
  }

  /** Each collection gets its own message. */
  lemma NothingMessagesDistinct(kind: ExportType, other: ExportType)
    requires other != kind
    ensures NothingMessage(other) != NothingMessage(kind)
  {
    LabelInitials(kind, other);
    MessagesDiffer(TypeLabel(kind), TypeLabel(other));
  }

  /** The three names start with three different capitals. */
  lemma LabelInitials(kind: ExportType, other: ExportType)
    requires other != kind
    ensures TypeLabel(kind) != [] && TypeLabel(other) != [] && TypeLabel(kind)[0] != TypeLabel(other)[0]
    ensures 'A' <= TypeLabel(kind)[0] <= 'Z' && 'A' <= TypeLabel(other)[0] <= 'Z'
  {
  }

  /** Names starting with different capitals give different messages. */
  lemma MessagesDiffer(a: string, b: string)
    requires a != [] && b != [] && a[0] != b[0] && 'A' <= a[0] <= 'Z' && 'A' <= b[0] <= 'Z'
    ensures "Não há " + Lower(a) + " para exportar" != "Não há " + Lower(b) + " para exportar"
  {
    var m, n := "Não há " + Lower(a) + " para exportar", "Não há " + Lower(b) + " para exportar";
    assert m[7] == LowerChar(a[0]) && n[7] == LowerChar(b[0]);
  }

  /** The guard of `handleExport`: the selected collection is empty. */
  predicate NothingToExport(kind: ExportType, list: seq<Item>, assets: seq<Web3AssetFormatter.Web3Asset>, recs: seq<Recommendation>) {
    (kind == Transactions && |list| == 0) || (kind == Crypto && |assets| == 0) || (kind == Recommendations && |recs| == 0)
  }

  /** The export button's text: busy while exporting, otherwise naming the collection. */
  function ButtonText(isExporting: bool, kind: ExportType): string {
    if isExporting then "Exportando..." else "Exportar " + TypeLabel(kind)
  }

  /** The button names the selected collection whenever it is idle, and never while busy. */
  lemma ButtonTextSpec(isExporting: bool, kind: ExportType, other: ExportType)
    ensures !isExporting ==> ButtonText(isExporting, kind)[9..] == TypeLabel(kind)
    ensures !isExporting && other != kind ==> ButtonText(isExporting, kind) != ButtonText(isExporting, other)
    ensures isExporting ==> ButtonText(isExporting, kind) == ButtonText(isExporting, other)
  {
    if !isExporting && other != kind {
      assert ButtonText(isExporting, kind)[9..] == TypeLabel(kind);
      assert ButtonText(isExporting, other)[9..] == TypeLabel(other);
      assert |TypeLabel(Transactions)| == 10 && |TypeLabel(Crypto)| == 13 && |TypeLabel(Recommendations)| == 13;
      assert TypeLabel(Crypto)[0] != TypeLabel(Recommendations)[0];
    }
  }

  /** What a click on the export button did. */
  datatype Outcome = Refused(message: string) | Ran(builder: Builder)

  /** The panel's state. */
  class Panel {
    var exportType: ExportType
    var exportFormat: ExportFormat
    var isExporting: bool

    constructor ()
      ensures exportType == Transactions && exportFormat == Csv && !isExporting
    {
      exportType := Transactions;
      exportFormat := Csv;
      isExporting := false;
    }

    /**
     * `handleExport`: with the selected collection empty, an error naming
     * it and nothing else; otherwise the one builder for the selected
     * format and type runs. CSV and JSON builders finish at once; a PDF
     * builder leaves the panel exporting until the print timer fires, unless
     * the window could not open.
     */
    method HandleExport(list: seq<Item>, assets: seq<Web3AssetFormatter.Web3Asset>, recs: seq<Recommendation>, windowOpens: bool)
      returns (outcome: Outcome)
      modifies this
      ensures exportType == old(exportType) && exportFormat == old(exportFormat)
      ensures NothingToExport(exportType, list, assets, recs) ==>
        outcome == Refused(NothingMessage(exportType)) && isExporting == old(isExporting)
      ensures !NothingToExport(exportType, list, assets, recs) ==>
        outcome == Ran(Dispatch(exportFormat, exportType)) && isExporting == (exportFormat == Pdf && windowOpens)
    {
      if (exportType == Transactions && |list| == 0) || (exportType == Crypto && |assets| == 0)
         || (exportType == Recommendations && |recs| == 0) {
        return Refused(NothingMessage(exportType));
      }
      isExporting := true;
      var builder := Dispatch(exportFormat, exportType);
      outcome := Ran(builder);
      if exportFormat != Pdf || !windowOpens {
        isExporting := false;
      }
    }

    /** The print timer of an opened PDF window: the panel stops exporting. */
    method PrintDone()
      modifies this
      ensures !isExporting && exportType == old(exportType) && exportFormat == old(exportFormat)
    {
      isExporting := false;
    }
  }
}

/**
 * `ExportService`: picks the strategy registered for the requested format,
 * names the file after the export type and the day, chooses the title, and
 * hands the rows over. The strategy itself is not run here; the result says
 * which one receives which export. The day (`toISOString` cut at 'T') is a
 * parameter.
 */
module ExportService {
  import opened Wrappers
  import opened ExportRows

  /** The registered strategies. */
  datatype Strategy = CsvStrategy | JsonStrategy | PdfStrategy

  /** What a strategy receives: `ExportData`. */
  datatype ExportData = ExportData(data: seq<Row>, filename: string, title: string)

  /** The strategy chosen and the data it is called with. */
  datatype StrategyCall = StrategyCall(strategy: Strategy, payload: ExportData)

  /** The map the constructor fills. */
  const Registered: map<string, Strategy> := map["csv" := CsvStrategy, "json" := JsonStrategy, "pdf" := PdfStrategy]

  /** The title used for a type outside the three known ones. */
  const FallbackTitle: string := "BitBudget - Relatório"

  /** The three export types the maps know. */
  predicate KnownType(kind: string) {
    kind == "transactions" || kind == "crypto" || kind == "recommendations"
  }

  /** The `typeMap` of `generateFilename`, with the type itself as fallback. */
  function TypeName(kind: string): string {
    match kind
    case "transactions" => "transacoes"
    case "crypto" => "ativos_cripto"
    case "recommendations" => "recomendacoes"
    case _ => kind
  }

  /** `generateFilename`: `<typeName>_<date>.<format>`. */
  function Filename(kind: string, format: string, date: string): string {
    TypeName(kind) + "_" + date + "." + format
  }

  /** `generateTitle`: the per-type report title, 'BitBudget - Relatório' for any other type. */
  function TitleFor(kind: string): string {
    match kind
    case "transactions" => "BitBudget - Relatório de Transações"
    case "crypto" => "BitBudget - Relatório de Ativos Cripto"
    case "recommendations" => "BitBudget - Relatório de Recomendações"
    case _ => FallbackTitle
  }

  /**
   * The three known types get three different file names, none equal to
   * the type itself; any other type is used as it is.
   */
  lemma TypeNameSpec(kind: string, other: string)
    ensures !KnownType(kind) ==> TypeName(kind) == kind
    ensures KnownType(kind) ==> TypeName(kind) != kind
    ensures KnownType(kind) && KnownType(other) && kind != other ==> TypeName(kind) != TypeName(other)
  {
  }

  /**
   * The file name starts with the type's name and an underscore, and ends
   * with the day, a dot and the format, so the extension is the format.
   */
  lemma FilenameShape(kind: string, format: string, date: string)
    ensures var f := Filename(kind, format, date);
      var n := |TypeName(kind)|;
      && |f| == n + |date| + |format| + 2
      && f[..n] == TypeName(kind) && f[n] == '_'
      && f[n + 1..n + 1 + |date|] == date
      && f[|f| - |format| - 1] == '.' && f[|f| - |format|..] == format
  {
  }

  /** The fallback title is used exactly for the types outside the three. */
  lemma TitleForSpec(kind: string)
    ensures TitleFor(kind) == FallbackTitle <==> !KnownType(kind)
  {
    assert |FallbackTitle| == 21;
  }

  /** `options.title || this.generateTitle(options.type)`. */
  function ChosenTitle(title: Option<string>, kind: string): string {
    OrElse(title, TitleFor(kind))
  }

  /** A non-empty title given by the caller wins; otherwise the type's title is used. */
  lemma ChosenTitleSpec(title: Option<string>, kind: string)
    ensures title.Some? && title.value != "" ==> ChosenTitle(title, kind) == title.value
    ensures title.None? || title.value == "" ==> ChosenTitle(title, kind) == TitleFor(kind)
  {
  }

  /** The error thrown for a format without a strategy. */
  function Unsupported(format: string): string {
    "Formato de exportação não suportado: " + format
  }

  class Service {
    /** `strategies`: format to strategy. */
    var strategies: map<string, Strategy>

    /** The constructor registers the three strategies. */
    predicate Valid()
      reads this
    {
      strategies == Registered
    }

    constructor ()
      ensures Valid()
    {
      strategies := map[];
      new;
      strategies := strategies["csv" := CsvStrategy];
      strategies := strategies["json" := JsonStrategy];
      strategies := strategies["pdf" := PdfStrategy];
    }

    /**
     * `export`: a format without a strategy fails with its message before
     * any strategy runs; otherwise the strategy for that format is called
     * once, with the rows unchanged, the generated file name and the chosen
     * title.
     */
    method Export(format: string, kind: string, data: seq<Row>, title: Option<string>, date: string)
      returns (r: Result<StrategyCall, string>)
      requires Valid()
      ensures r.Failure? <==> format !in Registered
      ensures r.Failure? ==> r.error == Unsupported(format)
      ensures r.Success? ==>
        && r.value.strategy == Registered[format]
        && r.value.payload.data == data
        && r.value.payload.filename == Filename(kind, format, date)
        && r.value.payload.title == ChosenTitle(title, kind)
    {
      if format !in strategies {
        return Failure(Unsupported(format));
      }
      var strategy := strategies[format];
      var filename := Filename(kind, format, date);
      var chosen := OrElse(title, TitleFor(kind));
      r := Success(StrategyCall(strategy, ExportData(data, filename, chosen)));
    }
  }

  /** Each supported format has its own strategy. */
  lemma StrategiesDistinct(f: string, g: string)
    requires f in Registered && g in Registered && f != g
    ensures Registered[f] != Registered[g]
  {
  }
}

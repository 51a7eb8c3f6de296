/**
 * `RecommendationFormatter.format`: one flat row per recommendation, with
 * the type translated and the read flag written as 'Sim' or 'Não'. The
 * creation date's `toLocaleString('pt-BR')` is a parameter.
 */
module RecommendationFormatter {
  import opened AiContext
  import opened ExportRows
  import RecommendationsList

  /** The keys of a formatted recommendation, in order. */
  const Headers: seq<string> := ["Título", "Tipo", "Conteúdo", "Data de Criação", "Lida"]

  /** The four recommendation types the map knows. */
  predicate KnownType(kind: string) {
    kind == "SAVING" || kind == "INVESTMENT" || kind == "BUDGET" || kind == "GENERAL"
  }

  /** `getTypeLabel`: the Portuguese label of a known type, the type itself otherwise. */
  function TypeLabel(kind: string): string {
    match kind
    case "SAVING" => "Economia"
    case "INVESTMENT" => "Investimento"
    case "BUDGET" => "Orçamento"
    case "GENERAL" => "Geral"
    case _ => kind
  }

  /**
   * An unknown type passes through unchanged; a known one gets its own
   * label, never the type string itself. For the four known types the
   * label is the one the recommendation cards show in their badge; an
   * unknown type other than 'Geral' is exported as itself where the card
   * says 'Geral'.
   */
  lemma TypeLabelSpec(kind: string)
    ensures !KnownType(kind) ==> TypeLabel(kind) == kind
    ensures KnownType(kind) ==> TypeLabel(kind) != kind
    ensures KnownType(kind) ==> TypeLabel(kind) == RecommendationsList.BadgeText(kind)
    ensures !KnownType(kind) && kind != "Geral" ==> TypeLabel(kind) != RecommendationsList.BadgeText(kind)
  {
  }

  /** The read column. */
  function ReadLabel(isRead: bool): string {
    if isRead then "Sim" else "Não"
  }

  /** The row of one recommendation. */
  function Formatted(rec: Recommendation, toLocale: string -> string): Row {
    [("Título", Str(rec.title)),
     ("Tipo", Str(TypeLabel(rec.kind))),
     ("Conteúdo", Str(rec.content)),
     ("Data de Criação", Str(toLocale(rec.createdAt))),
     ("Lida", Str(ReadLabel(rec.isRead)))]
  }

  /** `recommendations.map(...)`. */
  function Format(recommendations: seq<Recommendation>, toLocale: string -> string): (r: seq<Row>)
    ensures |r| == |recommendations|
  {
    seq(|recommendations|, i requires 0 <= i < |recommendations| => Formatted(recommendations[i], toLocale))
  }

  /**
   * Row `i` belongs to recommendation `i`: its keys come once each in the
   * listed order; the title and content are copied, the type is its label,
   * and Lida reads 'Sim' exactly when the recommendation is read.
   */
  lemma FormatSpec(recommendations: seq<Recommendation>, toLocale: string -> string, i: nat)
    requires i < |recommendations|
    ensures var row := Format(recommendations, toLocale)[i];
      var rec := recommendations[i];
      && ObjectKeys(row) == Headers && DistinctKeys(row)
      && Lookup(row, "Título") == Str(rec.title)
      && Lookup(row, "Tipo") == Str(TypeLabel(rec.kind))
      && Lookup(row, "Conteúdo") == Str(rec.content)
      && Lookup(row, "Data de Criação") == Str(toLocale(rec.createdAt))
      && (Lookup(row, "Lida") == Str("Sim") <==> rec.isRead)
  {
    var row := Format(recommendations, toLocale)[i];
    assert ObjectKeys(row) == Headers;
    LookupFinds(row, 0);
    LookupFinds(row, 1);
    LookupFinds(row, 2);
    LookupFinds(row, 3);
    LookupFinds(row, 4);
  }
}

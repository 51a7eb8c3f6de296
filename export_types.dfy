/**
 * The export formats and the exportable collections, and the strings that
 * name them where the code passes them on as text.
 */
module ExportTypes {

  datatype ExportFormat = Csv | Json | Pdf
  datatype ExportType = Transactions | Crypto | Recommendations

  /** The format's string value: 'csv', 'json' or 'pdf'. */
  function FormatKey(format: ExportFormat): string {
    match format
    case Csv => "csv"
    case Json => "json"
    case Pdf => "pdf"
  }

  /** The type's string value: 'transactions', 'crypto' or 'recommendations'. */
  function TypeKey(kind: ExportType): string {
    match kind
    case Transactions => "transactions"
    case Crypto => "crypto"
    case Recommendations => "recommendations"
  }

  /** Different formats and different types are passed on as different strings. */
  lemma KeysInjective(f: ExportFormat, g: ExportFormat, k: ExportType, l: ExportType)
    ensures FormatKey(f) == FormatKey(g) <==> f == g
    ensures TypeKey(k) == TypeKey(l) <==> k == l
  {
  }
}

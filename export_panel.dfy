/**
 * The export panel built on the export service (`ExportArea/ExportArea.tsx`):
 * the item count per collection, when the export button is enabled, when
 * the no-data notice shows, and what a click asks the export hook for.
 * Whether the hook is busy is a parameter.
 */
module ExportPanel {
  import opened Wrappers
  import opened App
  import opened Categories
  import opened AiContext
  import opened ExportTypes
  import ExportService
  import TransactionFormatter
  import Web3AssetFormatter
  import LegacyExportArea

  /** `getDataCount`: how many items the collection of that type holds. */
  function DataCount(kind: ExportType, list: seq<Item>, assets: seq<Web3AssetFormatter.Web3Asset>, recs: seq<Recommendation>): nat {
    match kind
    case Transactions => |list|
    case Crypto => |assets|
    case Recommendations => |recs|
  }

  /** The button's `disabled` attribute. */
  predicate ButtonDisabled(isExporting: bool, count: nat) {
    isExporting || count == 0
  }

  /** Whether the no-data notice is rendered. */
  predicate NoDataShown(count: nat) {
    count == 0
  }

  /** The button's text. */
  function ButtonText(isExporting: bool): string {
    if isExporting then "Exportando..." else "Exportar"
  }

  /**
   * A collection counts zero exactly when the older panel's guard would
   * refuse it; so this panel offers the button only for what the older one
   * would export, and shows the notice exactly when the button is off while
   * idle.
   */
  lemma CountMatchesGuard(kind: ExportType, list: seq<Item>, assets: seq<Web3AssetFormatter.Web3Asset>,
                          recs: seq<Recommendation>, isExporting: bool)
    ensures DataCount(kind, list, assets, recs) == 0 <==> LegacyExportArea.NothingToExport(kind, list, assets, recs)
    ensures !ButtonDisabled(isExporting, DataCount(kind, list, assets, recs)) <==>
      !isExporting && !LegacyExportArea.NothingToExport(kind, list, assets, recs)
    ensures !isExporting ==> (ButtonDisabled(isExporting, DataCount(kind, list, assets, recs)) <==>
      NoDataShown(DataCount(kind, list, assets, recs)))
    ensures isExporting ==> ButtonDisabled(isExporting, DataCount(kind, list, assets, recs))
  {
  }

  /** What a click forwards to `exportData`: the selected format and type. */
  datatype Request = Request(format: ExportFormat, kind: ExportType)

  /**
   * The selected format is always one the export service has a strategy
   * for, and the selected type one it has a file name and title for, so a
   * forwarded request never hits the unsupported-format error.
   */
  lemma RequestsSupported(format: ExportFormat, kind: ExportType)
    ensures FormatKey(format) in ExportService.Registered
    ensures ExportService.KnownType(TypeKey(kind))
  {
  }

  /** `categories = {}`: the categories passed in, or none at all. */
  function PanelCategories(propCategories: Option<map<string, CategoryInfo>>): map<string, CategoryInfo> {
    propCategories.GetOr(map[])
  }

  /**
   * Without categories passed in, every transaction is exported under the
   * category 'Desconhecida', where the older panel falls back to the
   * registry and names the registered keys by their titles.
   */
  lemma MissingCategoriesDiffer(key: string)
    ensures TransactionFormatter.CategoryName(key, PanelCategories(None)) == TransactionFormatter.Unknown
    ensures key in Registry ==> LegacyExportArea.CategoryName(None, key) != TransactionFormatter.CategoryName(key, PanelCategories(None))
  {
    LegacyExportArea.DefaultCategoryNames(key);
  }

  /** The panel's own state; the hook's busy flag is passed in. */
  class Panel {
    var isExpanded: bool
    var exportType: ExportType
    var exportFormat: ExportFormat

    constructor ()
      ensures !isExpanded && exportType == Transactions && exportFormat == Csv
    {
      isExpanded := false;
      exportType := Transactions;
      exportFormat := Csv;
    }

    /** A click on the header opens or closes the panel. */
    method Toggle()
      modifies this
      ensures isExpanded == !old(isExpanded)
      ensures exportType == old(exportType) && exportFormat == old(exportFormat)
    {
      isExpanded := !isExpanded;
    }

    /** Choosing a type; the select is disabled while exporting. */
    method SelectType(kind: ExportType, isExporting: bool)
      modifies this
      ensures exportType == (if isExporting then old(exportType) else kind)
      ensures exportFormat == old(exportFormat) && isExpanded == old(isExpanded)
    {
      if !isExporting {
        exportType := kind;
      }
    }

    /** Choosing a format; the select is disabled while exporting. */
    method SelectFormat(format: ExportFormat, isExporting: bool)
      modifies this
      ensures exportFormat == (if isExporting then old(exportFormat) else format)
      ensures exportType == old(exportType) && isExpanded == old(isExpanded)
    {
      if !isExporting {
        exportFormat := format;
      }
    }

    /**
     * `handleExport` behind the button: an enabled button forwards exactly
     * the selected format and type; a disabled one does nothing. The panel
     * itself does not change.
     */
    method Click(isExporting: bool, list: seq<Item>, assets: seq<Web3AssetFormatter.Web3Asset>, recs: seq<Recommendation>)
      returns (r: Option<Request>)
      ensures r.Some? <==> !isExporting && !LegacyExportArea.NothingToExport(exportType, list, assets, recs)
      ensures r.Some? ==> r.value.format == exportFormat && r.value.kind == exportType
    {
      if ButtonDisabled(isExporting, DataCount(exportType, list, assets, recs)) {
        return None;
      }
      r := Some(Request(exportFormat, exportType));
    }
  }
}

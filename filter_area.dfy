/**
 * The filter panel: six text inputs, turned into the filter the root
 * component applies. Numeric and date inputs are parsed when non-empty and
 * read as "no bound" when empty.
 */
module FilterArea {
  import opened Wrappers
  import opened App

  /** An input read through `parse` when it is non-empty (a truthy string), None otherwise. */
  function Optional<T>(text: string, parse: string -> T): (r: Option<T>)
    ensures r.None? <==> text == ""
    ensures r.Some? ==> r.value == parse(text)
  {
    if text != "" then Some(parse(text)) else None
  }

  /** The six inputs of the panel; `parseNumber` is `parseFloat` and `parseDate` is `new Date`. */
  class FilterForm {
    var searchText: string
    var category: string
    var minValue: string
    var maxValue: string
    var startDate: string
    var endDate: string

    constructor ()
      ensures searchText == "" && category == "" && minValue == "" && maxValue == "" && startDate == "" && endDate == ""
    {
      searchText, category, minValue, maxValue, startDate, endDate := "", "", "", "", "", "";
    }

    /** The filter the effect emits for the current inputs. */
    function Filters(parseNumber: string -> real, parseDate: string -> int): (r: FilterOptions)
      reads this
      ensures r.searchText == searchText && r.category == category
      ensures r.minValue.None? <==> minValue == ""
      ensures r.maxValue.None? <==> maxValue == ""
      ensures r.startDate.None? <==> startDate == ""
      ensures r.endDate.None? <==> endDate == ""
      ensures r.minValue.Some? ==> r.minValue.value == parseNumber(minValue)
      ensures r.maxValue.Some? ==> r.maxValue.value == parseNumber(maxValue)
      ensures r.startDate.Some? ==> r.startDate.value == parseDate(startDate)
      ensures r.endDate.Some? ==> r.endDate.value == parseDate(endDate)
    {
      FilterOptions(searchText, category,
        Optional(minValue, parseNumber), Optional(maxValue, parseNumber),
        Optional(startDate, parseDate), Optional(endDate, parseDate))
    }

    /** `clearFilters`: all six inputs back to ''. */
    method Clear()
      modifies this
      ensures searchText == "" && category == "" && minValue == "" && maxValue == "" && startDate == "" && endDate == ""
    {
      searchText, category, minValue, maxValue, startDate, endDate := "", "", "", "", "", "";
    }
  }

  /** Cleared inputs emit the all-default filter, whatever the parsers, so every item passes. */
  lemma ClearedFormEmitsNoFilters(form: FilterForm, parseNumber: string -> real, parseDate: string -> int, items: seq<Item>)
    requires form.searchText == "" && form.category == "" && form.minValue == "" && form.maxValue == ""
    requires form.startDate == "" && form.endDate == ""
    ensures form.Filters(parseNumber, parseDate) == NoFilters
    ensures !HasActiveFilters(form.Filters(parseNumber, parseDate))
    ensures ApplyFilters(items, form.Filters(parseNumber, parseDate)) == items
  {
    NoFiltersKeepAll(items);
  }

  /** A dimension is active in the emitted filter exactly when its input is non-empty. */
  lemma ActiveIffSomeInput(form: FilterForm, parseNumber: string -> real, parseDate: string -> int)
    ensures HasActiveFilters(form.Filters(parseNumber, parseDate))
        <==> (form.searchText != "" || form.category != "" || form.minValue != "" || form.maxValue != ""
              || form.startDate != "" || form.endDate != "")
  {
  }
}

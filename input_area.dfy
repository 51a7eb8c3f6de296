/**
 * The new-transaction form: four validators that each set an error field,
 * and the add button, which runs all four and hands the item over only when
 * every field is valid, then clears the form.
 */
module InputArea {
  import opened Wrappers
  import opened Text
  import opened Time
  import opened Categories
  import opened App

  const DateRequired: string := "Data é obrigatória!"
  const DateInvalid: string := "Data inválida!"
  const DateTooFarAhead: string := "A data não pode ser mais de 1 dia no futuro!"
  const DateTooOld: string := "A data não pode ser mais de 5 anos no passado!"
  const CategoryRequired: string := "Categoria é obrigatória!"
  const CategoryInvalid: string := "Categoria inválida!"
  const TitleRequired: string := "Título é obrigatório!"
  const TitleTooShort: string := "Título deve ter pelo menos 3 caracteres!"
  const TitleTooLong: string := "Título deve ter no máximo 50 caracteres!"
  const ValueNotPositive: string := "Valor deve ser maior que zero!"
  const ValueTooLarge: string := "Valor não pode exceder R$ 1.000.000,00!"

  /**
   * `validateDate`: the message it stores ('' when valid). `parse` is
   * `new Date(text)` (None for an invalid date) and `now` the current time.
   * A date is accepted from five years before now up to one day after now.
   */
  function DateError(date: string, now: int, parse: string -> Option<int>): (r: string)
    ensures r == "" <==> date != "" && parse(date).Some? && AddYears(now, -5) <= parse(date).value <= now + DayMs
    ensures r == DateRequired <==> date == ""
    ensures r == DateInvalid <==> date != "" && parse(date).None?
    ensures r == DateTooFarAhead <==> date != "" && parse(date).Some? && parse(date).value > now + DayMs
    ensures r == DateTooOld <==>
      date != "" && parse(date).Some? && parse(date).value <= now + DayMs && parse(date).value < AddYears(now, -5)
  {
    if date == "" then DateRequired
    else match parse(date)
      case None => DateInvalid
      case Some(t) =>
        if t > now + DayMs then DateTooFarAhead
        else if t < AddYears(now, -5) then DateTooOld
        else ""
  }

  /** `validateCategory`: required, then one of the registry keys. */
  function CategoryError(category: string): (r: string)
    ensures r == "" <==> category in Registry
    ensures r == CategoryRequired <==> category == ""
    ensures r == CategoryInvalid <==> category != "" && category !in Registry
  {
    if category == "" then CategoryRequired
    else if category !in Registry then CategoryInvalid
    else ""
  }

  /** `validateTitle`: the trimmed title must have 3 to 50 characters. */
  function TitleError(title: string): (r: string)
    ensures r == "" <==> 3 <= |Trim(title)| <= 50
    ensures r == TitleRequired <==> forall i :: 0 <= i < |title| ==> IsWhitespace(title[i])
    ensures r == TitleTooShort <==> 1 <= |Trim(title)| < 3
    ensures r == TitleTooLong <==> |Trim(title)| > 50
  {
    var t := Trim(title);
    if t == "" then TitleRequired
    else if |t| < 3 then TitleTooShort
    else if |t| > 50 then TitleTooLong
    else ""
  }

  /** `validateValue`: exactly the amounts in (0, 1000000] pass. The field is `parseFloat(..) || 0`, so never NaN. */
  function ValueError(value: real): (r: string)
    ensures r == "" <==> 0.0 < value <= 1000000.0
    ensures r == ValueNotPositive <==> value <= 0.0
    ensures r == ValueTooLarge <==> value > 1000000.0
  {
    if value <= 0.0 then ValueNotPositive
    else if value > 1000000.0 then ValueTooLarge
    else ""
  }

  /** All four validators pass. */
  predicate Accepts(date: string, category: string, title: string, value: real, now: int, parse: string -> Option<int>) {
    DateError(date, now, parse) == "" && CategoryError(category) == ""
    && TitleError(title) == "" && ValueError(value) == ""
  }

  /** The untouched form fails every validator with its 'required' message, so nothing is added. */
  lemma EmptyFormRejected(now: int, parse: string -> Option<int>)
    ensures DateError("", now, parse) == DateRequired
    ensures CategoryError("") == CategoryRequired
    ensures TitleError("") == TitleRequired
    ensures ValueError(0.0) == ValueNotPositive
    ensures !Accepts("", "", "", 0.0, now, parse)
  {
  }

  /** An accepted form yields an item whose category is registered and whose value is positive. */
  lemma AcceptedItemWellFormed(date: string, category: string, title: string, value: real, now: int, parse: string -> Option<int>)
    requires Accepts(date, category, title, value, now, parse)
    ensures category in Registry && 0.0 < value <= 1000000.0 && parse(date).Some?
  {
  }

  /** The form's state: the four fields and the four error messages. */
  class InputForm {
    var dateField: string
    var categoryField: string
    var titleField: string
    var valueField: real
    var dateError: string
    var categoryError: string
    var titleError: string
    var valueError: string

    constructor ()
      ensures dateField == "" && categoryField == "" && titleField == "" && valueField == 0.0
      ensures dateError == "" && categoryError == "" && titleError == "" && valueError == ""
    {
      dateField, categoryField, titleField, valueField := "", "", "", 0.0;
      dateError, categoryError, titleError, valueError := "", "", "", "";
    }

    /** `clearFields`: back to the empty form; the error messages stay. */
    method ClearFields()
      modifies this
      ensures dateField == "" && categoryField == "" && titleField == "" && valueField == 0.0
      ensures dateError == old(dateError) && categoryError == old(categoryError)
      ensures titleError == old(titleError) && valueError == old(valueError)
    {
      dateField, categoryField, titleField, valueField := "", "", "", 0.0;
    }

    /**
     * `handleAddEvent`: all four validators run (none is skipped) and store
     * their messages; when all pass, the item built from the fields, with the
     * title untrimmed, is handed over and the fields are cleared.
     */
    method HandleAddEvent(now: int, parse: string -> Option<int>) returns (added: Option<Item>)
      modifies this
      ensures dateError == DateError(old(dateField), now, parse)
      ensures categoryError == CategoryError(old(categoryField))
      ensures titleError == TitleError(old(titleField))
      ensures valueError == ValueError(old(valueField))
      ensures added.Some? <==> Accepts(old(dateField), old(categoryField), old(titleField), old(valueField), now, parse)
      ensures added.Some? ==> added.value == Item(parse(old(dateField)).value, old(categoryField), old(titleField), old(valueField))
      ensures added.Some? ==> dateField == "" && categoryField == "" && titleField == "" && valueField == 0.0
      ensures added.None? ==> dateField == old(dateField) && categoryField == old(categoryField)
      ensures added.None? ==> titleField == old(titleField) && valueField == old(valueField)
    {
      dateError := DateError(dateField, now, parse);
      categoryError := CategoryError(categoryField);
      titleError := TitleError(titleField);
      valueError := ValueError(valueField);
      if dateError != "" || categoryError != "" || titleError != "" || valueError != "" {
        return None;
      }
      added := Some(Item(parse(dateField).value, categoryField, titleField, valueField));
      ClearFields();
    }
  }
}

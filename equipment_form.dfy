/**
 * The equipment form: its validation rules as a list of the messages a submit would
 * show, its initial values, the values loaded in edit mode, and the rupiah
 * formatter and parser of the price input.
 */
module EquipmentForm {
  import opened Wrappers
  import Currency
  import Text
  import ES = EquipmentService

  /** The form's values; a field left empty is `None`. */
  datatype EquipmentValues = EquipmentValues(
    name: Option<string>,
    description: Option<string>,
    categoryId: Option<int>,
    dailyRentalPrice: Option<int>,
    quantity: Option<int>,
    isActive: Option<bool>)

  /** The form's initial values: active, quantity 1, everything else empty. */
  const DEFAULTS := EquipmentValues(None, None, None, None, Some(1), Some(true))

  /** A required text field is missing when it is empty or the empty string. */
  predicate TextMissing(v: Option<string>) {
    v.None? || v.value == ""
  }

  /** The messages a submit with `v` shows, in the order of the fields; none means accepted. */
  function Errors(v: EquipmentValues): (errs: seq<string>)
    ensures |errs| <= 4
  {
    (if TextMissing(v.name) then ["Please enter equipment name"] else [])
    + (if v.categoryId.None? then ["Please select a category"] else [])
    + (if v.dailyRentalPrice.None? then ["Please enter daily rental price"]
       else if v.dailyRentalPrice.value < 0 then ["Price cannot be negative"] else [])
    + (if v.quantity.None? then ["Please enter quantity"]
       else if v.quantity.value < 0 then ["Quantity cannot be negative"] else [])
  }

  predicate Accepts(v: EquipmentValues) {
    Errors(v) == []
  }

  /**
   * The form is accepted exactly when a name and a category are given and the price
   * and the quantity are given and not negative.
   */
  lemma AcceptsIff(v: EquipmentValues)
    ensures Accepts(v) <==>
      && !TextMissing(v.name) && v.categoryId.Some?
      && v.dailyRentalPrice.Some? && v.dailyRentalPrice.value >= 0
      && v.quantity.Some? && v.quantity.value >= 0
  {
  }

  /** Submitting the untouched form asks for the name, the category and the price. */
  lemma DefaultsErrors()
    ensures Errors(DEFAULTS) == ["Please enter equipment name", "Please select a category", "Please enter daily rental price"]
  {
  }

  /** Edit mode loads these fields of the fetched record, unchanged. */
  function EditValues(e: ES.Equipment): (v: EquipmentValues)
    ensures v.name == Some(e.name) && v.description == e.description
    ensures v.dailyRentalPrice == Some(e.dailyRentalPrice) && v.quantity == Some(e.quantity)
    ensures v.categoryId == Some(e.categoryId) && v.isActive == Some(e.isActive)
  {
    EquipmentValues(Some(e.name), e.description, Some(e.categoryId), Some(e.dailyRentalPrice),
                    Some(e.quantity), Some(e.isActive))
  }

  /** A fetched record can be saved back unchanged exactly when it would pass as new input. */
  lemma EditValuesAccepted(e: ES.Equipment)
    ensures Accepts(EditValues(e)) <==> e.name != "" && e.dailyRentalPrice >= 0 && e.quantity >= 0
  {
    AcceptsIff(EditValues(e));
  }

  /** The price input shows what it formats and reads back what it parses. */
  lemma PriceInputRoundTrip(n: nat, locale: nat -> string)
    requires Text.KeepDigits(locale(n)) == Text.NatText(n)
    ensures Currency.ParseOptionalCurrency(Some(Currency.FormatCurrency(Some(n), locale))) == Some(n)
  {
    Currency.ParseFormatRoundTrip(n, locale);
  }
}

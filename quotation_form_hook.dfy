/**
 * The editing state behind the quotation form: the in-memory item and section lists,
 * the derived subtotal, tax, discount and total, and the handlers that change them.
 * Network results, `Date.now()`, `Math.random()` and the formatted date are parameters.
 */
module QuotationFormHook {
  import opened Wrappers
  import opened Js
  import opened Text
  import Seqs
  import opened QuotationService
  import ES = EquipmentService
  import opened Feedback

  datatype Mode = Create | Edit

  const EMPTY_ITEMS_MESSAGE := "Quotation must have at least one item"
  const LIST_PATH := "/quotations"

  // ---- building an item ----

  /** The item form's submitted values; a field left empty is `None`. */
  datatype ItemValues = ItemValues(
    equipmentId: Option<int>,
    itemName: Option<string>,
    description: Option<string>,
    quantity: Option<int>,
    unit: Option<string>,
    pricePerDay: Option<int>,
    days: Option<int>,
    itemType: Option<ItemType>,
    remarks: Option<string>)

  /** The catalog entry an item refers to: looked up only when the chosen id is truthy. */
  function SelectedEquipment(values: ItemValues, catalog: seq<ES.Equipment>): (r: Option<ES.Equipment>)
    ensures !IntTruthy(values.equipmentId) ==> r.None?
    ensures IntTruthy(values.equipmentId) ==> r == ES.FindEquipment(catalog, values.equipmentId.value)
  {
    if IntTruthy(values.equipmentId) then ES.FindEquipment(catalog, values.equipmentId.value) else None
  }

  /** The line `handleAddItem` appends, with the falsy fields replaced by their defaults. */
  function NewItem(values: ItemValues, catalog: seq<ES.Equipment>, quotationId: int, now: int): (item: QuotationItem)
    ensures item.id == Some(now) && item.quotationId == quotationId
    ensures item.equipmentId == values.equipmentId
    ensures item.groupId.None? && item.sectionId.None?
    ensures IntTruthy(values.quantity) ==> item.quantity == values.quantity.value
    ensures !IntTruthy(values.quantity) ==> item.quantity == 1
    ensures IntTruthy(values.days) ==> item.days == values.days.value
    ensures !IntTruthy(values.days) ==> item.days == 1
    ensures StrTruthy(values.unit) ==> item.unit == values.unit
    ensures !StrTruthy(values.unit) ==> item.unit == Some("Set")
    ensures values.itemType.Some? ==> item.itemType == values.itemType
    ensures values.itemType.None? ==> item.itemType == Some(Rental)
    ensures var e := SelectedEquipment(values, catalog);
      && (StrTruthy(values.itemName) ==> item.itemName == values.itemName.value)
      && (!StrTruthy(values.itemName) ==> item.itemName == if e.Some? then e.value.name else "")
      && (IntTruthy(values.pricePerDay) ==> item.pricePerDay == values.pricePerDay.value)
      && (!IntTruthy(values.pricePerDay) ==> item.pricePerDay == if e.Some? then e.value.dailyRentalPrice else 0)
      && item.equipment == if e.Some? then Some(EquipmentRef(e.value.id, e.value.name, e.value.dailyRentalPrice)) else None
    ensures item.total == Some(item.quantity * item.pricePerDay * item.days)
  {
    var selected := SelectedEquipment(values, catalog);
    var price := OrInt(values.pricePerDay, if selected.Some? then selected.value.dailyRentalPrice else 0);
    var quantity := OrInt(values.quantity, 1);
    var days := OrInt(values.days, 1);
    QuotationItem(
      id := Some(now),
      quotationId := quotationId,
      sectionId := None,
      groupId := None,
      equipmentId := values.equipmentId,
      equipment := if selected.Some?
        then Some(EquipmentRef(selected.value.id, selected.value.name, selected.value.dailyRentalPrice))
        else None,
      itemName := OrStr(values.itemName, if selected.Some? then selected.value.name else ""),
      description := values.description,
      quantity := quantity,
      unit := Some(OrStr(values.unit, "Set")),
      pricePerDay := price,
      days := days,
      total := Some(quantity * price * days),
      remarks := values.remarks,
      itemType := Some(if values.itemType.Some? then values.itemType.value else Rental))
  }

  /** Entering a price of 0 for catalog equipment charges the catalog price instead. */
  lemma ZeroPriceFallsBackToCatalog(values: ItemValues, catalog: seq<ES.Equipment>, quotationId: int, now: int, e: ES.Equipment)
    requires values.pricePerDay == Some(0) && IntTruthy(values.equipmentId)
    requires ES.FindEquipment(catalog, values.equipmentId.value) == Some(e)
    ensures NewItem(values, catalog, quotationId, now).pricePerDay == e.dailyRentalPrice
  {
  }

  // ---- totals ----

  /** A line's total, 0 when it has none. */
  function LineTotal(item: QuotationItem): (t: int)
    ensures IntTruthy(item.total) ==> t == item.total.value
    ensures !IntTruthy(item.total) ==> t == 0
  {
    OrInt(item.total, 0)
  }

  /** The subtotal: the line totals added up over every line. */
  function SumTotals(items: seq<QuotationItem>): (s: int)
    ensures items == [] ==> s == 0
    ensures (forall i :: 0 <= i < |items| ==> LineTotal(items[i]) >= 0) ==> s >= 0
  {
    if items == [] then 0 else LineTotal(items[0]) + SumTotals(items[1..])
  }

  /** `subtotal + subtotal * (tax / 100) - subtotal * (discount / 100)`. */
  function GrandTotal(subtotal: int, tax: real, discount: real): (g: real)
    ensures subtotal == 0 ==> g == 0.0
    ensures tax == discount ==> g == subtotal as real
  {
    subtotal as real + subtotal as real * (tax / 100.0) - subtotal as real * (discount / 100.0)
  }

  /** Appending a line adds its total to the subtotal. */
  lemma {:induction false} SumTotalsAppend(items: seq<QuotationItem>, x: QuotationItem)
    ensures SumTotals(items + [x]) == SumTotals(items) + LineTotal(x)
  {
    if items == [] {
      assert items + [x] == [x];
    } else {
      assert (items + [x])[1..] == items[1..] + [x];
      SumTotalsAppend(items[1..], x);
    }
  }

  /** A line in front adds its total. */
  lemma SumTotalsCons(x: QuotationItem, rest: seq<QuotationItem>)
    ensures SumTotals([x] + rest) == LineTotal(x) + SumTotals(rest)
  {
    assert ([x] + rest)[0] == x;
    assert ([x] + rest)[1..] == rest;
  }

  /**
   * The subtotal does not depend on grouping: it is the sum over the lines a predicate
   * selects plus the sum over the others.
   */
  lemma {:induction false} SumTotalsSplit(items: seq<QuotationItem>, p: QuotationItem -> bool, q: QuotationItem -> bool)
    requires forall x :: q(x) == !p(x)
    ensures SumTotals(items) == SumTotals(Seqs.Filter(items, p)) + SumTotals(Seqs.Filter(items, q))
  {
    if items != [] {
      var h, t := items[0], items[1..];
      SumTotalsSplit(t, p, q);
      if p(h) {
        assert Seqs.Filter(items, p) == [h] + Seqs.Filter(t, p);
        assert Seqs.Filter(items, q) == Seqs.Filter(t, q);
        SumTotalsCons(h, Seqs.Filter(t, p));
      } else {
        assert Seqs.Filter(items, q) == [h] + Seqs.Filter(t, q);
        assert Seqs.Filter(items, p) == Seqs.Filter(t, p);
        SumTotalsCons(h, Seqs.Filter(t, q));
      }
    }
  }

  /** The total is the subtotal scaled by one plus the net rate. */
  lemma GrandTotalNetRate(subtotal: int, tax: real, discount: real)
    ensures GrandTotal(subtotal, tax, discount) == subtotal as real * (1.0 + (tax - discount) / 100.0)
  {
  }

  /** With rates between 0 and 100 and a non-negative subtotal, the total lies between 0 and subtotal plus tax. */
  lemma GrandTotalBounds(subtotal: int, tax: real, discount: real)
    requires subtotal >= 0 && 0.0 <= tax <= 100.0 && 0.0 <= discount <= 100.0
    ensures 0.0 <= GrandTotal(subtotal, tax, discount)
    ensures GrandTotal(subtotal, tax, discount) <= subtotal as real * (1.0 + tax / 100.0)
  {
    var s := subtotal as real;
    MulNonNegative(s, 1.0 - discount / 100.0);
    MulNonNegative(s, tax / 100.0);
    MulNonNegative(s, discount / 100.0);
    assert GrandTotal(subtotal, tax, discount) == s * (1.0 - discount / 100.0) + s * (tax / 100.0);
  }

  lemma MulNonNegative(a: real, b: real)
    requires a >= 0.0 && b >= 0.0
    ensures a * b >= 0.0
  {
  }

  /** A worked example: 650 at 11% tax and no discount is 721.5. */
  lemma GrandTotalExample()
    ensures GrandTotal(650, 11.0, 0.0) == 721.5
  {
  }

  // ---- the quotation number ----

  /** `Math.floor(random * 10000)` for `random` in [0, 1). */
  function Serial(random: real): (n: nat)
    requires 0.0 <= random < 1.0
    ensures n < 10000
  {
    (random * 10000.0).Floor
  }

  /** `Q-`, the date, `-` and the serial padded to four digits. */
  function QuotationNumber(date: string, random: real): (n: string)
    requires 0.0 <= random < 1.0
    ensures |n| >= 7 + |date| && n[..2] == "Q-" && n[2..2 + |date|] == date && n[2 + |date|] == '-'
  {
    "Q-" + date + "-" + PadStart(NatText(Serial(random)), 4, '0')
  }

  /**
   * A quotation number for an eight-character date is fifteen characters: `Q-`, the date,
   * `-` and four digits reading back as the serial drawn.
   */
  lemma QuotationNumberFormat(date: string, random: real)
    requires 0.0 <= random < 1.0 && |date| == 8
    ensures var t := QuotationNumber(date, random);
      && |t| == 15 && t[..2] == "Q-" && t[2..10] == date && t[10] == '-'
      && AllDigits(t[11..]) && DigitsValue(t[11..]) == Serial(random)
  {
    var n := Serial(random);
    var digits := NatText(n);
    assert Pow10(4) == 10000;
    NatTextBound(n, 4);
    var padded := PadStart(digits, 4, '0');
    assert |padded| == 4;
    assert AllDigits(padded) && DigitsValue(padded) == DigitsValue(digits) by {
      if |digits| < 4 {
        DigitsValueLeadingZeros(4 - |digits|, digits);
      }
    }
    DigitsValueOfNatText(n);
    var t := QuotationNumber(date, random);
    assert t == "Q-" + date + "-" + padded;
    assert t[11..] == padded;
  }

  // ---- submission ----

  /** A line as it is sent: without its group, section, quotation id or catalog entry. */
  datatype ItemPayload = ItemPayload(
    id: Option<int>,
    itemName: string,
    description: Option<string>,
    quantity: int,
    unit: Option<string>,
    pricePerDay: int,
    days: int,
    total: Option<int>,
    itemType: Option<ItemType>,
    remarks: Option<string>,
    equipmentId: Option<int>)

  datatype SectionPayload = SectionPayload(
    id: Option<int>,
    name: string,
    date: string,
    description: Option<string>)

  /** The body of a create or update: the other form values, then the computed fields. */
  datatype QuotationPayload = QuotationPayload(
    values: Obj,
    items: seq<ItemPayload>,
    sections: Option<seq<SectionPayload>>,
    subtotal: int,
    tax: Option<real>,
    discount: Option<real>,
    total: real)

  function ItemPayloadOf(item: QuotationItem): ItemPayload {
    ItemPayload(item.id, item.itemName, item.description, item.quantity, item.unit,
                item.pricePerDay, item.days, item.total, item.itemType, item.remarks, item.equipmentId)
  }

  function SectionPayloadOf(section: QuotationSection): SectionPayload {
    SectionPayload(section.id, section.name, section.date, section.description)
  }

  /** The request a submit makes. */
  datatype ServiceCall = CreateQuotation(payload: QuotationPayload) | UpdateQuotation(id: int, payload: QuotationPayload)

  /** What a submit does: the request made, the message shown and where it navigates. */
  datatype SubmitOutcome = SubmitOutcome(call: Option<ServiceCall>, notice: Option<Notice>, navigate: Option<string>)

  /** The hook's state. `formTax` and friends are the quotation form's fields. */
  class QuotationEditor {
    const mode: Mode
    /** The `:id` route parameter, already parsed. */
    const routeId: Option<int>
    var catalog: seq<ES.Equipment>
    var quotation: Option<Quotation>
    var items: seq<QuotationItem>
    var sections: seq<QuotationSection>
    var subtotal: int
    var tax: real
    var discount: real
    var total: real
    var formNumber: Option<string>
    var formTax: Option<real>
    var formDiscount: Option<real>
    var formStatus: Option<QuotationStatus>

    /** The hook's initial state, with the quotation form's initial values. */
    constructor (mode: Mode, routeId: Option<int>)
      ensures this.mode == mode && this.routeId == routeId
      ensures catalog == [] && quotation.None? && items == [] && sections == []
      ensures subtotal == 0 && tax == 0.0 && discount == 0.0 && total == 0.0
      ensures formNumber.None? && formTax == Some(11.0) && formDiscount == Some(0.0)
      ensures formStatus == Some(Draft)
    {
      this.mode := mode;
      this.routeId := routeId;
      catalog := [];
      quotation := None;
      items := [];
      sections := [];
      subtotal := 0;
      tax := 0.0;
      discount := 0.0;
      total := 0.0;
      formNumber := None;
      formTax := Some(11.0);
      formDiscount := Some(0.0);
      formStatus := Some(Draft);
    }

    /** `fetchEquipment`: a failed request leaves the catalog as it was. */
    method FetchEquipment(response: Option<seq<ES.Equipment>>) returns (notice: Option<Notice>)
      modifies this`catalog
      ensures response.Some? ==> catalog == response.value && notice.None?
      ensures response.None? ==> catalog == old(catalog) && notice == Some(Failure("Failed to fetch equipment"))
    {
      if response.Some? {
        catalog := response.value;
        notice := None;
      } else {
        notice := Some(Failure("Failed to fetch equipment"));
      }
    }

    /**
     * `fetchQuotation`: on success the record, its lists when present, its rates (falsy
     * ones as 0) and its form fields are loaded; on failure it reports the error and
     * navigates back to the list.
     */
    method FetchQuotation(response: Option<Quotation>) returns (notice: Option<Notice>, navigate: Option<string>)
      modifies this`quotation, this`items, this`sections, this`tax, this`discount
      modifies this`formNumber, this`formTax, this`formDiscount, this`formStatus
      ensures response.None? ==> (notice == Some(Failure("Failed to fetch quotation details"))
        && navigate == Some(LIST_PATH))
      ensures response.None? ==> quotation == old(quotation) && items == old(items) && sections == old(sections)
      ensures response.None? ==> tax == old(tax) && discount == old(discount) && formTax == old(formTax)
      ensures response.None? ==> formDiscount == old(formDiscount) && formNumber == old(formNumber)
      ensures response.None? ==> formStatus == old(formStatus)
      ensures response.Some? ==> notice.None? && navigate.None? && quotation == response
      ensures response.Some? ==> items == response.value.items.GetOr(old(items))
      ensures response.Some? ==> sections == response.value.sections.GetOr(old(sections))
      ensures response.Some? ==> tax == OrReal(response.value.tax, 0.0)
      ensures response.Some? ==> discount == OrReal(response.value.discount, 0.0)
      ensures response.Some? ==> formNumber == Some(response.value.quotationNumber)
      ensures response.Some? ==> formTax == response.value.tax && formDiscount == response.value.discount
      ensures response.Some? ==> formStatus == response.value.status
    {
      if response.None? {
        return Some(Failure("Failed to fetch quotation details")), Some(LIST_PATH);
      }
      notice, navigate := None, None;
      var q := response.value;
      quotation := Some(q);
      if q.items.Some? {
        items := q.items.value;
      }
      if q.sections.Some? {
        sections := q.sections.value;
      }
      tax := OrReal(q.tax, 0.0);
      discount := OrReal(q.discount, 0.0);
      formNumber := Some(q.quotationNumber);
      formTax := q.tax;
      formDiscount := q.discount;
      formStatus := q.status;
    }

    /** `generateQuotationNumber`: a fresh number and the create-mode defaults. */
    method GenerateQuotationNumber(date: string, random: real)
      requires 0.0 <= random < 1.0
      modifies this`formNumber, this`formTax, this`formDiscount, this`formStatus
      ensures formNumber == Some(QuotationNumber(date, random))
      ensures formTax == Some(11.0) && formDiscount == Some(0.0) && formStatus == Some(Draft)
    {
      formNumber := Some(QuotationNumber(date, random));
      formTax := Some(11.0);
      formDiscount := Some(0.0);
      formStatus := Some(Draft);
    }

    /** The loaded quotation's id, 0 when none is loaded (or its id is 0). */
    function QuotationIdOrZero(): int
      reads this
    {
      if quotation.Some? then OrInt(quotation.value.id, 0) else 0
    }

    /** `handleAddItem`: exactly one new line, at the end. */
    method AddItem(values: ItemValues, now: int)
      modifies this`items
      ensures items == old(items) + [NewItem(values, catalog, QuotationIdOrZero(), now)]
    {
      var item := NewItem(values, catalog, QuotationIdOrZero(), now);
      items := items + [item];
    }

    /** `handleRemoveItem`: the lines whose id differs, in their order. */
    method RemoveItem(itemId: int)
      modifies this`items
      ensures items == Seqs.Filter(old(items), (it: QuotationItem) => it.id != Some(itemId))
    {
      items := Seqs.Filter(items, (it: QuotationItem) => it.id != Some(itemId));
    }

    /** `handleAddSection`: exactly one new section, at the end. */
    method AddSection(name: string, date: string, description: Option<string>, now: int)
      modifies this`sections
      ensures sections == old(sections)
        + [QuotationSection(Some(now), name, date, QuotationIdOrZero(), description)]
    {
      sections := sections + [QuotationSection(Some(now), name, date, QuotationIdOrZero(), description)];
    }

    /** `handleRemoveSection`: drops the section only; the lines stay as they were. */
    method RemoveSection(sectionId: int)
      modifies this`sections
      ensures sections == Seqs.Filter(old(sections), (s: QuotationSection) => s.id != Some(sectionId))
      ensures items == old(items)
    {
      sections := Seqs.Filter(sections, (s: QuotationSection) => s.id != Some(sectionId));
    }

    /** `calculateTotals`: every line counts, and falsy form rates count as 0. */
    method CalculateTotals()
      modifies this`subtotal, this`tax, this`discount, this`total
      ensures subtotal == SumTotals(items)
      ensures tax == OrReal(formTax, 0.0) && discount == OrReal(formDiscount, 0.0)
      ensures total == GrandTotal(subtotal, tax, discount)
    {
      var calculated := SumTotals(items);
      subtotal := calculated;
      var currentTax := OrReal(formTax, 0.0);
      var currentDiscount := OrReal(formDiscount, 0.0);
      tax := currentTax;
      discount := currentDiscount;
      var taxAmount := calculated as real * (currentTax / 100.0);
      var discountAmount := calculated as real * (currentDiscount / 100.0);
      total := calculated as real + taxAmount - discountAmount;
    }

    /** The body submitted with the other form values `rest`. */
    function Payload(rest: Obj): (p: QuotationPayload)
      reads this
      ensures |p.items| == |items|
      ensures forall i :: 0 <= i < |items| ==> p.items[i] == ItemPayloadOf(items[i])
      ensures p.sections.None? <==> sections == []
      ensures p.sections.Some? ==> p.sections.value == Seqs.Map(sections, SectionPayloadOf)
      ensures p.subtotal == subtotal && p.total == total
      ensures p.tax == formTax && p.discount == formDiscount
    {
      QuotationPayload(
        rest,
        Seqs.Map(items, ItemPayloadOf),
        if |sections| > 0 then Some(Seqs.Map(sections, SectionPayloadOf)) else None,
        subtotal, formTax, formDiscount, total)
    }

    /**
     * `handleSubmit`: with no lines it only reports the error; otherwise it creates, or in
     * edit mode with an id updates, and navigates to the list unless the request failed.
     * `succeeds` is the outcome of the request.
     */
    method Submit(rest: Obj, succeeds: bool) returns (outcome: SubmitOutcome)
      ensures items == [] ==> outcome == SubmitOutcome(None, Some(Failure(EMPTY_ITEMS_MESSAGE)), None)
      ensures items != [] && mode == Create ==> outcome.call == Some(CreateQuotation(Payload(rest)))
      ensures items != [] && mode == Edit && routeId.Some?
        ==> outcome.call == Some(UpdateQuotation(routeId.value, Payload(rest)))
      ensures items != [] && mode == Edit && routeId.None?
        ==> outcome == SubmitOutcome(None, None, Some(LIST_PATH))
      ensures items != [] && outcome.call.Some? && succeeds ==> (outcome.navigate == Some(LIST_PATH)
        && outcome.notice == Some(Success(if mode == Create then "Quotation created successfully"
                                          else "Quotation updated successfully")))
      ensures items != [] && outcome.call.Some? && !succeeds ==> outcome.navigate.None?
      ensures items != [] && outcome.call.Some? && !succeeds
        ==> outcome.notice == Some(Failure(if mode == Create then "Failed to create quotation"
                                           else "Failed to update quotation"))
    {
      if |items| == 0 {
        return SubmitOutcome(None, Some(Failure(EMPTY_ITEMS_MESSAGE)), None);
      }
      var payload := Payload(rest);
      var call: Option<ServiceCall> := None;
      var notice: Option<Notice> := None;
      if mode == Create {
        call := Some(CreateQuotation(payload));
        notice := Some(Success("Quotation created successfully"));
      } else if mode == Edit && routeId.Some? {
        call := Some(UpdateQuotation(routeId.value, payload));
        notice := Some(Success("Quotation updated successfully"));
      }
      if call.Some? && !succeeds {
        var text := if mode == Create then "Failed to create quotation" else "Failed to update quotation";
        return SubmitOutcome(call, Some(Failure(text)), None);
      }
      outcome := SubmitOutcome(call, notice, Some(LIST_PATH));
    }
  }

  // ---- what the handlers do to the derived values ----

  /** After adding a line, recomputing raises the subtotal by that line's computed total. */
  lemma AddItemRaisesSubtotal(items: seq<QuotationItem>, values: ItemValues, catalog: seq<ES.Equipment>, quotationId: int, now: int)
    ensures var item := NewItem(values, catalog, quotationId, now);
      SumTotals(items + [item]) == SumTotals(items) + item.quantity * item.pricePerDay * item.days
  {
    SumTotalsAppend(items, NewItem(values, catalog, quotationId, now));
  }

  /** Removing an id keeps every other line, in order, and keeps no line with that id. */
  lemma RemoveItemKeepsOthers(items: seq<QuotationItem>, itemId: int)
    ensures var kept := Seqs.Filter(items, (it: QuotationItem) => it.id != Some(itemId));
      && (forall it :: it in kept <==> it in items && it.id != Some(itemId))
      && ((forall i :: 0 <= i < |items| ==> items[i].id != Some(itemId)) ==> kept == items)
  {
    var p := (it: QuotationItem) => it.id != Some(itemId);
    if forall i :: 0 <= i < |items| ==> items[i].id != Some(itemId) {
      Seqs.FilterAllPass(items, p);
    }
  }
}

/**
 * What the quotation form shows: which lines each table lists, which groups each section
 * panel lists, the status option labels, the item form's defaults and acceptance rules,
 * the catalog prefill and the displayed tax and discount amounts.
 */
module QuotationFormView {
  import opened Wrappers
  import opened Js
  import opened Text
  import Seqs
  import opened QuotationService
  import ES = EquipmentService
  import Hook = QuotationFormHook

  // ---- panels ----

  /** The ungrouped lines: those whose group id is falsy, in order. */
  function StandaloneItems(items: seq<QuotationItem>): (r: seq<QuotationItem>)
    ensures forall it :: it in r <==> it in items && !IntTruthy(it.groupId)
  {
    Seqs.Filter(items, (it: QuotationItem) => !IntTruthy(it.groupId))
  }

  /** The lines of a group: those whose group id equals the group's; two absent ids compare equal. */
  function GroupItems(items: seq<QuotationItem>, group: QuotationItemGroup): (r: seq<QuotationItem>)
    ensures forall it :: it in r <==> it in items && it.groupId == group.id
  {
    Seqs.Filter(items, (it: QuotationItem) => it.groupId == group.id)
  }

  /** The groups of a section: those whose section id equals the section's id. */
  function SectionGroups(groups: seq<QuotationItemGroup>, section: QuotationSection): (r: seq<QuotationItemGroup>)
    ensures forall g :: g in r <==> g in groups && section.id == Some(g.sectionId)
  {
    Seqs.Filter(groups, (g: QuotationItemGroup) => section.id == Some(g.sectionId))
  }

  /** A group with a truthy id shares no line with the standalone table. */
  lemma StandaloneAndGroupDisjoint(items: seq<QuotationItem>, group: QuotationItemGroup)
    requires IntTruthy(group.id)
    ensures forall it :: it in StandaloneItems(items) ==> it !in GroupItems(items, group)
  {
  }

  /**
   * A group without an id lists every line that has no group, so those lines show twice;
   * a section without an id lists no group.
   */
  lemma UnidentifiedPanels(items: seq<QuotationItem>, group: QuotationItemGroup,
                           groups: seq<QuotationItemGroup>, section: QuotationSection)
    requires group.id.None? && section.id.None?
    ensures forall it :: it in items && it.groupId.None? ==> it in StandaloneItems(items) && it in GroupItems(items, group)
    ensures SectionGroups(groups, section) == []
  {
    Seqs.FilterNone(groups, (g: QuotationItemGroup) => section.id == Some(g.sectionId));
  }

  /** The standalone lines keep their order: filtering distributes over concatenation. */
  lemma StandaloneKeepsOrder(a: seq<QuotationItem>, b: seq<QuotationItem>)
    ensures StandaloneItems(a + b) == StandaloneItems(a) + StandaloneItems(b)
  {
    Seqs.FilterAppend(a, b, (it: QuotationItem) => !IntTruthy(it.groupId));
  }

  /** The subtotal is the standalone lines' total plus the grouped lines' total. */
  lemma SubtotalCoversAllPanels(items: seq<QuotationItem>)
    ensures Hook.SumTotals(items)
         == Hook.SumTotals(StandaloneItems(items))
          + Hook.SumTotals(Seqs.Filter(items, (it: QuotationItem) => IntTruthy(it.groupId)))
  {
    Hook.SumTotalsSplit(items, (it: QuotationItem) => !IntTruthy(it.groupId),
                        (it: QuotationItem) => IntTruthy(it.groupId));
  }

  // ---- labels ----

  /** A status option's label: the status value with underscores as spaces, upper-cased. */
  function StatusOptionLabel(s: QuotationStatus): (l: string)
    ensures |l| == |s.Value()| && '_' !in l
  {
    var r := ReplaceChar(s.Value(), '_', ' ');
    var l := Upper(r);
    assert forall i :: 0 <= i < |l| ==> l[i] == UpperChar(r[i]) && r[i] != '_';
    l
  }

  /** A converted status reads as words: "CONVERTED TO DO". */
  lemma StatusOptionLabelExample()
    ensures StatusOptionLabel(ConvertedToDo) == "CONVERTED TO DO"
  {
    assert ReplaceChar(ConvertedToDo.Value(), '_', ' ') == "converted to do";
  }

  /** A label is as long as the status value and starts with its first letter, capitalised. */
  lemma StatusOptionLabelShape(s: QuotationStatus)
    ensures |StatusOptionLabel(s)| == |s.Value()|
    ensures StatusOptionLabel(s)[0] == UpperChar(s.Value()[0])
  {
  }

  /** The option labels: no underscore is left, and distinct statuses get distinct labels. */
  lemma StatusOptionLabels()
    ensures forall s: QuotationStatus :: '_' !in StatusOptionLabel(s)
    ensures forall s, t: QuotationStatus :: s != t ==> StatusOptionLabel(s) != StatusOptionLabel(t)
  {
    forall s, t: QuotationStatus | s != t ensures StatusOptionLabel(s) != StatusOptionLabel(t) {
      StatusOptionLabelShape(s);
      StatusOptionLabelShape(t);
    }
  }

  // ---- the item form ----

  /** The item form's initial values: quantity 1, days 1, unit `Set`, type rental. */
  const ITEM_FORM_DEFAULTS: Hook.ItemValues :=
    Hook.ItemValues(None, None, None, Some(1), Some("Set"), None, Some(1), Some(Rental), None)

  /**
   * The item form submits only with a name, a quantity and days of at least 1, a type and
   * a price (the required rules and the inputs' minimum of 1).
   */
  predicate ItemFormAccepts(v: Hook.ItemValues): (ok: bool)
    ensures ok ==> v.itemName.Some? && v.itemName.value != ""
    ensures ok ==> v.quantity.Some? && v.days.Some? && v.quantity.value * v.days.value >= v.quantity.value >= 1
  {
    StrTruthy(v.itemName)
    && v.quantity.Some? && v.quantity.value >= 1
    && v.days.Some? && v.days.value >= 1
    && v.itemType.Some?
    && v.pricePerDay.Some?
  }

  /**
   * An accepted submission keeps the entered name, quantity, days and type, and its total
   * is their product with the price used; only a price of 0 is replaced.
   */
  lemma AcceptedItemKeepsInput(v: Hook.ItemValues, catalog: seq<ES.Equipment>, quotationId: int, now: int)
    requires ItemFormAccepts(v)
    ensures var item := Hook.NewItem(v, catalog, quotationId, now);
      && item.itemName == v.itemName.value
      && item.quantity == v.quantity.value && item.days == v.days.value
      && item.itemType == v.itemType
      && (v.pricePerDay.value != 0 ==> item.pricePerDay == v.pricePerDay.value)
      && item.total == Some(v.quantity.value * item.pricePerDay * v.days.value)
  {
  }

  /** The defaults alone are not accepted: a name and a price must be entered. */
  lemma DefaultsNeedNameAndPrice()
    ensures !ItemFormAccepts(ITEM_FORM_DEFAULTS)
    ensures ItemFormAccepts(ITEM_FORM_DEFAULTS.(itemName := Some("Lamp"), pricePerDay := Some(100)))
    ensures var item := Hook.NewItem(ITEM_FORM_DEFAULTS, [], 0, 0);
      item.quantity == 1 && item.days == 1 && item.unit == Some("Set") && item.itemType == Some(Rental)
  {
  }

  /**
   * Choosing equipment `id`: when the catalog has it, its name and daily price are copied
   * into the form; otherwise only the chosen id changes.
   */
  function Prefill(form: Hook.ItemValues, catalog: seq<ES.Equipment>, id: int): (r: Hook.ItemValues)
    ensures r.equipmentId == Some(id)
    ensures ES.FindEquipment(catalog, id).None? ==> r == form.(equipmentId := Some(id))
    ensures ES.FindEquipment(catalog, id).Some? ==>
      var e := ES.FindEquipment(catalog, id).value;
      r == form.(equipmentId := Some(id), itemName := Some(e.name), pricePerDay := Some(e.dailyRentalPrice))
  {
    var selected := ES.FindEquipment(catalog, id);
    var chosen := form.(equipmentId := Some(id));
    if selected.Some?
    then chosen.(itemName := Some(selected.value.name), pricePerDay := Some(selected.value.dailyRentalPrice))
    else chosen
  }

  /** A prefilled line, added as is, is named and priced after its catalog entry. */
  lemma PrefilledItemUsesCatalog(form: Hook.ItemValues, catalog: seq<ES.Equipment>, id: int, e: ES.Equipment,
                                 quotationId: int, now: int)
    requires ES.FindEquipment(catalog, id) == Some(e) && e.name != "" && id != 0
    ensures var item := Hook.NewItem(Prefill(form, catalog, id), catalog, quotationId, now);
      item.itemName == e.name && item.pricePerDay == e.dailyRentalPrice
      && item.equipment == Some(EquipmentRef(e.id, e.name, e.dailyRentalPrice))
  {
  }

  // ---- summary ----

  /** The amount shown beside a rate: `subtotal * (rate / 100)`. */
  function RateAmount(subtotal: int, rate: real): real {
    subtotal as real * (rate / 100.0)
  }

  /**
   * The summary card reads the editor's `subtotal`, `tax`, `discount` and `total`. In the
   * state `calculateTotals` leaves, the shown total is the sum of the line totals plus the
   * shown tax amount less the shown discount amount, and a 0 rate shows a 0 amount.
   */
  lemma SummaryAddsUp(e: Hook.QuotationEditor)
    requires e.subtotal == Hook.SumTotals(e.items)
    requires e.total == Hook.GrandTotal(e.subtotal, e.tax, e.discount)
    ensures e.total == Hook.SumTotals(e.items) as real
                     + RateAmount(e.subtotal, e.tax) - RateAmount(e.subtotal, e.discount)
    ensures RateAmount(e.subtotal, 0.0) == 0.0
  {
  }
}

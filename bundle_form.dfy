/**
 * The bundle form: composing a bundle out of catalog equipment (add-or-merge by
 * equipment id, remove by equipment id), its list price over the catalog prices,
 * the discounted price written into the price field, and the submit.
 * `Date.now()` and the request outcomes are parameters.
 */
module BundleForm {
  import opened Wrappers
  import opened Js
  import opened Feedback
  import Seqs
  import opened EquipmentService

  datatype Mode = Create | Edit

  const NO_SELECTION_MESSAGE := "Please select equipment"
  const BAD_QUANTITY_MESSAGE := "Quantity must be greater than 0"
  const EMPTY_BUNDLE_MESSAGE := "Bundle must have at least one item"
  const LIST_PATH := "/equipment-bundles"

  // ---- composing ----

  predicate HasEquipment(items: seq<EquipmentBundleItem>, id: int) {
    exists i :: 0 <= i < |items| && items[i].equipmentId == id
  }

  /** No two lines of the bundle refer to the same equipment. */
  predicate UniqueEquipment(items: seq<EquipmentBundleItem>) {
    forall i, j :: 0 <= i < j < |items| ==> items[i].equipmentId != items[j].equipmentId
  }

  /** Every line for equipment `id` gets `qty` more; every other line is kept. */
  function AddQuantity(items: seq<EquipmentBundleItem>, id: int, qty: int): (r: seq<EquipmentBundleItem>)
    ensures |r| == |items|
    ensures forall i :: 0 <= i < |items| && items[i].equipmentId != id ==> r[i] == items[i]
    ensures forall i :: 0 <= i < |items| && items[i].equipmentId == id ==>
      r[i] == items[i].(quantity := items[i].quantity + qty)
  {
    seq(|items|, i requires 0 <= i < |items| =>
      if items[i].equipmentId == id then items[i].(quantity := items[i].quantity + qty) else items[i])
  }

  /** The line appended for equipment not yet in the bundle. */
  function NewBundleItem(id: int, qty: int, bundleId: int, catalog: seq<Equipment>, now: int): (item: EquipmentBundleItem)
    ensures item.equipmentId == id && item.quantity == qty && item.bundleId == bundleId
    ensures item.equipment == FindEquipment(catalog, id)
  {
    EquipmentBundleItem(now, bundleId, id, qty, FindEquipment(catalog, id))
  }

  /** The bundle's lines after a valid add of `qty` of equipment `id`: merge or append. */
  function WithItem(items: seq<EquipmentBundleItem>, id: int, qty: int, bundleId: int,
                    catalog: seq<Equipment>, now: int): (r: seq<EquipmentBundleItem>)
    ensures HasEquipment(items, id) ==> r == AddQuantity(items, id, qty)
    ensures !HasEquipment(items, id) ==> r == items + [NewBundleItem(id, qty, bundleId, catalog, now)]
    ensures HasEquipment(r, id)
  {
    if HasEquipment(items, id) then AddQuantity(items, id, qty)
    else
      var r := items + [NewBundleItem(id, qty, bundleId, catalog, now)];
      assert r[|items|].equipmentId == id;
      r
  }

  /** Every line for equipment `id` is dropped; the rest keep their order. */
  function WithoutItem(items: seq<EquipmentBundleItem>, id: int): (r: seq<EquipmentBundleItem>)
    ensures !HasEquipment(r, id)
    ensures forall x :: x in r <==> x in items && x.equipmentId != id
  {
    var r := Seqs.Filter(items, (x: EquipmentBundleItem) => x.equipmentId != id);
    assert forall i :: 0 <= i < |r| ==> r[i] in r;
    r
  }

  /** An add keeps the equipment ids unique. */
  lemma WithItemKeepsUnique(items: seq<EquipmentBundleItem>, id: int, qty: int, bundleId: int,
                            catalog: seq<Equipment>, now: int)
    requires UniqueEquipment(items)
    ensures UniqueEquipment(WithItem(items, id, qty, bundleId, catalog, now))
  {
    var r := WithItem(items, id, qty, bundleId, catalog, now);
    if HasEquipment(items, id) {
      forall i, j | 0 <= i < j < |r| ensures r[i].equipmentId != r[j].equipmentId {
        assert r[i].equipmentId == items[i].equipmentId;
        assert r[j].equipmentId == items[j].equipmentId;
      }
    } else {
      forall i, j | 0 <= i < j < |r| ensures r[i].equipmentId != r[j].equipmentId {
        if j == |items| {
          assert r[i] == items[i];
        } else {
          assert r[i] == items[i] && r[j] == items[j];
        }
      }
    }
  }

  /** How many of equipment `id` the bundle holds. */
  function QuantityOf(items: seq<EquipmentBundleItem>, id: int): int {
    if items == [] then 0
    else (if items[0].equipmentId == id then items[0].quantity else 0) + QuantityOf(items[1..], id)
  }

  lemma {:induction false} QuantityOfAppend(items: seq<EquipmentBundleItem>, x: EquipmentBundleItem, id: int)
    ensures QuantityOf(items + [x], id) == QuantityOf(items, id) + (if x.equipmentId == id then x.quantity else 0)
  {
    if items != [] {
      assert (items + [x])[1..] == items[1..] + [x];
      QuantityOfAppend(items[1..], x, id);
    } else {
      assert ([x])[1..] == [];
    }
  }

  lemma {:induction false} QuantityOfMissing(items: seq<EquipmentBundleItem>, id: int)
    requires !HasEquipment(items, id)
    ensures QuantityOf(items, id) == 0
  {
    if items != [] {
      forall i | 0 <= i < |items[1..]| ensures items[1..][i].equipmentId != id {
        assert items[1..][i] == items[i + 1];
      }
      QuantityOfMissing(items[1..], id);
    }
  }

  /** Adding to a line the bundle holds once raises that equipment's count by `qty`, and no other. */
  lemma {:induction false} AddQuantityCounts(items: seq<EquipmentBundleItem>, id: int, qty: int, other: int)
    requires UniqueEquipment(items)
    ensures QuantityOf(AddQuantity(items, id, qty), id) == QuantityOf(items, id) + (if HasEquipment(items, id) then qty else 0)
    ensures other != id ==> QuantityOf(AddQuantity(items, id, qty), other) == QuantityOf(items, other)
  {
    var r := AddQuantity(items, id, qty);
    if items != [] {
      var tail := items[1..];
      assert AddQuantity(tail, id, qty) == r[1..];
      assert UniqueEquipment(tail) by {
        forall i, j | 0 <= i < j < |tail| ensures tail[i].equipmentId != tail[j].equipmentId {
          assert tail[i] == items[i + 1] && tail[j] == items[j + 1];
        }
      }
      AddQuantityCounts(tail, id, qty, other);
      if items[0].equipmentId == id {
        forall i | 0 <= i < |tail| ensures tail[i].equipmentId != id {
          assert tail[i] == items[i + 1];
        }
        assert AddQuantity(tail, id, qty) == tail;
      } else {
        assert HasEquipment(items, id) == HasEquipment(tail, id) by {
          if HasEquipment(items, id) {
            var i :| 0 <= i < |items| && items[i].equipmentId == id;
            assert i > 0 && tail[i - 1].equipmentId == id;
          }
          if HasEquipment(tail, id) {
            var i :| 0 <= i < |tail| && tail[i].equipmentId == id;
            assert items[i + 1].equipmentId == id;
          }
        }
      }
    }
  }

  /**
   * A valid add raises the bundle's count of the chosen equipment by exactly the
   * entered quantity and leaves every other equipment's count alone.
   */
  lemma WithItemCounts(items: seq<EquipmentBundleItem>, id: int, qty: int, bundleId: int,
                       catalog: seq<Equipment>, now: int, other: int)
    requires UniqueEquipment(items)
    ensures QuantityOf(WithItem(items, id, qty, bundleId, catalog, now), id) == QuantityOf(items, id) + qty
    ensures other != id ==>
      QuantityOf(WithItem(items, id, qty, bundleId, catalog, now), other) == QuantityOf(items, other)
  {
    if HasEquipment(items, id) {
      AddQuantityCounts(items, id, qty, other);
    } else {
      var x := NewBundleItem(id, qty, bundleId, catalog, now);
      QuantityOfAppend(items, x, id);
      QuantityOfAppend(items, x, other);
    }
  }

  /** Removing equipment that was just added as a new line gives the bundle back. */
  lemma AddThenRemove(items: seq<EquipmentBundleItem>, id: int, qty: int, bundleId: int,
                      catalog: seq<Equipment>, now: int)
    requires !HasEquipment(items, id)
    ensures WithoutItem(WithItem(items, id, qty, bundleId, catalog, now), id) == items
  {
    var keep := (x: EquipmentBundleItem) => x.equipmentId != id;
    var x := NewBundleItem(id, qty, bundleId, catalog, now);
    Seqs.FilterAppend(items, [x], keep);
    Seqs.FilterAllPass(items, keep);
    Seqs.FilterNone([x], keep);
  }

  // ---- prices ----

  /** What one line adds to the list price: catalog price times quantity, 0 when not in the catalog. */
  function LinePrice(item: EquipmentBundleItem, catalog: seq<Equipment>): (p: int)
    ensures (forall e :: e in catalog ==> e.id != item.equipmentId) ==> p == 0
    ensures (forall e :: e in catalog ==> e.dailyRentalPrice >= 0) && item.quantity >= 0 ==> p >= 0
  {
    match FindEquipment(catalog, item.equipmentId)
    case None => 0
    case Some(e) => e.dailyRentalPrice * item.quantity
  }

  /** The list price, accumulated in the order of the lines. */
  function ListPrice(items: seq<EquipmentBundleItem>, catalog: seq<Equipment>): (p: int)
    ensures items == [] ==> p == 0
  {
    if items == [] then 0 else ListPrice(items[..|items| - 1], catalog) + LinePrice(items[|items| - 1], catalog)
  }

  /** With non-negative catalog prices and quantities the list price is not negative. */
  lemma {:induction false} ListPriceNonNegative(items: seq<EquipmentBundleItem>, catalog: seq<Equipment>)
    requires forall e :: e in catalog ==> e.dailyRentalPrice >= 0
    requires forall i :: 0 <= i < |items| ==> items[i].quantity >= 0
    ensures ListPrice(items, catalog) >= 0
  {
    if items != [] {
      var init := items[..|items| - 1];
      assert forall i :: 0 <= i < |init| ==> init[i].quantity >= 0 by {
        forall i | 0 <= i < |init| ensures init[i].quantity >= 0 {
          assert init[i] == items[i];
        }
      }
      ListPriceNonNegative(init, catalog);
    }
  }

  /** The list price less `discount` percent. */
  function DiscountedPrice(listPrice: int, discount: real): (p: real)
    ensures discount == 0.0 ==> p == listPrice as real
    ensures discount == 100.0 ==> p == 0.0
  {
    listPrice as real * (1.0 - discount / 100.0)
  }

  /** A discount between 0 and 100 percent keeps the price between 0 and the list price. */
  lemma DiscountedPriceBounds(listPrice: int, discount: real)
    requires listPrice >= 0 && 0.0 <= discount <= 100.0
    ensures 0.0 <= DiscountedPrice(listPrice, discount) <= listPrice as real
  {
    var l, f := listPrice as real, 1.0 - discount / 100.0;
    assert 0.0 <= f <= 1.0;
    assert DiscountedPrice(listPrice, discount) == l * f;
    NonNegativeProduct(l, f);
    NonNegativeProduct(l, 1.0 - f);
    assert l * f + l * (1.0 - f) == l;
  }

  lemma NonNegativeProduct(a: real, b: real)
    requires a >= 0.0 && b >= 0.0
    ensures a * b >= 0.0
  {
  }

  /** The catalog's daily price of equipment `id`, 0 when it is not in the catalog. */
  function UnitPrice(catalog: seq<Equipment>, id: int): (u: int)
    ensures (forall i :: 0 <= i < |catalog| ==> catalog[i].id != id) ==> u == 0
    ensures u != 0 ==> exists e :: e in catalog && e.id == id && e.dailyRentalPrice == u
  {
    match FindEquipment(catalog, id)
    case None => 0
    case Some(e) => e.dailyRentalPrice
  }

  lemma LinePriceIsUnitPrice(item: EquipmentBundleItem, catalog: seq<Equipment>)
    ensures LinePrice(item, catalog) == UnitPrice(catalog, item.equipmentId) * item.quantity
  {
  }

  /** Merging `qty` into the one line for equipment `id` adds its unit price times `qty`. */
  lemma {:induction false} AddQuantityPrice(items: seq<EquipmentBundleItem>, id: int, qty: int, catalog: seq<Equipment>)
    requires UniqueEquipment(items)
    ensures ListPrice(AddQuantity(items, id, qty), catalog)
         == ListPrice(items, catalog) + (if HasEquipment(items, id) then UnitPrice(catalog, id) * qty else 0)
  {
    if items != [] {
      var n := |items|;
      var init, last := items[..n - 1], items[n - 1];
      var r := AddQuantity(items, id, qty);
      assert r[..n - 1] == AddQuantity(init, id, qty);
      UniqueInit(items);
      AddQuantityPrice(init, id, qty, catalog);
      LinePriceIsUnitPrice(last, catalog);
      LinePriceIsUnitPrice(r[n - 1], catalog);
      if last.equipmentId == id {
        UniqueLast(items);
        assert HasEquipment(items, id);
        assert r[n - 1].quantity == last.quantity + qty;
        assert UnitPrice(catalog, id) * (last.quantity + qty)
            == UnitPrice(catalog, id) * last.quantity + UnitPrice(catalog, id) * qty;
      } else {
        assert r[n - 1] == last;
        HasEquipmentOfInit(items, id);
      }
    }
  }

  /** Dropping the last line keeps the equipment unique. */
  lemma UniqueInit(items: seq<EquipmentBundleItem>)
    requires items != [] && UniqueEquipment(items)
    ensures UniqueEquipment(items[..|items| - 1])
  {
    var init := items[..|items| - 1];
    forall i, j | 0 <= i < j < |init| ensures init[i].equipmentId != init[j].equipmentId {
      assert init[i] == items[i] && init[j] == items[j];
    }
  }

  /** With unique equipment, the last line's equipment is on no other line. */
  lemma UniqueLast(items: seq<EquipmentBundleItem>)
    requires items != [] && UniqueEquipment(items)
    ensures !HasEquipment(items[..|items| - 1], items[|items| - 1].equipmentId)
  {
    var init := items[..|items| - 1];
    forall i | 0 <= i < |init| ensures init[i].equipmentId != items[|items| - 1].equipmentId {
      assert init[i] == items[i];
    }
  }

  /** Equipment other than the last line's is listed exactly when the other lines list it. */
  lemma HasEquipmentOfInit(items: seq<EquipmentBundleItem>, id: int)
    requires items != [] && items[|items| - 1].equipmentId != id
    ensures HasEquipment(items, id) == HasEquipment(items[..|items| - 1], id)
  {
    var init := items[..|items| - 1];
    if HasEquipment(items, id) {
      var i :| 0 <= i < |items| && items[i].equipmentId == id;
      assert i < |items| - 1 && init[i].equipmentId == id;
    }
    if HasEquipment(init, id) {
      var i :| 0 <= i < |init| && init[i].equipmentId == id;
      assert items[i].equipmentId == id;
    }
  }

  /**
   * A valid add raises the list price by the catalog price of the chosen equipment times
   * the entered quantity, whether the line is merged or appended (nothing for equipment
   * missing from the catalog).
   */
  lemma WithItemPrice(items: seq<EquipmentBundleItem>, id: int, qty: int, bundleId: int,
                      catalog: seq<Equipment>, now: int)
    requires UniqueEquipment(items)
    ensures ListPrice(WithItem(items, id, qty, bundleId, catalog, now), catalog)
         == ListPrice(items, catalog) + UnitPrice(catalog, id) * qty
  {
    if HasEquipment(items, id) {
      AddQuantityPrice(items, id, qty, catalog);
    } else {
      var x := NewBundleItem(id, qty, bundleId, catalog, now);
      var r := items + [x];
      assert r[..|r| - 1] == items;
      LinePriceIsUnitPrice(x, catalog);
    }
  }

  // ---- submitting ----

  /** A payload line: only the equipment id and the quantity are sent. */
  datatype ItemRef = ItemRef(equipmentId: int, quantity: int)

  /** `{ ...values, bundleItems }`: the form's values with the lines replacing any `bundleItems` key. */
  datatype BundlePayload = BundlePayload(fields: Obj, bundleItems: seq<ItemRef>)

  function ItemRefOf(item: EquipmentBundleItem): ItemRef {
    ItemRef(item.equipmentId, item.quantity)
  }

  datatype ServiceCall = CreateBundle(payload: BundlePayload) | UpdateBundle(id: int, payload: BundlePayload)

  datatype SubmitOutcome = SubmitOutcome(call: Option<ServiceCall>, notice: Option<Notice>, navigate: Option<string>)

  class BundleEditor {
    const mode: Mode
    /** The `:id` route parameter, already parsed. */
    const routeId: Option<int>
    var catalog: seq<Equipment>
    var bundle: Option<EquipmentBundle>
    var bundleItems: seq<EquipmentBundleItem>
    var selectedEquipment: Option<int>
    var quantity: int
    var calculatedPrice: int
    /** The form's `dailyRentalPrice` and `discount` fields. */
    var formPrice: Option<real>
    var formDiscount: Option<real>

    constructor (mode: Mode, routeId: Option<int>)
      ensures this.mode == mode && this.routeId == routeId
      ensures catalog == [] && bundle.None? && bundleItems == [] && selectedEquipment.None?
      ensures quantity == 1 && calculatedPrice == 0 && formPrice.None? && formDiscount == Some(0.0)
    {
      this.mode := mode;
      this.routeId := routeId;
      catalog := [];
      bundle := None;
      bundleItems := [];
      selectedEquipment := None;
      quantity := 1;
      calculatedPrice := 0;
      formPrice := None;
      formDiscount := Some(0.0);
    }

    /** The equipment list arrived (`None`: the request failed and the list stays). */
    method FetchEquipment(response: Option<seq<Equipment>>) returns (notice: Option<Notice>)
      modifies this
      ensures response.Some? ==> catalog == response.value && notice.None?
      ensures response.None? ==> catalog == old(catalog) && notice == Some(Failure("Failed to fetch equipment"))
      ensures bundle == old(bundle) && bundleItems == old(bundleItems)
      ensures selectedEquipment == old(selectedEquipment) && quantity == old(quantity)
      ensures calculatedPrice == old(calculatedPrice)
      ensures formPrice == old(formPrice) && formDiscount == old(formDiscount)
    {
      if response.Some? {
        catalog := response.value;
        notice := None;
      } else {
        notice := Some(Failure("Failed to fetch equipment"));
      }
    }

    /**
     * The bundle being edited arrived: its lines (when present), price and discount are
     * loaded. A failed request reports the error and navigates back to the list.
     */
    method FetchBundle(response: Option<EquipmentBundle>) returns (notice: Option<Notice>, navigate: Option<string>)
      modifies this
      ensures response.None? ==> (notice == Some(Failure("Failed to fetch bundle details"))
        && navigate == Some(LIST_PATH) && bundle == old(bundle)
        && bundleItems == old(bundleItems) && formPrice == old(formPrice) && formDiscount == old(formDiscount))
      ensures response.Some? ==> (notice.None? && navigate.None? && bundle == response
        && formPrice == Some(response.value.dailyRentalPrice as real)
        && formDiscount == Some(response.value.discount)
        && bundleItems == response.value.bundleItems.GetOr(old(bundleItems)))
      ensures catalog == old(catalog) && selectedEquipment == old(selectedEquipment)
      ensures quantity == old(quantity) && calculatedPrice == old(calculatedPrice)
    {
      if response.None? {
        return Some(Failure("Failed to fetch bundle details")), Some(LIST_PATH);
      }
      notice := None;
      var b := response.value;
      bundle := response;
      if b.bundleItems.Some? {
        bundleItems := b.bundleItems.value;
      }
      formPrice := Some(b.dailyRentalPrice as real);
      formDiscount := Some(b.discount);
      navigate := None;
    }

    method SelectEquipment(value: Option<int>)
      modifies this
      ensures selectedEquipment == value
      ensures catalog == old(catalog) && bundle == old(bundle) && bundleItems == old(bundleItems)
      ensures quantity == old(quantity) && calculatedPrice == old(calculatedPrice)
      ensures formPrice == old(formPrice) && formDiscount == old(formDiscount)
    {
      selectedEquipment := value;
    }

    /** The quantity input: a cleared or zero entry counts as 1. */
    method SetQuantity(value: Option<int>)
      modifies this
      ensures quantity == OrInt(value, 1) && quantity != 0
      ensures catalog == old(catalog) && bundle == old(bundle) && bundleItems == old(bundleItems)
      ensures selectedEquipment == old(selectedEquipment) && calculatedPrice == old(calculatedPrice)
      ensures formPrice == old(formPrice) && formDiscount == old(formDiscount)
    {
      quantity := if value.Some? && value.value != 0 then value.value else 1;
    }

    /** The loaded bundle's id, 0 when none is loaded (or its id is 0). */
    function BundleIdOrZero(): int
      reads this
    {
      if bundle.Some? && bundle.value.id != 0 then bundle.value.id else 0
    }

    /**
     * `handleAddItem`: with no selection or a quantity of at most 0 an error is shown and
     * nothing changes; otherwise the line is merged or appended and the selection and
     * quantity are reset.
     */
    method AddItem(now: int) returns (error: Option<string>)
      modifies this
      ensures !IntTruthy(old(selectedEquipment)) ==> error == Some(NO_SELECTION_MESSAGE)
      ensures IntTruthy(old(selectedEquipment)) && old(quantity) <= 0 ==> error == Some(BAD_QUANTITY_MESSAGE)
      ensures error.Some? ==> (bundleItems == old(bundleItems)
        && selectedEquipment == old(selectedEquipment) && quantity == old(quantity))
      ensures IntTruthy(old(selectedEquipment)) && old(quantity) > 0 ==> (error.None?
        && bundleItems == WithItem(old(bundleItems), old(selectedEquipment).value, old(quantity),
                                   old(BundleIdOrZero()), catalog, now)
        && selectedEquipment.None? && quantity == 1)
      ensures catalog == old(catalog) && bundle == old(bundle) && calculatedPrice == old(calculatedPrice)
      ensures formPrice == old(formPrice) && formDiscount == old(formDiscount)
    {
      if selectedEquipment.None? || selectedEquipment.value == 0 {
        return Some(NO_SELECTION_MESSAGE);
      }
      if quantity <= 0 {
        return Some(BAD_QUANTITY_MESSAGE);
      }
      var id := selectedEquipment.value;
      if HasEquipment(bundleItems, id) {
        bundleItems := AddQuantity(bundleItems, id, quantity);
      } else {
        var item := EquipmentBundleItem(now, BundleIdOrZero(), id, quantity, FindEquipment(catalog, id));
        bundleItems := bundleItems + [item];
      }
      selectedEquipment := None;
      quantity := 1;
      error := None;
    }

    /** `handleRemoveItem`. */
    method RemoveItem(equipmentId: int)
      modifies this
      ensures bundleItems == WithoutItem(old(bundleItems), equipmentId)
      ensures catalog == old(catalog) && bundle == old(bundle) && selectedEquipment == old(selectedEquipment)
      ensures quantity == old(quantity) && calculatedPrice == old(calculatedPrice)
      ensures formPrice == old(formPrice) && formDiscount == old(formDiscount)
    {
      bundleItems := Seqs.Filter(bundleItems, (x: EquipmentBundleItem) => x.equipmentId != equipmentId);
    }

    /**
     * `calculateBundlePrice`: the list price over the catalog, and in create mode the
     * price field set to it less the form's discount.
     */
    method CalculateBundlePrice()
      modifies this
      ensures calculatedPrice == ListPrice(bundleItems, catalog)
      ensures mode == Create ==> formPrice == Some(DiscountedPrice(calculatedPrice, OrReal(formDiscount, 0.0)))
      ensures mode == Edit ==> formPrice == old(formPrice)
      ensures catalog == old(catalog) && bundle == old(bundle) && bundleItems == old(bundleItems)
      ensures selectedEquipment == old(selectedEquipment) && quantity == old(quantity)
      ensures formDiscount == old(formDiscount)
    {
      var totalPrice := 0;
      var i := 0;
      while i < |bundleItems|
        invariant 0 <= i <= |bundleItems|
        invariant totalPrice == ListPrice(bundleItems[..i], catalog)
      {
        var item := bundleItems[i];
        var equip := FindEquipment(catalog, item.equipmentId);
        if equip.Some? {
          totalPrice := totalPrice + equip.value.dailyRentalPrice * item.quantity;
        }
        assert bundleItems[..i + 1][..i] == bundleItems[..i];
        i := i + 1;
      }
      assert bundleItems[..i] == bundleItems;
      calculatedPrice := totalPrice;
      if mode == Create {
        var discount := if formDiscount.Some? && formDiscount.value != 0.0 then formDiscount.value else 0.0;
        formPrice := Some(DiscountedPrice(totalPrice, discount));
      }
    }

    /**
     * The discount input changed. The form field takes the new value (a cleared input
     * leaves `null`, which a later price calculation reads as 0); the price is recomputed
     * only for a number.
     */
    method HandleDiscountChange(value: Option<real>)
      modifies this
      ensures formDiscount == value
      ensures value.Some? ==> formPrice == Some(DiscountedPrice(calculatedPrice, value.value))
      ensures value.None? ==> formPrice == old(formPrice)
      ensures catalog == old(catalog) && bundle == old(bundle) && bundleItems == old(bundleItems)
      ensures selectedEquipment == old(selectedEquipment) && quantity == old(quantity)
      ensures calculatedPrice == old(calculatedPrice)
    {
      formDiscount := value;
      if value.Some? {
        formPrice := Some(DiscountedPrice(calculatedPrice, value.value));
      }
    }

    /** The payload a submit sends. */
    function Payload(values: Obj): (p: BundlePayload)
      reads this
      ensures "bundleItems" !in p.fields
      ensures forall k :: k in values && k != "bundleItems" ==> k in p.fields && p.fields[k] == values[k]
      ensures |p.bundleItems| == |bundleItems|
      ensures forall i :: 0 <= i < |bundleItems| ==>
        p.bundleItems[i].equipmentId == bundleItems[i].equipmentId && p.bundleItems[i].quantity == bundleItems[i].quantity
    {
      BundlePayload(values - {"bundleItems"}, Seqs.Map(bundleItems, ItemRefOf))
    }

    /**
     * `handleSubmit` with the form's values; `succeeds` is the outcome of the request.
     * An empty bundle is refused before any request. In edit mode without a route id no
     * request is made and the page still navigates back.
     */
    method Submit(values: Obj, succeeds: bool) returns (outcome: SubmitOutcome)
      ensures bundleItems == [] ==> outcome == SubmitOutcome(None, Some(Failure(EMPTY_BUNDLE_MESSAGE)), None)
      ensures bundleItems != [] && mode == Create ==> outcome.call == Some(CreateBundle(Payload(values)))
      ensures bundleItems != [] && mode == Edit ==>
        outcome.call == (if routeId.Some? then Some(UpdateBundle(routeId.value, Payload(values))) else None)
      ensures bundleItems != [] && outcome.call.Some? && succeeds ==> (outcome.navigate == Some(LIST_PATH)
        && outcome.notice == Some(Success(if mode == Create then "Bundle created successfully" else "Bundle updated successfully")))
      ensures bundleItems != [] && outcome.call.Some? && !succeeds ==> (outcome.navigate.None?
        && outcome.notice == Some(Failure(if mode == Create then "Failed to create bundle" else "Failed to update bundle")))
      ensures bundleItems != [] && outcome.call.None? ==> outcome.navigate == Some(LIST_PATH) && outcome.notice.None?
    {
      if |bundleItems| == 0 {
        return SubmitOutcome(None, Some(Failure(EMPTY_BUNDLE_MESSAGE)), None);
      }
      var payload := Payload(values);
      var call: Option<ServiceCall> := None;
      if mode == Create {
        call := Some(CreateBundle(payload));
      } else if routeId.Some? {
        call := Some(UpdateBundle(routeId.value, payload));
      }
      if call.None? {
        outcome := SubmitOutcome(None, None, Some(LIST_PATH));
      } else if succeeds {
        var text := if mode == Create then "Bundle created successfully" else "Bundle updated successfully";
        outcome := SubmitOutcome(call, Some(Success(text)), Some(LIST_PATH));
      } else {
        var text := if mode == Create then "Failed to create bundle" else "Failed to update bundle";
        outcome := SubmitOutcome(call, Some(Failure(text)), None);
      }
    }
  }
}

/**
 * The bundle detail page: the price of the items bought separately, the savings the
 * bundle price gives, the per-row subtotals and the item count.
 */
module BundleDetail {
  import opened Wrappers
  import opened EquipmentService
  import BundleForm

  /** The daily price of the line's attached equipment, 0 when none is attached. */
  function ItemPrice(item: EquipmentBundleItem): (p: int)
    ensures item.equipment.None? ==> p == 0
    ensures item.equipment.Some? ==> p == item.equipment.value.dailyRentalPrice
  {
    if item.equipment.Some? then item.equipment.value.dailyRentalPrice else 0
  }

  /** The Subtotal column of one row. */
  function RowSubtotal(item: EquipmentBundleItem): (r: int)
    ensures item.equipment.None? ==> r == 0
  {
    ItemPrice(item) * item.quantity
  }

  /** The `reduce` of `calculateTotalPrice`: a left fold from `acc`. */
  function Fold(items: seq<EquipmentBundleItem>, acc: int): (r: int)
    ensures items == [] ==> r == acc
    ensures (forall i :: 0 <= i < |items| ==> RowSubtotal(items[i]) >= 0) ==> r >= acc
  {
    if items == [] then acc else Fold(items[1..], acc + ItemPrice(items[0]) * items[0].quantity)
  }

  /** `calculateTotalPrice`: 0 without a bundle or without its lines. */
  function TotalPrice(bundle: Option<EquipmentBundle>): (t: int)
    ensures bundle.None? || bundle.value.bundleItems.None? ==> t == 0
  {
    if bundle.None? || bundle.value.bundleItems.None? then 0 else Fold(bundle.value.bundleItems.value, 0)
  }

  /** `calculateSavings`: the total less the bundle price, not clamped at 0. */
  function Savings(bundle: Option<EquipmentBundle>): (s: int)
    ensures TotalPrice(bundle) == 0 || bundle.None? ==> s == 0
    ensures TotalPrice(bundle) != 0 && bundle.Some? ==> s == TotalPrice(bundle) - bundle.value.dailyRentalPrice
  {
    var total := TotalPrice(bundle);
    if total == 0 || bundle.None? then 0 else total - bundle.value.dailyRentalPrice
  }

  /** The Total Items entry: how many lines the bundle has, 0 when they are absent. */
  function ItemCount(bundle: EquipmentBundle): (n: nat)
    ensures bundle.bundleItems.None? ==> n == 0
    ensures bundle.bundleItems.Some? ==> n == |bundle.bundleItems.value|
  {
    if bundle.bundleItems.Some? then |bundle.bundleItems.value| else 0
  }

  /** The sum of the Subtotal column. */
  function SumRows(items: seq<EquipmentBundleItem>): (s: int)
    ensures items == [] ==> s == 0
    ensures (forall i :: 0 <= i < |items| ==> RowSubtotal(items[i]) >= 0) ==> s >= 0
  {
    if items == [] then 0 else RowSubtotal(items[0]) + SumRows(items[1..])
  }

  lemma {:induction false} FoldIsSum(items: seq<EquipmentBundleItem>, acc: int)
    ensures Fold(items, acc) == acc + SumRows(items)
  {
    if items != [] {
      FoldIsSum(items[1..], acc + ItemPrice(items[0]) * items[0].quantity);
    }
  }

  /** The Subtotal column adds up to the total price. */
  lemma RowsAddUpToTotal(bundle: EquipmentBundle)
    requires bundle.bundleItems.Some?
    ensures SumRows(bundle.bundleItems.value) == TotalPrice(Some(bundle))
  {
    FoldIsSum(bundle.bundleItems.value, 0);
  }

  lemma {:induction false} SumRowsSnoc(items: seq<EquipmentBundleItem>, x: EquipmentBundleItem)
    ensures SumRows(items + [x]) == SumRows(items) + RowSubtotal(x)
  {
    if items == [] {
      assert [x][1..] == [];
    } else {
      assert (items + [x])[1..] == items[1..] + [x];
      SumRowsSnoc(items[1..], x);
    }
  }

  /**
   * When every line carries the catalog's record of its equipment (as the bundle form
   * attaches it), the detail page's total is the form's list price.
   */
  lemma {:induction false} SumRowsIsListPrice(items: seq<EquipmentBundleItem>, catalog: seq<Equipment>)
    requires forall i :: 0 <= i < |items| ==> items[i].equipment == FindEquipment(catalog, items[i].equipmentId)
    ensures SumRows(items) == BundleForm.ListPrice(items, catalog)
  {
    if items != [] {
      var n := |items|;
      assert items == items[..n - 1] + [items[n - 1]];
      SumRowsIsListPrice(items[..n - 1], catalog);
      SumRowsSnoc(items[..n - 1], items[n - 1]);
    }
  }

  /** Savings go negative when the bundle costs more than its items bought separately. */
  lemma SavingsNotClamped()
    ensures var e := Equipment(1, "Camera", None, 100, 1, 1, None, true);
            var b := EquipmentBundle(1, "Kit", None, 150, 0.0, true, Some([EquipmentBundleItem(1, 1, 1, 1, Some(e))]));
            Savings(Some(b)) == -50
  {
  }
}

/**
 * The equipment list page: the current page, the page size and the filter the search
 * form submitted, and the request they make together.
 */
module EquipmentList {
  import opened Wrappers
  import opened Js
  import opened UrlParams
  import Text
  import ES = EquipmentService

  class EquipmentListPage {
    var currentPage: int
    var pageSize: int
    var filter: Obj

    constructor ()
      ensures currentPage == 1 && pageSize == 10 && filter == map[]
    {
      currentPage := 1;
      pageSize := 10;
      filter := map[];
    }

    /** The object handed to `getAllEquipment`: the filter with the page state written over it. */
    function Request(): (r: Obj)
      reads this
      ensures r.Keys == filter.Keys + {"page", "limit"}
      ensures r["page"] == Num(currentPage) && r["limit"] == Num(pageSize)
      ensures forall k :: k in filter && k != "page" && k != "limit" ==> r[k] == filter[k]
    {
      filter["page" := Num(currentPage)]["limit" := Num(pageSize)]
    }

    /** The search form was submitted: its values become the filter, back to page 1. */
    method HandleSearch(values: Obj)
      modifies this
      ensures filter == values && currentPage == 1 && pageSize == old(pageSize)
    {
      currentPage := 1;
      filter := values;
    }

    method HandleReset()
      modifies this
      ensures filter == map[] && currentPage == 1 && pageSize == old(pageSize)
    {
      currentPage := 1;
      filter := map[];
    }

    /** The pager changed page or page size. */
    method OnPageChange(page: int, size: int)
      modifies this
      ensures currentPage == page && pageSize == size && filter == old(filter)
    {
      currentPage := page;
      pageSize := size;
    }
  }

  /** A paging value in the filter never reaches the server: the page state wins. */
  lemma RequestPagingWins(p: EquipmentListPage)
    requires p.currentPage != 0 && p.pageSize != 0
    ensures var sent := Select(p.Request(), ES.EQUIPMENT_QUERY);
      |sent| >= 2 && sent[..2] == [("page", Text.IntText(p.currentPage)), ("limit", Text.IntText(p.pageSize))]
  {
    var r, q := p.Request(), ES.EQUIPMENT_QUERY;
    assert q == q[..2] + q[2..];
    SelectAppend(r, q[..2], q[2..]);
    assert Select(r, q[..2]) == [("page", Text.IntText(p.currentPage)), ("limit", Text.IntText(p.pageSize))];
  }

  /** After a reset the request carries the page state and nothing else. */
  lemma ResetRequest(p: EquipmentListPage)
    requires p.filter == map[]
    ensures p.Request() == map["page" := Num(p.currentPage), "limit" := Num(p.pageSize)]
  {
  }

  /** The Category column: the category's name, or `-`. */
  function CategoryText(e: ES.Equipment): (t: string)
    ensures t != ""
    ensures e.category.Some? && e.category.value.name != "" ==> t == e.category.value.name
    ensures !(e.category.Some? && e.category.value.name != "") ==> t == "-"
  {
    if e.category.Some? && e.category.value.name != "" then e.category.value.name else "-"
  }
}

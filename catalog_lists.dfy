/**
 * The bundle and category list pages. Both keep the same state (current page, page
 * size, search term) with the same handlers, so one class models both; their column
 * display rules follow.
 */
module CatalogLists {
  import opened Wrappers
  import opened Js
  import opened UrlParams
  import ES = EquipmentService

  class SearchListPage {
    var currentPage: int
    var pageSize: int
    var searchTerm: string

    constructor ()
      ensures currentPage == 1 && pageSize == 10 && searchTerm == ""
    {
      currentPage := 1;
      pageSize := 10;
      searchTerm := "";
    }

    /** The object handed to `getAllBundles` / `getAllCategories`. */
    function Request(): (r: Obj)
      reads this
      ensures r.Keys == {"page", "limit", "search"}
      ensures r["page"] == Num(currentPage) && r["limit"] == Num(pageSize) && r["search"] == Str(searchTerm)
    {
      map["page" := Num(currentPage), "limit" := Num(pageSize), "search" := Str(searchTerm)]
    }

    /** The search form was submitted with `search` (`None` when the field was never touched). */
    method HandleSearch(search: Option<string>)
      modifies this
      ensures searchTerm == OrStr(search, "") && currentPage == 1 && pageSize == old(pageSize)
    {
      searchTerm := if search.Some? then search.value else "";
      currentPage := 1;
    }

    method HandleReset()
      modifies this
      ensures searchTerm == "" && currentPage == 1 && pageSize == old(pageSize)
    {
      searchTerm := "";
      currentPage := 1;
    }

    method OnPageChange(page: int, size: int)
      modifies this
      ensures currentPage == page && pageSize == size && searchTerm == old(searchTerm)
    {
      currentPage := page;
      pageSize := size;
    }
  }

  /** An empty search term is not sent: the query then carries the paging only. */
  lemma EmptySearchNotSent(p: SearchListPage)
    requires p.searchTerm == ""
    ensures "search" !in Keys(Select(p.Request(), ES.PAGE_SEARCH_QUERY))
  {
    SelectHasKey(p.Request(), ES.PAGE_SEARCH_QUERY, "search");
  }

  /** A non-empty search term is sent as typed, after the page and the limit. */
  lemma SearchSent(p: SearchListPage)
    requires p.searchTerm != "" && p.currentPage != 0 && p.pageSize != 0
    ensures Select(p.Request(), ES.PAGE_SEARCH_QUERY)
         == [("page", ToText(Num(p.currentPage))), ("limit", ToText(Num(p.pageSize))), ("search", p.searchTerm)]
  {
    var r, q := p.Request(), ES.PAGE_SEARCH_QUERY;
    assert q[1..][1..] == [("search", WhenTruthy)] && q[1..][1..][1..] == [];
    assert Select(r, q[1..][1..]) == [("search", p.searchTerm)];
  }

  // ---- columns ----

  /** The Description column of both lists: the description, or `-`. */
  function DescriptionText(description: Option<string>): (t: string)
    ensures t != ""
    ensures StrTruthy(description) ==> t == description.value
    ensures !StrTruthy(description) ==> t == "-"
  {
    OrStr(description, "-")
  }

  /** The Discount column: the number, as the locale-free `String(n)` renders it, and `%`. */
  function DiscountText(discount: real, numberText: real -> string): (t: string)
    ensures |t| >= 1 && t[|t| - 1] == '%' && t[..|t| - 1] == numberText(discount)
  {
    numberText(discount) + "%"
  }

  datatype Tag = Tag(color: string, text: string)

  /** The Status column of both lists, and the bundle detail page's status. */
  function ActiveTag(isActive: bool): (t: Tag)
    ensures isActive <==> t == Tag("green", "Active")
    ensures !isActive <==> t == Tag("red", "Inactive")
  {
    if isActive then Tag("green", "Active") else Tag("red", "Inactive")
  }
}

/**
 * The quotation list page's filter state: the filter object handed to
 * `getAllQuotations`, the text typed in the search box, and the handlers that
 * rewrite them. Each handler's new filter is a pure function of the old one.
 * The Status column's `renderStatusTag` is the detail page's switch, modelled once as
 * `QuotationDetail.StatusTag`.
 */
module QuotationList {
  import opened Wrappers
  import opened Js
  import opened UrlParams
  import QuotationService
  import Currency
  import Text
  import Seqs

  /** The filter the page starts from and resets to. */
  const INITIAL_FILTER: Obj := map["page" := Num(1), "limit" := Num(10)]

  /** The search box was submitted: `search` is the typed text, back to page 1. */
  function Searched(filter: Obj, text: string): (f: Obj)
    ensures f.Keys == filter.Keys + {"search", "page"}
    ensures f["search"] == Str(text) && f["page"] == Num(1)
    ensures forall k :: k in filter && k != "search" && k != "page" ==> f[k] == filter[k]
  {
    filter["search" := Str(text)]["page" := Num(1)]
  }

  /** A filter control changed `key`: that key is set, back to page 1. */
  function FilterChanged(filter: Obj, key: string, value: JsValue): (f: Obj)
    ensures f.Keys == filter.Keys + {key, "page"}
    ensures f["page"] == Num(1)
    ensures key != "page" ==> f[key] == value
    ensures forall k :: k in filter && k != key && k != "page" ==> f[k] == filter[k]
  {
    filter[key := value]["page" := Num(1)]
  }

  /**
   * The date range picker changed: a range sets both dates (already formatted as
   * `YYYY-MM-DD`), clearing it removes both keys; either way back to page 1.
   */
  function DateRanged(filter: Obj, dates: Option<(string, string)>): (f: Obj)
    ensures "page" in f && f["page"] == Num(1)
    ensures dates.Some? ==> f.Keys == filter.Keys + {"startDate", "endDate", "page"}
    ensures dates.Some? ==> f["startDate"] == Str(dates.value.0) && f["endDate"] == Str(dates.value.1)
    ensures dates.None? ==> f.Keys == filter.Keys - {"startDate", "endDate"} + {"page"}
    ensures forall k :: k in filter && k != "startDate" && k != "endDate" && k != "page" ==> f[k] == filter[k]
  {
    if dates.Some? then
      filter["startDate" := Str(dates.value.0)]["endDate" := Str(dates.value.1)]["page" := Num(1)]
    else
      (filter - {"startDate", "endDate"})["page" := Num(1)]
  }

  /** The sort order sent for the table's sorter order: `ASC` only for `ascend`. */
  function SortOrder(sorterOrder: JsValue): (o: string)
    ensures o == "ASC" <==> sorterOrder == Str("ascend")
    ensures o == "ASC" || o == "DESC"
  {
    if sorterOrder == Str("ascend") then "ASC" else "DESC"
  }

  /** The table's pager or sorter changed: page, limit, sort and order are taken from them. */
  function TableChanged(filter: Obj, current: JsValue, pageSize: JsValue, field: JsValue, sorterOrder: JsValue): (f: Obj)
    ensures f.Keys == filter.Keys + {"page", "limit", "sort", "order"}
    ensures f["page"] == current && f["limit"] == pageSize && f["sort"] == field
    ensures f["order"] == Str(SortOrder(sorterOrder))
    ensures forall k :: k in filter && k !in {"page", "limit", "sort", "order"} ==> f[k] == filter[k]
  {
    filter["page" := current]["limit" := pageSize]["sort" := field]["order" := Str(SortOrder(sorterOrder))]
  }

  class QuotationListPage {
    var filter: Obj
    var searchText: string

    constructor ()
      ensures filter == INITIAL_FILTER && searchText == ""
    {
      filter := INITIAL_FILTER;
      searchText := "";
    }

    /** Typing in the search box changes only the text, not the filter. */
    method TypeSearch(text: string)
      modifies this
      ensures searchText == text && filter == old(filter)
    {
      searchText := text;
    }

    method HandleSearch()
      modifies this
      ensures filter == Searched(old(filter), old(searchText)) && searchText == old(searchText)
    {
      filter := filter["search" := Str(searchText)]["page" := Num(1)];
    }

    method HandleTableChange(current: JsValue, pageSize: JsValue, field: JsValue, sorterOrder: JsValue)
      modifies this
      ensures filter == TableChanged(old(filter), current, pageSize, field, sorterOrder)
      ensures searchText == old(searchText)
    {
      var order := if sorterOrder == Str("ascend") then "ASC" else "DESC";
      filter := filter["page" := current]["limit" := pageSize]["sort" := field]["order" := Str(order)];
    }

    method HandleFilterChange(key: string, value: JsValue)
      modifies this
      ensures filter == FilterChanged(old(filter), key, value) && searchText == old(searchText)
    {
      filter := filter[key := value]["page" := Num(1)];
    }

    method HandleDateRangeChange(dates: Option<(string, string)>)
      modifies this
      ensures filter == DateRanged(old(filter), dates) && searchText == old(searchText)
    {
      if dates.Some? {
        filter := filter["startDate" := Str(dates.value.0)]["endDate" := Str(dates.value.1)]["page" := Num(1)];
      } else {
        var rest := filter - {"startDate", "endDate"};
        filter := rest["page" := Num(1)];
      }
    }

    method HandleResetFilter()
      modifies this
      ensures filter == INITIAL_FILTER && searchText == ""
    {
      filter := map["page" := Num(1), "limit" := Num(10)];
      searchText := "";
    }
  }

  /** The initial (and reset) filter asks the server for page 1 of 10 and nothing else. */
  lemma InitialQuery()
    ensures Select(INITIAL_FILTER, QuotationService.QUOTATION_QUERY) == [("page", "1"), ("limit", "10")]
  {
    var q := QuotationService.QUOTATION_QUERY;
    assert q == q[..2] + q[2..];
    SelectAppend(INITIAL_FILTER, q[..2], q[2..]);
    InitialPaging();
    InitialRestSilent();
  }

  /** The two paging keys of the initial filter are sent as "1" and "10". */
  lemma InitialPaging()
    ensures Select(INITIAL_FILTER, QuotationService.QUOTATION_QUERY[..2]) == [("page", "1"), ("limit", "10")]
  {
    var f, head := INITIAL_FILTER, QuotationService.QUOTATION_QUERY[..2];
    assert head == [("page", WhenTruthy), ("limit", WhenTruthy)];
    assert Text.NatText(10) == Text.NatText(1) + [Text.DigitChar(0)];
    assert ToText(Num(1)) == "1" && ToText(Num(10)) == "10";
    assert Pair(f, "page") == ("page", "1") && Pair(f, "limit") == ("limit", "10");
    assert head[1..] == [("limit", WhenTruthy)] && head[1..][1..] == [];
    assert Select(f, head[1..]) == [Pair(f, "limit")] + Select(f, head[1..][1..]);
    assert Select(f, head) == [Pair(f, "page")] + Select(f, head[1..]);
  }

  /** No other key of the quotation query is present in the initial filter. */
  lemma InitialRestSilent()
    ensures Select(INITIAL_FILTER, QuotationService.QUOTATION_QUERY[2..]) == []
  {
    var rest := QuotationService.QUOTATION_QUERY[2..];
    forall e | e in rest ensures !Passes(e.1, Get(INITIAL_FILTER, e.0)) {
      assert e.0 != "page" && e.0 != "limit";
    }
    SelectNonePass(INITIAL_FILTER, rest);
  }

  /** After the date range is cleared, the query carries neither date. */
  lemma ClearedRangeSendsNoDates(filter: Obj)
    ensures "startDate" !in Keys(Select(DateRanged(filter, None), QuotationService.QUOTATION_QUERY))
    ensures "endDate" !in Keys(Select(DateRanged(filter, None), QuotationService.QUOTATION_QUERY))
  {
    var f := DateRanged(filter, None);
    SelectHasKey(f, QuotationService.QUOTATION_QUERY, "startDate");
    SelectHasKey(f, QuotationService.QUOTATION_QUERY, "endDate");
  }

  /** Searching twice with the same text gives the same filter as searching once. */
  lemma SearchedIdempotent(filter: Obj, text: string)
    ensures Searched(Searched(filter, text), text) == Searched(filter, text)
  {
  }

  /** A range followed by a clear leaves what clearing alone would. */
  lemma ClearAfterRange(filter: Obj, dates: (string, string))
    ensures DateRanged(DateRanged(filter, Some(dates)), None) == DateRanged(filter, None)
  {
    var a := DateRanged(DateRanged(filter, Some(dates)), None);
    var b := DateRanged(filter, None);
    assert a.Keys == b.Keys;
  }

  /** The Total column: `Rp ` and the locale rendering for a truthy total, else `Rp 0`. */
  function TotalText(total: Option<real>, locale: real -> string): (t: string)
    ensures !RealTruthy(total) ==> t == "Rp 0"
    ensures RealTruthy(total) ==> t == Currency.FormatCurrency(total, locale)
  {
    if RealTruthy(total) then "Rp " + locale(total.value) else "Rp 0"
  }

  /**
   * The column agrees with the detail page's formatter except on a zero total, which the
   * column shows as `Rp 0` whatever the locale renders zero as.
   */
  lemma TotalTextAgreesWithDetail(total: Option<real>, locale: real -> string)
    requires total != Some(0.0) || locale(0.0) == "0"
    ensures TotalText(total, locale) == Currency.FormatCurrencyOrZero(total, locale)
  {
  }
}

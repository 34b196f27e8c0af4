/**
 * The equipment REST client: the catalog records, the query strings of the four list
 * requests and the endpoint paths of equipment, categories and bundles.
 */
module EquipmentService {
  import opened Wrappers
  import opened Js
  import opened UrlParams
  import Seqs
  import Api
  import Text

  /** A rentable piece of equipment. */
  datatype Equipment = Equipment(
    id: int,
    name: string,
    description: Option<string>,
    dailyRentalPrice: int,
    quantity: int,
    categoryId: int,
    category: Option<CategoryRef>,
    isActive: bool)

  /** The category summary embedded in an equipment record. */
  datatype CategoryRef = CategoryRef(id: int, name: string)

  datatype EquipmentCategory = EquipmentCategory(
    id: int,
    name: string,
    description: Option<string>,
    isActive: bool)

  /** A fixed set of equipment rented together at its own daily price. */
  datatype EquipmentBundle = EquipmentBundle(
    id: int,
    name: string,
    description: Option<string>,
    dailyRentalPrice: int,
    discount: real,
    isActive: bool,
    // declared as always present, but every page that reads it guards for its absence
    bundleItems: Option<seq<EquipmentBundleItem>>)

  /** One line of a bundle: how many of which equipment. */
  datatype EquipmentBundleItem = EquipmentBundleItem(
    id: int,
    bundleId: int,
    equipmentId: int,
    quantity: int,
    equipment: Option<Equipment>)

  /** The first catalog entry with that id, as an array `find` returns it. */
  function FindEquipment(catalog: seq<Equipment>, id: int): (r: Option<Equipment>)
    ensures r.Some? ==> r.value in catalog && r.value.id == id
    ensures r.None? <==> forall e :: e in catalog ==> e.id != id
  {
    if catalog == [] then None
    else if catalog[0].id == id then Some(catalog[0])
    else FindEquipment(catalog[1..], id)
  }

  /** `find` returns the earliest match. */
  lemma {:induction false} FindEquipmentFirst(catalog: seq<Equipment>, id: int, i: nat)
    requires i < |catalog| && catalog[i].id == id
    requires forall j :: 0 <= j < i ==> catalog[j].id != id
    ensures FindEquipment(catalog, id) == Some(catalog[i])
  {
    if i > 0 {
      FindEquipmentFirst(catalog[1..], id, i - 1);
    }
  }

  // ---- the list requests ----

  /** `getAllEquipment`: eight keys sent when truthy, then `isActive` whenever defined. */
  const EQUIPMENT_QUERY: seq<(string, Gate)> := [
    ("page", WhenTruthy), ("limit", WhenTruthy), ("search", WhenTruthy),
    ("sort", WhenTruthy), ("order", WhenTruthy), ("categoryId", WhenTruthy),
    ("minPrice", WhenTruthy), ("maxPrice", WhenTruthy), ("isActive", WhenDefined)]

  /** `getEquipmentByCategory`: the paging, search and sort keys only. */
  const BY_CATEGORY_QUERY: seq<(string, Gate)> := [
    ("page", WhenTruthy), ("limit", WhenTruthy), ("search", WhenTruthy),
    ("sort", WhenTruthy), ("order", WhenTruthy)]

  /** `getAllCategories` and `getAllBundles`: paging and search. */
  const PAGE_SEARCH_QUERY: seq<(string, Gate)> := [
    ("page", WhenTruthy), ("limit", WhenTruthy), ("search", WhenTruthy)]

  /** The query string of `getAllEquipment(filter)`. */
  method GetAllEquipmentQuery(filter: Obj) returns (params: Params)
    ensures params == Select(filter, EQUIPMENT_QUERY)
  {
    ghost var q, done := EQUIPMENT_QUERY, [];
    params := [];
    params := AppendWhen(params, filter, done, ("page", WhenTruthy));
    done := done + [("page", WhenTruthy)];
    params := AppendWhen(params, filter, done, ("limit", WhenTruthy));
    done := done + [("limit", WhenTruthy)];
    params := AppendWhen(params, filter, done, ("search", WhenTruthy));
    done := done + [("search", WhenTruthy)];
    params := AppendWhen(params, filter, done, ("sort", WhenTruthy));
    done := done + [("sort", WhenTruthy)];
    params := AppendWhen(params, filter, done, ("order", WhenTruthy));
    done := done + [("order", WhenTruthy)];
    params := AppendWhen(params, filter, done, ("categoryId", WhenTruthy));
    done := done + [("categoryId", WhenTruthy)];
    params := AppendWhen(params, filter, done, ("minPrice", WhenTruthy));
    done := done + [("minPrice", WhenTruthy)];
    params := AppendWhen(params, filter, done, ("maxPrice", WhenTruthy));
    done := done + [("maxPrice", WhenTruthy)];
    params := AppendWhen(params, filter, done, ("isActive", WhenDefined));
    done := done + [("isActive", WhenDefined)];
    assert done == q;
  }

  /** The query string of `getEquipmentByCategory(categoryId, filter)`. */
  method GetEquipmentByCategoryQuery(filter: Obj) returns (params: Params)
    ensures params == Select(filter, BY_CATEGORY_QUERY)
  {
    ghost var q, done := BY_CATEGORY_QUERY, [];
    params := [];
    params := AppendWhen(params, filter, done, ("page", WhenTruthy));
    done := done + [("page", WhenTruthy)];
    params := AppendWhen(params, filter, done, ("limit", WhenTruthy));
    done := done + [("limit", WhenTruthy)];
    params := AppendWhen(params, filter, done, ("search", WhenTruthy));
    done := done + [("search", WhenTruthy)];
    params := AppendWhen(params, filter, done, ("sort", WhenTruthy));
    done := done + [("sort", WhenTruthy)];
    params := AppendWhen(params, filter, done, ("order", WhenTruthy));
    done := done + [("order", WhenTruthy)];
    assert done == q;
  }

  /** The query string of `getAllCategories(params)`. */
  method GetAllCategoriesQuery(filter: Obj) returns (params: Params)
    ensures params == Select(filter, PAGE_SEARCH_QUERY)
  {
    ghost var q, done := PAGE_SEARCH_QUERY, [];
    params := [];
    params := AppendWhen(params, filter, done, ("page", WhenTruthy));
    done := done + [("page", WhenTruthy)];
    params := AppendWhen(params, filter, done, ("limit", WhenTruthy));
    done := done + [("limit", WhenTruthy)];
    params := AppendWhen(params, filter, done, ("search", WhenTruthy));
    done := done + [("search", WhenTruthy)];
    assert done == q;
  }

  /** The query string of `getAllBundles(params)`. */
  method GetAllBundlesQuery(filter: Obj) returns (params: Params)
    ensures params == Select(filter, PAGE_SEARCH_QUERY)
  {
    ghost var q, done := PAGE_SEARCH_QUERY, [];
    params := [];
    params := AppendWhen(params, filter, done, ("page", WhenTruthy));
    done := done + [("page", WhenTruthy)];
    params := AppendWhen(params, filter, done, ("limit", WhenTruthy));
    done := done + [("limit", WhenTruthy)];
    params := AppendWhen(params, filter, done, ("search", WhenTruthy));
    done := done + [("search", WhenTruthy)];
    assert done == q;
  }

  /** Whether key `k` of the equipment query is sent for `filter`. */
  predicate EquipmentKeySent(filter: Obj, k: string) {
    if k == "isActive" then Get(filter, k) != Undefined else Truthy(Get(filter, k))
  }

  /**
   * The equipment query carries the sent keys in the fixed order: `minPrice` 0 and page 0
   * are dropped, `isActive` false is kept.
   */
  lemma EquipmentQueryKeys(filter: Obj)
    ensures Keys(Select(filter, EQUIPMENT_QUERY))
         == Seqs.Filter(SpecKeys(EQUIPMENT_QUERY), (k: string) => EquipmentKeySent(filter, k))
  {
    var keep := (k: string) => EquipmentKeySent(filter, k);
    forall e | e in EQUIPMENT_QUERY ensures keep(e.0) == Passes(e.1, Get(filter, e.0)) {
      if e.0 == "isActive" {
        assert e == EQUIPMENT_QUERY[8];
      } else {
        assert e.1 == WhenTruthy;
      }
    }
    SelectKeys(filter, EQUIPMENT_QUERY, keep);
  }

  /** Each key of the equipment query is sent at most once, with its value's text. */
  lemma EquipmentQueryPairs(filter: Obj)
    ensures Distinct(Keys(Select(filter, EQUIPMENT_QUERY)))
    ensures forall p :: p in Select(filter, EQUIPMENT_QUERY) ==> p.1 == ToText(Get(filter, p.0))
  {
    assert Distinct(SpecKeys(EQUIPMENT_QUERY));
    SelectDistinct(filter, EQUIPMENT_QUERY);
    SelectValues(filter, EQUIPMENT_QUERY);
  }

  /** `isActive: false` is sent as the text `false`, unlike the falsy numeric keys. */
  lemma InactiveFilterIsSent(filter: Obj)
    requires Get(filter, "isActive") == Bool(false)
    ensures ("isActive", "false") in Select(filter, EQUIPMENT_QUERY)
  {
    SelectSnoc(filter, EQUIPMENT_QUERY[..8], ("isActive", WhenDefined));
    assert EQUIPMENT_QUERY[..8] + [("isActive", WhenDefined)] == EQUIPMENT_QUERY;
  }

  /** A zero minimum price sends nothing for that key. */
  lemma ZeroMinPriceIsDropped(filter: Obj)
    requires Get(filter, "minPrice") == Num(0)
    ensures "minPrice" !in Keys(Select(filter, EQUIPMENT_QUERY))
  {
    EquipmentQueryKeys(filter);
  }

  /** The by-category query carries its truthy keys, in order. */
  lemma ByCategoryQueryKeys(filter: Obj)
    ensures Keys(Select(filter, BY_CATEGORY_QUERY))
         == Seqs.Filter(SpecKeys(BY_CATEGORY_QUERY), (k: string) => Truthy(Get(filter, k)))
  {
    var keep := (k: string) => Truthy(Get(filter, k));
    forall e | e in BY_CATEGORY_QUERY ensures keep(e.0) == Passes(e.1, Get(filter, e.0)) {
      assert e.1 == WhenTruthy;
    }
    SelectKeys(filter, BY_CATEGORY_QUERY, keep);
  }

  /** The category and bundle list queries carry their truthy keys, in order. */
  lemma PageSearchQueryKeys(filter: Obj)
    ensures Keys(Select(filter, PAGE_SEARCH_QUERY))
         == Seqs.Filter(SpecKeys(PAGE_SEARCH_QUERY), (k: string) => Truthy(Get(filter, k)))
  {
    var keep := (k: string) => Truthy(Get(filter, k));
    forall e | e in PAGE_SEARCH_QUERY ensures keep(e.0) == Passes(e.1, Get(filter, e.0)) {
      assert e.1 == WhenTruthy;
    }
    SelectKeys(filter, PAGE_SEARCH_QUERY, keep);
  }

  /** The by-category query never carries a key outside its five; the category is in the path. */
  lemma ByCategoryOmitsCatalogFilters(filter: Obj, k: string)
    requires k in Keys(Select(filter, BY_CATEGORY_QUERY))
    ensures k in {"page", "limit", "search", "sort", "order"}
  {
    SelectKeysFromSpec(filter, BY_CATEGORY_QUERY, k);
    assert SpecKeys(BY_CATEGORY_QUERY) == ["page", "limit", "search", "sort", "order"];
  }

  // ---- endpoints ----

  const EQUIPMENT := "/equipment"
  const CATEGORIES := "/equipment/categories"
  const BUNDLES := "/bundles"

  /** `/equipment/{id}`. */
  function EquipmentPath(id: int): (p: string)
    ensures |p| > 11 && p[..11] == "/equipment/" && p[11..] == Text.IntText(id)
  {
    Api.IdPath(EQUIPMENT, id)
  }

  /** `/equipment/category/{categoryId}`, the by-category listing. */
  function ByCategoryPath(categoryId: int): (p: string)
    ensures |p| > 20 && p[..20] == "/equipment/category/" && p[20..] == Text.IntText(categoryId)
  {
    Api.IdPath(EQUIPMENT + "/category", categoryId)
  }

  /** `/equipment/categories/{id}`. */
  function CategoryPath(id: int): (p: string)
    ensures |p| > 22 && p[..22] == "/equipment/categories/" && p[22..] == Text.IntText(id)
  {
    Api.IdPath(CATEGORIES, id)
  }

  /** `/bundles/{id}`. */
  function BundlePath(id: int): (p: string)
    ensures |p| > 9 && p[..9] == "/bundles/" && p[9..] == Text.IntText(id)
  {
    Api.IdPath(BUNDLES, id)
  }

  /** An equipment record's path is never a category path or a by-category listing. */
  lemma EquipmentPathsDistinct(a: int, b: int)
    ensures EquipmentPath(a) != CategoryPath(b)
    ensures EquipmentPath(a) != ByCategoryPath(b)
  {
    var t := Text.IntText(a);
    assert EquipmentPath(a)[11] == t[0];
    assert t[0] in t;
    assert CategoryPath(b)[11] == 'c';
    assert ByCategoryPath(b)[11] == 'c';
  }

  /** Distinct ids address distinct records of each kind. */
  lemma RecordPathsInjective(a: int, b: int)
    ensures EquipmentPath(a) == EquipmentPath(b) ==> a == b
    ensures ByCategoryPath(a) == ByCategoryPath(b) ==> a == b
    ensures CategoryPath(a) == CategoryPath(b) ==> a == b
    ensures BundlePath(a) == BundlePath(b) ==> a == b
  {
    if EquipmentPath(a) == EquipmentPath(b) { Api.IdPathInjective(EQUIPMENT, a, b); }
    if ByCategoryPath(a) == ByCategoryPath(b) { Api.IdPathInjective(EQUIPMENT + "/category", a, b); }
    if CategoryPath(a) == CategoryPath(b) { Api.IdPathInjective(CATEGORIES, a, b); }
    if BundlePath(a) == BundlePath(b) { Api.IdPathInjective(BUNDLES, a, b); }
  }

  /** The header every request carries. */
  function AuthHeader(token: Option<string>): string {
    Api.BearerHeader(token)
  }
}

/**
 * The quotation REST client: the status and item-type enumerations, the records the
 * screens exchange with the server, the query string of the list request and the
 * endpoint paths.
 */
module QuotationService {
  import opened Wrappers
  import opened Js
  import opened UrlParams
  import Seqs
  import Api
  import Text

  /** The six workflow states of a quotation, with their wire values. */
  datatype QuotationStatus = Draft | Sent | Approved | Rejected | ConvertedToDo | ConvertedToInvoice
  {
    function Value(): string {
      match this
      case Draft => "draft"
      case Sent => "sent"
      case Approved => "approved"
      case Rejected => "rejected"
      case ConvertedToDo => "converted_to_do"
      case ConvertedToInvoice => "converted_to_invoice"
    }
  }

  const ALL_STATUSES: seq<QuotationStatus> :=
    [Draft, Sent, Approved, Rejected, ConvertedToDo, ConvertedToInvoice]

  /** The enum member whose wire value is `t`, if any. */
  function ParseStatus(t: string): (r: Option<QuotationStatus>)
    ensures r.Some? ==> r.value.Value() == t
  {
    if t == "draft" then Some(Draft)
    else if t == "sent" then Some(Sent)
    else if t == "approved" then Some(Approved)
    else if t == "rejected" then Some(Rejected)
    else if t == "converted_to_do" then Some(ConvertedToDo)
    else if t == "converted_to_invoice" then Some(ConvertedToInvoice)
    else None
  }

  /** Exactly six statuses, with pairwise distinct wire values that parse back. */
  lemma StatusEnumeration()
    ensures |ALL_STATUSES| == 6
    ensures forall s: QuotationStatus :: s in ALL_STATUSES
    ensures forall i, j :: 0 <= i < j < 6 ==> ALL_STATUSES[i].Value() != ALL_STATUSES[j].Value()
    ensures forall s: QuotationStatus :: ParseStatus(s.Value()) == Some(s)
  {
    forall s: QuotationStatus ensures s in ALL_STATUSES {
      match s
      case Draft => assert ALL_STATUSES[0] == s;
      case Sent => assert ALL_STATUSES[1] == s;
      case Approved => assert ALL_STATUSES[2] == s;
      case Rejected => assert ALL_STATUSES[3] == s;
      case ConvertedToDo => assert ALL_STATUSES[4] == s;
      case ConvertedToInvoice => assert ALL_STATUSES[5] == s;
    }
  }

  /** Parsing accepts exactly the six wire values. */
  lemma ParseStatusExact(t: string)
    ensures ParseStatus(t).Some? <==> exists s: QuotationStatus :: s.Value() == t
  {
    if ParseStatus(t).None? {
      forall s: QuotationStatus ensures s.Value() != t {
      }
    }
  }

  /** The three kinds of quotation line, with their wire values. */
  datatype ItemType = Rental | Service | Sale
  {
    function Value(): string {
      match this
      case Rental => "rental"
      case Service => "service"
      case Sale => "sale"
    }
  }

  const ALL_ITEM_TYPES: seq<ItemType> := [Rental, Service, Sale]

  function ParseItemType(t: string): (r: Option<ItemType>)
    ensures r.Some? ==> r.value.Value() == t
  {
    if t == "rental" then Some(Rental)
    else if t == "service" then Some(Service)
    else if t == "sale" then Some(Sale)
    else None
  }

  /** Exactly three item types, with pairwise distinct wire values that parse back. */
  lemma ItemTypeEnumeration()
    ensures |ALL_ITEM_TYPES| == 3
    ensures forall k: ItemType :: k in ALL_ITEM_TYPES
    ensures forall i, j :: 0 <= i < j < 3 ==> ALL_ITEM_TYPES[i].Value() != ALL_ITEM_TYPES[j].Value()
    ensures forall k: ItemType :: ParseItemType(k.Value()) == Some(k)
  {
    forall k: ItemType ensures k in ALL_ITEM_TYPES {
      match k
      case Rental => assert ALL_ITEM_TYPES[0] == k;
      case Service => assert ALL_ITEM_TYPES[1] == k;
      case Sale => assert ALL_ITEM_TYPES[2] == k;
    }
  }

  /** The catalog entry embedded in a quotation line. */
  datatype EquipmentRef = EquipmentRef(id: int, name: string, dailyRentalPrice: int)

  /** One quotation line; optional fields of the interface are `Option`s. */
  datatype QuotationItem = QuotationItem(
    id: Option<int>,
    quotationId: int,
    sectionId: Option<int>,
    groupId: Option<int>,
    equipmentId: Option<int>,
    equipment: Option<EquipmentRef>,
    itemName: string,
    description: Option<string>,
    quantity: int,
    unit: Option<string>,
    pricePerDay: int,
    days: int,
    total: Option<int>,
    remarks: Option<string>,
    itemType: Option<ItemType>)

  /** A named cluster of lines inside a section. */
  datatype QuotationItemGroup = QuotationItemGroup(
    id: Option<int>,
    name: string,
    sectionId: int,
    description: Option<string>,
    total: Option<int>)

  /** A dated part of a quotation (a shooting day, say). */
  datatype QuotationSection = QuotationSection(
    id: Option<int>,
    name: string,
    date: string,
    quotationId: int,
    description: Option<string>)

  /** The fields of a quotation that the screens compute with. */
  datatype Quotation = Quotation(
    id: Option<int>,
    quotationNumber: string,
    clientName: string,
    subtotal: Option<int>,
    tax: Option<real>,
    discount: Option<real>,
    total: Option<real>,
    status: Option<QuotationStatus>,
    sections: Option<seq<QuotationSection>>,
    items: Option<seq<QuotationItem>>)

  // ---- the list request ----

  /** The keys of the list query, in the order they are appended, each sent when truthy. */
  const QUOTATION_QUERY: seq<(string, Gate)> := [
    ("page", WhenTruthy), ("limit", WhenTruthy), ("search", WhenTruthy),
    ("status", WhenTruthy), ("clientName", WhenTruthy), ("startDate", WhenTruthy),
    ("endDate", WhenTruthy), ("sort", WhenTruthy), ("order", WhenTruthy)]

  /** The query string of `getAllQuotations(filter)`, built append by append. */
  method GetAllQuotationsQuery(filter: Obj) returns (params: Params)
    ensures params == Select(filter, QUOTATION_QUERY)
  {
    ghost var q, done := QUOTATION_QUERY, [];
    params := [];
    params := AppendWhen(params, filter, done, ("page", WhenTruthy));
    done := done + [("page", WhenTruthy)];
    params := AppendWhen(params, filter, done, ("limit", WhenTruthy));
    done := done + [("limit", WhenTruthy)];
    params := AppendWhen(params, filter, done, ("search", WhenTruthy));
    done := done + [("search", WhenTruthy)];
    params := AppendWhen(params, filter, done, ("status", WhenTruthy));
    done := done + [("status", WhenTruthy)];
    params := AppendWhen(params, filter, done, ("clientName", WhenTruthy));
    done := done + [("clientName", WhenTruthy)];
    params := AppendWhen(params, filter, done, ("startDate", WhenTruthy));
    done := done + [("startDate", WhenTruthy)];
    params := AppendWhen(params, filter, done, ("endDate", WhenTruthy));
    done := done + [("endDate", WhenTruthy)];
    params := AppendWhen(params, filter, done, ("sort", WhenTruthy));
    done := done + [("sort", WhenTruthy)];
    params := AppendWhen(params, filter, done, ("order", WhenTruthy));
    done := done + [("order", WhenTruthy)];
    assert done == q;
  }

  /** The list query carries exactly the truthy keys of the filter, in the fixed order. */
  lemma QuotationQueryKeys(filter: Obj)
    ensures Keys(Select(filter, QUOTATION_QUERY))
         == Seqs.Filter(SpecKeys(QUOTATION_QUERY), (k: string) => Truthy(Get(filter, k)))
  {
    var keep := (k: string) => Truthy(Get(filter, k));
    forall e | e in QUOTATION_QUERY ensures keep(e.0) == Passes(e.1, Get(filter, e.0)) {
      assert e.1 == WhenTruthy;
    }
    SelectKeys(filter, QUOTATION_QUERY, keep);
  }

  /** Each key is sent at most once, with its value's text. */
  lemma QuotationQueryPairs(filter: Obj)
    ensures Distinct(Keys(Select(filter, QUOTATION_QUERY)))
    ensures forall p :: p in Select(filter, QUOTATION_QUERY) ==> p.1 == ToText(Get(filter, p.0))
  {
    assert Distinct(SpecKeys(QUOTATION_QUERY));
    SelectDistinct(filter, QUOTATION_QUERY);
    SelectValues(filter, QUOTATION_QUERY);
  }

  /** An empty filter, and one holding only falsy values such as page 0, send nothing. */
  lemma QuotationQueryOfFalsyFilter(filter: Obj)
    requires forall k :: k in filter ==> !Truthy(filter[k])
    ensures Select(filter, QUOTATION_QUERY) == []
  {
    QuotationQueryKeys(filter);
    var keep := (k: string) => Truthy(Get(filter, k));
    assert forall k :: k in SpecKeys(QUOTATION_QUERY) ==> !keep(k);
    Seqs.FilterNone(SpecKeys(QUOTATION_QUERY), keep);
  }

  // ---- endpoints ----

  const QUOTATIONS := "/quotations"

  /** `/quotations/{id}`: fetched, updated and deleted. */
  function QuotationPath(id: int): (p: string)
    ensures |p| > 12 && p[..12] == "/quotations/" && p[12..] == Text.IntText(id)
  {
    Api.IdPath(QUOTATIONS, id)
  }

  /** `/quotations/{id}/status`, the target of a status update. */
  function StatusPath(id: int): (p: string)
    ensures |p| == |QuotationPath(id)| + 7
    ensures p[..|QuotationPath(id)|] == QuotationPath(id) && p[|QuotationPath(id)|..] == "/status"
  {
    QuotationPath(id) + "/status"
  }

  /** Distinct quotations have distinct status targets. */
  lemma StatusPathInjective(a: int, b: int)
    ensures StatusPath(a) == StatusPath(b) <==> a == b
  {
    if StatusPath(a) == StatusPath(b) {
      assert QuotationPath(a) == StatusPath(a)[..|QuotationPath(a)|];
      assert QuotationPath(b) == StatusPath(b)[..|QuotationPath(b)|];
      Api.IdPathInjective(QUOTATIONS, a, b);
    }
  }

  /** A status target is never the path of a quotation record. */
  lemma StatusPathIsNotRecordPath(a: int, b: int)
    ensures StatusPath(a) != QuotationPath(b)
  {
    var p, q := StatusPath(a), QuotationPath(b);
    assert p[|p| - 1] == 's';
    assert q[|q| - 1] == Text.IntText(b)[|Text.IntText(b)| - 1];
    assert q[|q| - 1] in Text.IntText(b);
  }

  /** The body of a status update: exactly `{status}`. */
  function StatusBody(s: QuotationStatus): (b: Obj)
    ensures b.Keys == {"status"}
  {
    map["status" := Str(s.Value())]
  }

  /** The server reads the requested status back from the body. */
  lemma StatusBodyRoundTrip(s: QuotationStatus)
    ensures ParseStatus(ToText(Get(StatusBody(s), "status"))) == Some(s)
  {
  }

  /** `/quotations/{quotationId}/items[/{itemId}]`. */
  function ItemsPath(quotationId: int, itemId: Option<int>): (p: string)
    ensures var c := QuotationPath(quotationId) + "/items"; |p| >= |c| && p[..|c|] == c
  {
    var c := QuotationPath(quotationId) + "/items";
    var p := Api.ChildPath(QUOTATIONS, quotationId, "items", itemId);
    assert p[..|c|] == c by {
      if itemId.Some? {
        assert p[..|c| + 1] == c + "/";
        assert p[..|c|] == (c + "/")[..|c|];
      }
    }
    p
  }

  /** `/quotations/{quotationId}/sections[/{sectionId}]`. */
  function SectionsPath(quotationId: int, sectionId: Option<int>): (p: string)
    ensures var c := QuotationPath(quotationId) + "/sections"; |p| >= |c| && p[..|c|] == c
  {
    var c := QuotationPath(quotationId) + "/sections";
    var p := Api.ChildPath(QUOTATIONS, quotationId, "sections", sectionId);
    assert p[..|c|] == c by {
      if sectionId.Some? {
        assert p[..|c| + 1] == c + "/";
        assert p[..|c|] == (c + "/")[..|c|];
      }
    }
    p
  }

  /** The two export formats and their path segments. */
  datatype ExportFormat = Pdf | Excel

  /** `/quotations/{id}/export/pdf` and `/quotations/{id}/export/excel`. */
  function ExportPath(id: int, f: ExportFormat): (p: string)
    ensures var q, seg := QuotationPath(id), (if f == Pdf then "pdf" else "excel");
      && |p| == |q| + 8 + |seg|
      && p[..|q|] == q && p[|q|..|q| + 8] == "/export/" && p[|q| + 8..] == seg
  {
    QuotationPath(id) + "/export/" + (if f == Pdf then "pdf" else "excel")
  }

  /** An export path names its quotation and its format. */
  lemma ExportPathInjective(a: int, fa: ExportFormat, b: int, fb: ExportFormat)
    ensures ExportPath(a, fa) == ExportPath(b, fb) <==> a == b && fa == fb
  {
    var p := ExportPath(a, fa);
    if p == ExportPath(b, fb) {
      assert p[|p| - 1] == (if fa == Pdf then 'f' else 'l');
      assert p[|p| - 1] == (if fb == Pdf then 'f' else 'l');
      assert QuotationPath(a) == p[..|QuotationPath(a)|];
      assert QuotationPath(b) == p[..|QuotationPath(b)|];
      Api.IdPathInjective(QUOTATIONS, a, b);
    }
  }

  /** Item and section collections nest under their quotation's path. */
  lemma CollectionPathsNest(q: int)
    ensures ItemsPath(q, None) == QuotationPath(q) + "/items"
    ensures SectionsPath(q, None) == QuotationPath(q) + "/sections"
  {
    var base := QuotationPath(q);
    assert ItemsPath(q, None) == base + "/" + "items";
    assert base + "/" + "items" == base + ("/" + "items");
    assert SectionsPath(q, None) == base + "/" + "sections";
    assert base + "/" + "sections" == base + ("/" + "sections");
  }

  /** A single item or section is addressed by its id under its collection. */
  lemma ChildPathsNest(q: int, c: int)
    ensures ItemsPath(q, Some(c)) == Api.IdPath(ItemsPath(q, None), c)
    ensures SectionsPath(q, Some(c)) == Api.IdPath(SectionsPath(q, None), c)
  {
  }

  /** Distinct (quotation, child) pairs address distinct items, sections never clash with items. */
  lemma ChildPathsDistinct(q1: int, c1: int, q2: int, c2: int)
    ensures ItemsPath(q1, Some(c1)) == ItemsPath(q2, Some(c2)) ==> q1 == q2 && c1 == c2
    ensures SectionsPath(q1, Some(c1)) == SectionsPath(q2, Some(c2)) ==> q1 == q2 && c1 == c2
    ensures ItemsPath(q1, Some(c1)) != SectionsPath(q2, Some(c2))
  {
    if ItemsPath(q1, Some(c1)) == ItemsPath(q2, Some(c2)) {
      Api.ChildPathInjective(QUOTATIONS, "items", "items", q1, c1, q2, c2);
    }
    if SectionsPath(q1, Some(c1)) == SectionsPath(q2, Some(c2)) {
      Api.ChildPathInjective(QUOTATIONS, "sections", "sections", q1, c1, q2, c2);
    }
    if ItemsPath(q1, Some(c1)) == SectionsPath(q2, Some(c2)) {
      Api.ChildPathInjective(QUOTATIONS, "items", "sections", q1, c1, q2, c2);
    }
  }

  /** The header every request carries. */
  function AuthHeader(token: Option<string>): string {
    Api.BearerHeader(token)
  }
}

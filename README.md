# Cinelight back office: a Dafny model

Cinelight is a React/TypeScript back office for a film-equipment rental house. Staff sign in and then manage:

- the equipment catalogue;
- equipment categories;
- equipment bundles, which are priced packages of catalogue items with a discount;
- rental quotations, which move through a status workflow from draft to delivery order or invoice.

This project models the logic behind those screens, leaving out the rendering:

- the REST service classes, which build query strings, request paths and authorisation headers;
- the quotation form hook, which holds item and section lists, computes totals and builds the submit payload;
- the quotation detail and list pages, which cover the status workflow, status tags, export file names and list filters;
- the bundle form and bundle detail pages, which cover the item list, quantity merging, list price and discount;
- the authentication context, route guards, login page and layout shell;
- the equipment form's validation and the paging and search state of the catalogue list pages.

The project proves properties of that logic.

## Layout

| module | what it models |
|---|---|
| Wrappers, Js, Text, Seqs | Shared helpers. Wrappers is Option. Js covers dynamic JavaScript values, truthiness, `||` defaults and number-to-text. Text covers digit strings, and Seqs covers filter and map with their algebra. |
| UrlParams | A `URLSearchParams` list as a sequence of pairs. `Select` is the reference that says which keys a service appends for a filter object. |
| Api | The shared request-building pieces: the `Bearer` header, `base/id` paths and `base/id/segment/child` paths, with injectivity proofs. |
| QuotationService, EquipmentService | The records and enumerations, and the query builders as imperative methods proved equal to `Select`. Also the request paths and the status body. |
| Currency | The `Rp` money formatter and the digit-keeping parser, with a round trip. |
| QuotationFormHook, QuotationFormView | The quotation editor as a class, plus the view's panel filters, the item-form rules and prefill, and the summary amounts. |
| QuotationDetail, QuotationList | The status tags and the workflow buttons, with the workflow proved acyclic. Also export names, displayed amounts, and the list page's filter state as a class. |
| BundleForm, BundleDetail | The bundle editor as a class with merge-on-add, list price and discount. Also the detail page's totals and savings. |
| AuthContext, AppRoutes, LoginPage, Layout, Feedback | Session state as a class, the two route guards and the redirect behaviour, the login flow, and the layout's name, avatar, menu title and collapsible sider. |
| EquipmentForm, EquipmentList, CatalogLists | Equipment form validation, and the paging and search state of the equipment, bundle and category list pages. |

## Modelling decisions

**Values and effects**
- A JavaScript filter object is a `map<string, JsValue>`. `JsValue` is undefined, an integer, a string or a boolean. Truthiness is spelled out, so the string `"0"` is truthy and the number `0` is not.
- Network replies, `localStorage` contents, the current time and `Math.random()` are parameters of the methods that use them. A failed request is a `None` or `Fail` reply.
- `toLocaleString` is a function parameter. Money is exact: integers or reals, with no floating-point rounding.

**Behaviour worth noting**
- The quotation payload is flat. The submit code sends one flat item list, plus the section list only when it is non-empty.
- Removing a section leaves its items in place. Only the section is removed.
- The route table in `src/App.tsx` declares only `/` and `/login`. The wildcard route sends every other path to `/`. The model therefore resolves every other path to `/`.
- `bundleItems` is declared as always present. Every page that reads it guards for its absence, so the model makes it optional.

## Model

| member | source | states |
|---|---|---|
| Api.BearerHeader | src/services/QuotationService.ts:133-140 | The header is `"Bearer "` followed by the stored token, or by `null` when no token is stored. |
| Api.BearerHeaderInjective | src/services/QuotationService.ts:133-140 | Two stored tokens that give the same header are equal. |
| Api.BearerHeaderOfMissingToken | src/services/QuotationService.ts:133-140 | A missing token sends the same header as the literal token "null". |
| Api.IdPath | src/services/QuotationService.ts:164-169 | A record path is the collection path, a slash, then the id's decimal text. |
| Api.IdPathInjective | src/services/QuotationService.ts:164-169 | Different ids under the same collection give different paths. |
| Api.ChildPath | src/services/QuotationService.ts:215-261 | A child path nests the segment, and optionally the child id, under the parent's record path. |
| Api.ChildPathShape | src/services/QuotationService.ts:227-235 | A child record path is the parent record path, the segment, then the child id. |
| Api.ChildPathInjective | src/services/QuotationService.ts:215-261 | A child path determines the parent id, the segment and the child id. |
| QuotationService.ParseStatus | src/services/QuotationService.ts:4-11 | Reading a status back from its wire text gives the status whose text it is. |
| QuotationService.StatusEnumeration | src/services/QuotationService.ts:4-11 | There are exactly six statuses with pairwise distinct wire texts, and each parses back to itself. |
| QuotationService.ParseStatusExact | src/services/QuotationService.ts:4-11 | A text parses as a status if and only if it is some status's wire text. |
| QuotationService.ParseItemType | src/services/QuotationService.ts:13-17 | Reading an item type back from its wire text gives the type whose text it is. |
| QuotationService.ItemTypeEnumeration | src/services/QuotationService.ts:13-17 | There are exactly three item types with distinct wire texts, and each parses back to itself. |
| QuotationService.GetAllQuotationsQuery | src/services/QuotationService.ts:142-158 | The guarded appends build exactly the reference selection of the filter's fields. |
| QuotationService.QuotationQueryKeys | src/services/QuotationService.ts:145-155 | A key is sent if and only if it is one of the nine listed fields and the filter's value for it is truthy. |
| QuotationService.QuotationQueryPairs | src/services/QuotationService.ts:145-155 | No key is sent twice, and each value sent is the text of the filter's value. |
| QuotationService.QuotationQueryOfFalsyFilter | src/services/QuotationService.ts:145-155 | A filter whose every value is falsy sends an empty query. |
| QuotationService.StatusBody | src/services/QuotationService.ts:195-204 | The status update body has exactly the one key "status". |
| QuotationService.StatusBodyRoundTrip | src/services/QuotationService.ts:195-204 | Reading the status field of the body back gives the status sent. |
| QuotationService.QuotationPath | src/services/QuotationService.ts:166 | A record path is "/quotations/" followed by the id's decimal text. |
| QuotationService.StatusPath | src/services/QuotationService.ts:195-204 | The status target is the quotation's record path followed by "/status". |
| QuotationService.StatusPathInjective | src/services/QuotationService.ts:195-204 | Two quotations share a status target if and only if they are the same quotation. |
| QuotationService.StatusPathIsNotRecordPath | src/services/QuotationService.ts:195-209 | A status target never equals any quotation's record path. |
| QuotationService.ItemsPath | src/services/QuotationService.ts:215-237 | Every item path, the collection or one item, begins with the quotation's path followed by "/items". |
| QuotationService.SectionsPath | src/services/QuotationService.ts:241-261 | Every section path, the collection or one section, begins with the quotation's path followed by "/sections". |
| QuotationService.ExportPath | src/services/QuotationService.ts:264-280 | An export path is the quotation's path, "/export/", then "pdf" or "excel" by format. |
| QuotationService.ExportPathInjective | src/services/QuotationService.ts:264-280 | Two export paths are equal if and only if they have the same quotation and format. |
| QuotationService.CollectionPathsNest | src/services/QuotationService.ts:215-261 | The items and sections collections sit directly under the quotation's record path. |
| QuotationService.ChildPathsNest | src/services/QuotationService.ts:227-261 | An item or section record path is its collection path plus the child id. |
| QuotationService.ChildPathsDistinct | src/services/QuotationService.ts:215-261 | Item and section paths determine both ids, and no item path equals a section path. |
| EquipmentService.FindEquipment | src/pages/Quotation/hooks/useQuotationForm.tsx:210-212 | Finds the first catalogue entry with the id. The result is None exactly when no entry has it. |
| EquipmentService.FindEquipmentFirst | src/pages/EquipmentBundle/BundleForm.tsx:172-174 | When entry i is the first with the id, the lookup returns entry i. |
| EquipmentService.GetAllEquipmentQuery | src/services/EquipmentService.ts:96-118 | The guarded appends build exactly the reference selection. The isActive flag is kept when it is defined, even when false. |
| EquipmentService.GetEquipmentByCategoryQuery | src/services/EquipmentService.ts:128-145 | The by-category query builder equals its reference selection. |
| EquipmentService.GetAllCategoriesQuery | src/services/EquipmentService.ts:179-193 | The category query builder equals the paging-and-search selection. |
| EquipmentService.GetAllBundlesQuery | src/services/EquipmentService.ts:237-251 | The bundle query builder equals the paging-and-search selection. |
| EquipmentService.EquipmentQueryKeys | src/services/EquipmentService.ts:99-111 | A key is sent if and only if it is listed and its value passes its gate: truthy, or for isActive merely defined. |
| EquipmentService.EquipmentQueryPairs | src/services/EquipmentService.ts:99-111 | No key is sent twice, and each value sent is the text of the filter's value. |
| EquipmentService.InactiveFilterIsSent | src/services/EquipmentService.ts:110-111 | A false isActive filter is still sent, as "false". |
| EquipmentService.ZeroMinPriceIsDropped | src/services/EquipmentService.ts:106-107 | A numeric minimum price of 0 is not sent. |
| EquipmentService.ByCategoryQueryKeys | src/services/EquipmentService.ts:132-142 | A key is sent if and only if it is one of the by-category fields and its value is truthy. |
| EquipmentService.PageSearchQueryKeys | src/services/EquipmentService.ts:182-186 | Only page, limit and search can be sent, each when truthy. |
| EquipmentService.ByCategoryOmitsCatalogFilters | src/services/EquipmentService.ts:132-142 | The by-category query never carries the catalogue's price or status filters. |
| EquipmentService.RecordPathsInjective | src/services/EquipmentService.ts:122-286 | Equipment, by-category, category and bundle paths each determine their id. |
| EquipmentService.EquipmentPath | src/services/EquipmentService.ts:122 | An equipment record path is "/equipment/" followed by the id's decimal text. |
| EquipmentService.ByCategoryPath | src/services/EquipmentService.ts:141 | The by-category listing path is "/equipment/category/" followed by the category id's text. |
| EquipmentService.CategoryPath | src/services/EquipmentService.ts:199 | A category path is "/equipment/categories/" followed by the id's text. |
| EquipmentService.BundlePath | src/services/EquipmentService.ts:255 | A bundle path is "/bundles/" followed by the id's text. |
| EquipmentService.EquipmentPathsDistinct | src/services/EquipmentService.ts:122-199 | An equipment record path never equals a category path or a by-category listing path. |
| Currency.FormatCurrency | src/pages/Quotation/hooks/useQuotationForm.tsx:298-301 | No value gives the empty text. A value gives "Rp " followed by its locale text. |
| Currency.FormatCurrencyOrZero | src/pages/Quotation/QuotationDetail.tsx:180-183 | No value gives "Rp 0". A value is formatted as in the form. |
| Currency.ParseCurrency | src/pages/Quotation/hooks/useQuotationForm.tsx:304-307 | No text, or text with no digit, reads as 0. Otherwise the result is the number its digits spell. |
| Currency.ParseOptionalCurrency | src/pages/Equipment/EquipmentForm.tsx:114-117 | The result is absent exactly when the text is missing, empty or only the `Rp ` prefix. Any other text gives its digits' value, so text with no digit gives 0. |
| Currency.ParsersAgree | src/pages/EquipmentBundle/BundleForm.tsx:242-245 | The zero-defaulting parser is the optional parser with 0 for absence. |
| Currency.ParseFormatRoundTrip | src/pages/Quotation/hooks/useQuotationForm.tsx:298-307 | Parsing a formatted amount gives the amount back, for any locale whose digits spell the number. |
| QuotationFormHook.SelectedEquipment | src/pages/Quotation/hooks/useQuotationForm.tsx:210-212 | No or zero equipment id selects nothing. Otherwise the first catalogue entry with the id is selected. |
| QuotationFormHook.NewItem | src/pages/Quotation/hooks/useQuotationForm.tsx:209-245 | The defaults are quantity 1, days 1, unit "Set" and type Rental. The item takes the catalogue rate and name when its own are falsy, has a time-based id and no group or section, and its total is quantity times rate times days. |
| QuotationFormHook.LineTotal | src/pages/Quotation/hooks/useQuotationForm.tsx:274-277 | A line counts its total when that is truthy, and 0 otherwise. |
| QuotationFormHook.SumTotals | src/pages/Quotation/hooks/useQuotationForm.tsx:274-277 | The subtotal of no lines is 0. When every line total is non-negative, the subtotal is non-negative. |
| QuotationFormHook.GrandTotal | src/pages/Quotation/hooks/useQuotationForm.tsx:289-293 | A 0 subtotal gives a 0 total. Equal tax and discount rates cancel, leaving the subtotal. |
| QuotationFormHook.ZeroPriceFallsBackToCatalog | src/pages/Quotation/hooks/useQuotationForm.tsx:220-222 | A typed price of 0 is replaced by the catalogue's daily rate. |
| QuotationFormHook.SumTotalsAppend | src/pages/Quotation/hooks/useQuotationForm.tsx:274-278 | Appending an item adds its line total to the subtotal. |
| QuotationFormHook.SumTotalsCons | src/pages/Quotation/hooks/useQuotationForm.tsx:274-278 | Prepending an item adds its line total to the subtotal. |
| QuotationFormHook.SumTotalsSplit | src/pages/Quotation/hooks/useQuotationForm.tsx:274-278 | The subtotal is the sum over any split of the items in two. |
| QuotationFormHook.GrandTotalNetRate | src/pages/Quotation/hooks/useQuotationForm.tsx:289-293 | The total is the subtotal scaled by one plus the tax rate less the discount rate. |
| QuotationFormHook.GrandTotalBounds | src/pages/Quotation/hooks/useQuotationForm.tsx:289-293 | With percentages in 0..100 the total is between 0 and the subtotal with tax. |
| QuotationFormHook.GrandTotalExample | src/pages/Quotation/hooks/useQuotationForm.tsx:281-293 | With the default 11% tax, a subtotal of 650 totals 721.5. |
| QuotationFormHook.Serial | src/pages/Quotation/hooks/useQuotationForm.tsx:127-129 | The random serial is below 10000. |
| QuotationFormHook.QuotationNumber | src/pages/Quotation/hooks/useQuotationForm.tsx:123-131 | The number starts with "Q-", then the date text, then "-", followed by at least four serial characters. |
| QuotationFormHook.QuotationNumberFormat | src/pages/Quotation/hooks/useQuotationForm.tsx:123-140 | The number is "Q-", the eight date characters, "-", then four zero-padded digits that read back as the serial. |
| QuotationFormHook.QuotationEditor.constructor | src/pages/Quotation/hooks/useQuotationForm.tsx:27-36 | Empty lists, zero totals and the form's defaults: tax 11, discount 0, status DRAFT. |
| QuotationFormHook.QuotationEditor.FetchEquipment | src/pages/Quotation/hooks/useQuotationForm.tsx:61-69 | A reply replaces the catalogue with no notice. A failure leaves it unchanged and reports "Failed to fetch equipment". |
| QuotationFormHook.QuotationEditor.FetchQuotation | src/pages/Quotation/hooks/useQuotationForm.tsx:72-120 | A loaded quotation fills the state and form fields, keeping the old lists when the record has none. A failure reports "Failed to fetch quotation details", navigates to the list and changes nothing. |
| QuotationFormHook.QuotationEditor.GenerateQuotationNumber | src/pages/Quotation/hooks/useQuotationForm.tsx:123-140 | Sets the generated number and the tax, discount and status defaults. |
| QuotationFormHook.QuotationEditor.AddItem | src/pages/Quotation/hooks/useQuotationForm.tsx:209-245 | Appends exactly the new item. |
| QuotationFormHook.QuotationEditor.RemoveItem | src/pages/Quotation/hooks/useQuotationForm.tsx:248-250 | Keeps, in order, exactly the items whose id differs. |
| QuotationFormHook.QuotationEditor.AddSection | src/pages/Quotation/hooks/useQuotationForm.tsx:253-264 | Appends the new section with its time-based id. |
| QuotationFormHook.QuotationEditor.RemoveSection | src/pages/Quotation/hooks/useQuotationForm.tsx:267-269 | Removes the sections with that id, and leaves the items untouched. |
| QuotationFormHook.QuotationEditor.CalculateTotals | src/pages/Quotation/hooks/useQuotationForm.tsx:272-295 | The subtotal is the recursive sum of line totals. The tax and discount are the form's rates or 0, and the total is the grand total of those. |
| QuotationFormHook.QuotationEditor.Payload | src/pages/Quotation/hooks/useQuotationForm.tsx:153-175 | One flat payload item per item, in order. Sections only when there are any. The totals and rates are carried over. |
| QuotationFormHook.QuotationEditor.Submit | src/pages/Quotation/hooks/useQuotationForm.tsx:143-206 | No items gives an error and no call. Otherwise create or update is called per mode. Success navigates to the list with "Quotation created successfully" or "Quotation updated successfully". Failure reports the mode's error and stays. |
| QuotationFormHook.AddItemRaisesSubtotal | src/pages/Quotation/hooks/useQuotationForm.tsx:209-278 | After adding an item, the subtotal grows by exactly its quantity times rate times days. |
| QuotationFormHook.RemoveItemKeepsOthers | src/pages/Quotation/hooks/useQuotationForm.tsx:248-250 | After removal no item has the id, and every other item is still there. |
| QuotationFormView.StandaloneItems | src/pages/Quotation/QuotationForm.tsx:1032-1037 | The standalone panel lists exactly the items whose group id is falsy (absent or 0), in order. |
| QuotationFormView.GroupItems | src/pages/Quotation/QuotationForm.tsx:1006-1008 | A group panel lists exactly the items whose group id equals the group's id. |
| QuotationFormView.SectionGroups | src/pages/Quotation/QuotationForm.tsx:987-989 | A section panel lists exactly the groups of that section. |
| QuotationFormView.StandaloneAndGroupDisjoint | src/pages/Quotation/QuotationForm.tsx:1006-1037 | An item never shows both as standalone and under a group whose id is truthy (non-zero). |
| QuotationFormView.UnidentifiedPanels | src/pages/Quotation/QuotationForm.tsx:987-1037 | A group without an id shows every item whose group id is undefined, and a section without an id shows no groups. |
| QuotationFormView.StandaloneKeepsOrder | src/pages/Quotation/QuotationForm.tsx:1032-1037 | The standalone panel keeps the items in their list order. |
| QuotationFormView.SubtotalCoversAllPanels | src/pages/Quotation/hooks/useQuotationForm.tsx:274-278 | The subtotal is the standalone items' total plus the grouped items' total. |
| QuotationFormView.StatusOptionLabelExample | src/pages/Quotation/QuotationForm.tsx:719 | The converted-to-D.O. status is shown as "CONVERTED TO DO". |
| QuotationFormView.StatusOptionLabel | src/pages/Quotation/QuotationForm.tsx:719 | A label is as long as the status value and contains no underscore. |
| QuotationFormView.StatusOptionLabelShape | src/pages/Quotation/QuotationForm.tsx:719 | A label is as long as the status value and starts with its first letter capitalised. |
| QuotationFormView.StatusOptionLabels | src/pages/Quotation/QuotationForm.tsx:719 | No label keeps an underscore, and distinct statuses get distinct labels. |
| QuotationFormView.AcceptedItemKeepsInput | src/pages/Quotation/QuotationForm.tsx:499-531 | An item that passes the form rules keeps the typed name, quantity, days and rate. |
| QuotationFormView.ItemFormAccepts | src/pages/Quotation/QuotationForm.tsx:499-559 | An accepted submission has a non-empty name, a quantity of at least 1, a days count, and a quantity times days of at least the quantity. |
| QuotationFormView.DefaultsNeedNameAndPrice | src/pages/Quotation/QuotationForm.tsx:461-531 | The item form's defaults are rejected until a name and a price are filled in. |
| QuotationFormView.Prefill | src/pages/Quotation/QuotationForm.tsx:477-484 | Choosing equipment sets its id and, when it is in the catalogue, copies its name and daily rate. |
| QuotationFormView.PrefilledItemUsesCatalog | src/pages/Quotation/QuotationForm.tsx:477-484 | An item added after prefill carries the catalogue name and rate. |
| QuotationFormView.SummaryAddsUp | src/pages/Quotation/QuotationForm.tsx:828-886 | In the editor state that `calculateTotals` leaves, the card's total is the sum of the line totals plus the shown tax amount less the shown discount amount. A 0 rate shows a 0 amount. |
| QuotationDetail.StatusTag | src/pages/Quotation/QuotationDetail.tsx:143-177 | Unknown status text is shown unchanged in the default colour. The list page's `renderStatusTag` (src/pages/Quotation/QuotationList.tsx:161-196) is the same switch and is modelled by this function. |
| QuotationDetail.StatusTagsDistinct | src/pages/Quotation/QuotationDetail.tsx:143-177 | Known statuses get distinct non-default colours and distinct labels. |
| QuotationDetail.Offered | src/pages/Quotation/QuotationDetail.tsx:247-312 | Draft offers Sent. Sent offers Approved or Rejected. Approved offers conversion to D.O. or to invoice. Every other status offers nothing. |
| QuotationDetail.StatusButtons | src/pages/Quotation/QuotationDetail.tsx:247-312 | No quotation loaded shows no buttons. |
| QuotationDetail.StepAdvances | src/pages/Quotation/QuotationDetail.tsx:247-312 | Every offered transition raises the status's rank. |
| QuotationDetail.StepSources | src/pages/Quotation/QuotationDetail.tsx:247-312 | Only Sent can become Rejected, only Approved can be converted, and nothing returns to Draft. |
| QuotationDetail.PathRanks | src/pages/Quotation/QuotationDetail.tsx:247-312 | Along a chain of offered transitions, the rank grows by at least one per step. |
| QuotationDetail.PathsAreAcyclic | src/pages/Quotation/QuotationDetail.tsx:247-312 | A chain of transitions never repeats a status or revisits Draft, and has at most four statuses. |
| QuotationDetail.TerminalStatuses | src/pages/Quotation/QuotationDetail.tsx:247-312 | A status offers no buttons if and only if it is Rejected or converted. |
| QuotationDetail.StatusUpdatedMessage | src/pages/Quotation/QuotationDetail.tsx:74-87 | The success notice ends with the new status's wire text. |
| QuotationDetail.ExportFileName | src/pages/Quotation/QuotationDetail.tsx:95-112 | A download name is "quotation-", then the route id, then ".pdf" for PDF or ".xlsx" for Excel. |
| QuotationDetail.ExportFileNamesDistinct | src/pages/Quotation/QuotationDetail.tsx:95-112 | Two downloads share a name if and only if they have the same id and format. |
| QuotationDetail.DisplayedAmount | src/pages/Quotation/QuotationDetail.tsx:430-445 | A falsy subtotal or rate shows an amount of 0. |
| QuotationDetail.DisplayedAmountsAddUp | src/pages/Quotation/QuotationDetail.tsx:430-451 | For a total saved by the form, the total is the subtotal plus the shown tax less the shown discount. |
| QuotationList.Searched | src/pages/Quotation/QuotationList.tsx:79-81 | Search sets the text and returns to page 1. Every other filter field is kept. |
| QuotationList.FilterChanged | src/pages/Quotation/QuotationList.tsx:104-106 | A filter change sets that key and returns to page 1. Every other field is kept. |
| QuotationList.DateRanged | src/pages/Quotation/QuotationList.tsx:108-120 | A range sets both dates; clearing removes both. Either returns to page 1 and keeps the other fields. |
| QuotationList.SortOrder | src/pages/Quotation/QuotationList.tsx:83-91 | The order is "ASC" if and only if the table sorts ascending, and "DESC" otherwise. |
| QuotationList.TableChanged | src/pages/Quotation/QuotationList.tsx:83-91 | The table sets page, limit, sort field and order. Every other field is kept. |
| QuotationList.QuotationListPage.constructor | src/pages/Quotation/QuotationList.tsx:51-55 | Starts on page 1 of 10 with empty search text. |
| QuotationList.QuotationListPage.TypeSearch | src/pages/Quotation/QuotationList.tsx:374 | Typing changes only the search text. |
| QuotationList.QuotationListPage.HandleSearch | src/pages/Quotation/QuotationList.tsx:79-81 | The new filter is the searched filter. |
| QuotationList.QuotationListPage.HandleTableChange | src/pages/Quotation/QuotationList.tsx:83-91 | The new filter is the table-changed filter. |
| QuotationList.QuotationListPage.HandleFilterChange | src/pages/Quotation/QuotationList.tsx:104-106 | The new filter is the changed filter. |
| QuotationList.QuotationListPage.HandleDateRangeChange | src/pages/Quotation/QuotationList.tsx:108-120 | The new filter is the date-ranged filter. |
| QuotationList.QuotationListPage.HandleResetFilter | src/pages/Quotation/QuotationList.tsx:122-125 | Reset restores the initial filter and clears the search text. |
| QuotationList.InitialQuery | src/pages/Quotation/QuotationList.tsx:51-54 | The initial filter sends exactly page=1 and limit=10. |
| QuotationList.InitialPaging | src/pages/Quotation/QuotationList.tsx:51-54 | The initial page and limit are sent as "1" and "10". |
| QuotationList.InitialRestSilent | src/pages/Quotation/QuotationList.tsx:51-54 | No other query key is present in the initial filter. |
| QuotationList.ClearedRangeSendsNoDates | src/pages/Quotation/QuotationList.tsx:108-120 | After clearing the range, no date is sent. |
| QuotationList.SearchedIdempotent | src/pages/Quotation/QuotationList.tsx:79-81 | Searching twice for the same text is the same as searching once. |
| QuotationList.ClearAfterRange | src/pages/Quotation/QuotationList.tsx:108-120 | Setting a range and then clearing it equals clearing at once. |
| QuotationList.TotalText | src/pages/Quotation/QuotationList.tsx:236-237 | A falsy total shows "Rp 0". Otherwise the total is formatted. |
| QuotationList.TotalTextAgreesWithDetail | src/pages/Quotation/QuotationList.tsx:236-237 | The list and the detail page format a total identically, whenever the locale writes 0 as "0". |
| BundleForm.AddQuantity | src/pages/EquipmentBundle/BundleForm.tsx:159-170 | Adds the quantity to the rows with that equipment. Every other row is unchanged. |
| BundleForm.NewBundleItem | src/pages/EquipmentBundle/BundleForm.tsx:171-187 | The new row carries the id, the quantity, the bundle id and the catalogue entry. |
| BundleForm.WithItem | src/pages/EquipmentBundle/BundleForm.tsx:147-193 | Equipment already listed has its quantity increased; otherwise one new row is appended. Either way the equipment is then listed. |
| BundleForm.WithoutItem | src/pages/EquipmentBundle/BundleForm.tsx:195-199 | Removes exactly the rows with that equipment. |
| BundleForm.WithItemKeepsUnique | src/pages/EquipmentBundle/BundleForm.tsx:159-187 | Adding keeps each piece of equipment on at most one row. |
| BundleForm.QuantityOfAppend | src/pages/EquipmentBundle/BundleForm.tsx:171-187 | Appending a row adds its quantity to its equipment's count only. |
| BundleForm.QuantityOfMissing | src/pages/EquipmentBundle/BundleForm.tsx:159-170 | Equipment not listed has count 0. |
| BundleForm.AddQuantityCounts | src/pages/EquipmentBundle/BundleForm.tsx:159-170 | Merging raises the equipment's count by the quantity, and leaves every other count alone. |
| BundleForm.WithItemCounts | src/pages/EquipmentBundle/BundleForm.tsx:147-193 | Adding raises the equipment's count by exactly the quantity, and leaves every other count alone. |
| BundleForm.AddThenRemove | src/pages/EquipmentBundle/BundleForm.tsx:147-199 | Adding new equipment and then removing it restores the list. |
| BundleForm.DiscountedPrice | src/pages/EquipmentBundle/BundleForm.tsx:216-233 | A 0% discount keeps the list price, and 100% makes it 0. |
| BundleForm.DiscountedPriceBounds | src/pages/EquipmentBundle/BundleForm.tsx:216-233 | A discount in 0..100 keeps the price between 0 and the list price. |
| BundleForm.LinePriceIsUnitPrice | src/pages/EquipmentBundle/BundleForm.tsx:203-210 | A row costs its equipment's catalogue rate, or 0 when not found, times its quantity. |
| BundleForm.LinePrice | src/pages/EquipmentBundle/BundleForm.tsx:203-208 | Equipment missing from the catalogue adds 0. With non-negative catalogue prices and a non-negative quantity, a line adds a non-negative amount. |
| BundleForm.UnitPrice | src/pages/EquipmentBundle/BundleForm.tsx:203-208 | Equipment missing from the catalogue has price 0. A non-zero price is the daily price of a catalogue entry with that id. |
| BundleForm.ListPrice | src/pages/EquipmentBundle/BundleForm.tsx:201-210 | No lines cost 0. The loop in `CalculateBundlePrice` is proved equal to it. |
| BundleForm.ListPriceNonNegative | src/pages/EquipmentBundle/BundleForm.tsx:201-210 | With non-negative catalogue prices and quantities, the list price is not negative. |
| BundleForm.AddQuantityPrice | src/pages/EquipmentBundle/BundleForm.tsx:159-210 | Merging raises the list price by the unit rate times the quantity. |
| BundleForm.WithItemPrice | src/pages/EquipmentBundle/BundleForm.tsx:147-210 | Adding raises the list price by exactly the unit rate times the quantity. |
| BundleForm.BundleEditor.constructor | src/pages/EquipmentBundle/BundleForm.tsx:44-50 | Empty state, quantity 1, discount 0 and no price. |
| BundleForm.BundleEditor.FetchEquipment | src/pages/EquipmentBundle/BundleForm.tsx:69-77 | A reply replaces the catalogue with no notice. A failure reports "Failed to fetch equipment". Nothing else changes. |
| BundleForm.BundleEditor.FetchBundle | src/pages/EquipmentBundle/BundleForm.tsx:79-106 | A loaded bundle fills the form and its rows. A failure reports "Failed to fetch bundle details" and navigates to the list. |
| BundleForm.BundleEditor.SelectEquipment | src/pages/EquipmentBundle/BundleForm.tsx:340 | Only the selection changes. |
| BundleForm.BundleEditor.SetQuantity | src/pages/EquipmentBundle/BundleForm.tsx:361 | The quantity becomes the typed value, or 1 when that is empty or zero. |
| BundleForm.BundleEditor.AddItem | src/pages/EquipmentBundle/BundleForm.tsx:147-193 | No selection or a non-positive quantity gives its error and changes nothing. Otherwise the row list becomes `WithItem` and the inputs reset. |
| BundleForm.BundleEditor.RemoveItem | src/pages/EquipmentBundle/BundleForm.tsx:195-199 | The rows become `WithoutItem` of the old rows. |
| BundleForm.BundleEditor.CalculateBundlePrice | src/pages/EquipmentBundle/BundleForm.tsx:201-223 | The loop computes the list price. In create mode the price field becomes the discounted price. |
| BundleForm.BundleEditor.HandleDiscountChange | src/pages/EquipmentBundle/BundleForm.tsx:225-233 | The discount field takes the new value, with a cleared input leaving none. A number also sets the price field to the discounted list price. |
| BundleForm.BundleEditor.Payload | src/pages/EquipmentBundle/BundleForm.tsx:118-124 | The form's fields, minus its row field, plus one id-and-quantity reference per row, in order. |
| BundleForm.BundleEditor.Submit | src/pages/EquipmentBundle/BundleForm.tsx:108-145 | No rows gives an error and no call. Otherwise create or update per mode; success navigates to the list, and failure reports the error. |
| BundleDetail.RowSubtotal | src/pages/EquipmentBundle/BundleDetail.tsx:118-121 | A row without equipment shows subtotal 0. |
| BundleDetail.ItemPrice | src/pages/EquipmentBundle/BundleDetail.tsx:83 | A line with attached equipment is priced at that equipment's daily price, and a line without it at 0 (the `dailyRentalPrice` read with a 0 default). |
| BundleDetail.Fold | src/pages/EquipmentBundle/BundleDetail.tsx:82-85 | The reduction of no lines is its starting value. When every row subtotal is non-negative, the reduction is at least the starting value. |
| BundleDetail.SumRows | src/pages/EquipmentBundle/BundleDetail.tsx:116-121 | The Subtotal column of no rows sums to 0. When every row subtotal is non-negative, it sums to a non-negative amount. |
| BundleDetail.TotalPrice | src/pages/EquipmentBundle/BundleDetail.tsx:79-86 | No bundle, or no rows, totals 0. |
| BundleDetail.Savings | src/pages/EquipmentBundle/BundleDetail.tsx:89-94 | A zero total saves 0. Otherwise the saving is the total minus the bundle price. |
| BundleDetail.ItemCount | src/pages/EquipmentBundle/BundleDetail.tsx:202 | The count is the number of rows, or 0 with no rows. |
| BundleDetail.FoldIsSum | src/pages/EquipmentBundle/BundleDetail.tsx:82-85 | The left-to-right reduction equals the sum of the row subtotals. |
| BundleDetail.RowsAddUpToTotal | src/pages/EquipmentBundle/BundleDetail.tsx:79-121 | The row subtotals shown add up to the total shown. |
| BundleDetail.SumRowsSnoc | src/pages/EquipmentBundle/BundleDetail.tsx:118-121 | Adding a row adds its subtotal. |
| BundleDetail.SumRowsIsListPrice | src/pages/EquipmentBundle/BundleDetail.tsx:79-86 | When rows carry their catalogue entries, the detail total equals the form's list price. |
| BundleDetail.SavingsNotClamped | src/pages/EquipmentBundle/BundleDetail.tsx:89-94 | A bundle priced above its parts shows a negative saving (-50 in the example). |
| AuthContext.LoginErrorMessage | src/contexts/AuthContext.tsx:144-150 | The server's message is used when it is non-empty, otherwise a default. It is never empty. |
| AuthContext.Session.constructor | src/contexts/AuthContext.tsx:64-66 | The session starts from stored token and user, signed out, not loading, without error. |
| AuthContext.Session.IsAuthenticated | src/contexts/AuthContext.tsx:184 | Signed in exactly when a user is loaded (`!!user`). |
| AuthContext.Session.AuthHeader | src/contexts/AuthContext.tsx:69-72 | A header is sent if and only if a non-empty token is stored, and it is the bearer header. |
| AuthContext.Session.Intercept | src/contexts/AuthContext.tsx:22-33 | A 401 wipes the stored token and user and goes to the login page. Other failures change nothing. |
| AuthContext.Session.FetchCurrentUser | src/contexts/AuthContext.tsx:75-93 | A request is made only with a token. Success returns the user, and failure wipes storage. |
| AuthContext.Session.CheckAuth | src/contexts/AuthContext.tsx:97-119 | The user is set on success. Storage is wiped on failure, and a 401 failure redirects to the login page. Otherwise the location is unchanged. Loading ends either way. |
| AuthContext.Session.Login | src/contexts/AuthContext.tsx:124-153 | Success stores the token and user and clears the error. Failure records and rethrows the message. Loading ends either way. |
| AuthContext.Session.Logout | src/contexts/AuthContext.tsx:155-180 | The logout call is made only with a token. The session always ends signed out with storage cleared. |
| AppRoutes.PrivateRoute | src/App.tsx:35-49 | Shows loading while loading, the page when signed in, and otherwise redirects to /login remembering the path. |
| AppRoutes.GuestRoute | src/App.tsx:56-69 | Shows loading while loading, the page when signed out, and otherwise redirects home. |
| AppRoutes.ExactlyOneGuardOpens | src/App.tsx:35-69 | Once loaded, exactly one of the two guards shows its page. |
| AppRoutes.LoadingShowsNeitherPage | src/App.tsx:35-69 | While loading, neither guard shows its page. |
| AppRoutes.Resolve | src/App.tsx:71-101 | /login is guest-guarded, / is private, and every other path falls back to /. |
| AppRoutes.RedirectsSettle | src/App.tsx:35-101 | From any path, following redirects ends within two hops on / when signed in and on /login otherwise. |
| LoginPage.RedirectTarget | src/pages/Login/index.tsx:27 | Returns to the remembered path, or to / when there is none. |
| LoginPage.LoginReturnsToGuardedPage | src/pages/Login/index.tsx:27 | After a guard's redirect, login returns to the guarded path. |
| LoginPage.AlertIffError | src/pages/Login/index.tsx:72-79 | The alert shows if and only if there is an error. |
| LoginPage.HandleLogin | src/pages/Login/index.tsx:30-47 | Success navigates, replacing history, to the target. Failure stays on the page. |
| Layout.DisplayName | src/components/Layout/index.tsx:101-112 | First and last name, or the first name alone, or the username; "User" when signed out. |
| Layout.LastNameAloneIsIgnored | src/components/Layout/index.tsx:101-112 | A last name without a first name falls back to the username. |
| Layout.DisplayNameStartsWithFirstName | src/components/Layout/index.tsx:101-112 | With a first name, the display name begins with it. |
| Layout.FirstLetter | src/components/Layout/index.tsx:190-192 | Empty text gives empty text. Otherwise the result is the upper-cased first character. |
| Layout.AvatarLetter | src/components/Layout/index.tsx:190-192 | The avatar uses the first name's initial, or else the username's. |
| Layout.AvatarMatchesDisplayName | src/components/Layout/index.tsx:101-192 | The avatar letter is the upper-cased first letter of the display name. |
| Layout.RoleText | src/components/Layout/index.tsx:200 | The role is shown when present and non-empty. Otherwise the text is "User". |
| Layout.FindLabel | src/components/Layout/index.tsx:163-164 | A found label is a menu entry for the path. |
| Layout.PageTitle | src/components/Layout/index.tsx:163-164 | The title is the menu label for the path, or "Dashboard". |
| Layout.FindLabelFirst | src/components/Layout/index.tsx:163-164 | The label of the first menu entry for the path is used. |
| Layout.MenuTitles | src/components/Layout/index.tsx:54-68 | On each of the nine menu paths, the title is that entry's label. |
| Layout.Sider.constructor | src/components/Layout/index.tsx:44 | The sider starts expanded. |
| Layout.Sider.Toggle | src/components/Layout/index.tsx:50-52 | The toggle flips the collapsed flag. |
| Layout.Sider.OnBreakpoint | src/components/Layout/index.tsx:125-129 | A broken breakpoint sets the collapsed flag to true. Otherwise nothing changes. |
| EquipmentForm.Errors | src/pages/Equipment/EquipmentForm.tsx:135-191 | Lists, in field order, a message for each missing name or category and for each missing or negative price or quantity. |
| EquipmentForm.AcceptsIff | src/pages/Equipment/EquipmentForm.tsx:135-191 | The form has no errors if and only if name and category are filled and price and quantity are non-negative. |
| EquipmentForm.DefaultsErrors | src/pages/Equipment/EquipmentForm.tsx:130-191 | The empty form reports exactly three errors: name, category and price. |
| EquipmentForm.EditValues | src/pages/Equipment/EquipmentForm.tsx:65-72 | Editing fills the form from the record, with its category id and its flags. |
| EquipmentForm.EditValuesAccepted | src/pages/Equipment/EquipmentForm.tsx:65-191 | A valid record reloaded for edit passes the rules. |
| EquipmentForm.PriceInputRoundTrip | src/pages/Equipment/EquipmentForm.tsx:108-117 | The price field reads back the amount it displays. |
| EquipmentList.EquipmentListPage.constructor | src/pages/Equipment/index.tsx:42-44 | Starts on page 1 of 10 with an empty filter. |
| EquipmentList.EquipmentListPage.Request | src/pages/Equipment/index.tsx:58-62 | The request is the filter with page and limit overriding it. |
| EquipmentList.EquipmentListPage.HandleSearch | src/pages/Equipment/index.tsx:95-101 | Search replaces the filter and returns to page 1. |
| EquipmentList.EquipmentListPage.HandleReset | src/pages/Equipment/index.tsx:103-107 | Reset clears the filter and returns to page 1. |
| EquipmentList.EquipmentListPage.OnPageChange | src/pages/Equipment/index.tsx:264-267 | Changing page sets the page and the page size. |
| EquipmentList.RequestPagingWins | src/pages/Equipment/index.tsx:58-62 | The query always starts with the page's own page and limit, whatever the filter says. |
| EquipmentList.ResetRequest | src/pages/Equipment/index.tsx:103-107 | After reset only the paging is sent. |
| EquipmentList.CategoryText | src/pages/Equipment/index.tsx:122 | The category name is shown when present and non-empty. Otherwise the text is "-". |
| CatalogLists.SearchListPage.constructor | src/pages/EquipmentBundle/index.tsx:37-39 | Starts on page 1 of 10 with no search term. |
| CatalogLists.SearchListPage.Request | src/pages/EquipmentBundle/index.tsx:52-56 | The request carries page, limit and search term. |
| CatalogLists.SearchListPage.HandleSearch | src/pages/EquipmentBundle/index.tsx:79-83 | Search sets the term, or "" when it is empty, and returns to page 1. |
| CatalogLists.SearchListPage.HandleReset | src/pages/EquipmentBundle/index.tsx:85-89 | Reset clears the term and returns to page 1. |
| CatalogLists.SearchListPage.OnPageChange | src/pages/EquipmentBundle/index.tsx:232-235 | Changing page sets the page and the page size. |
| CatalogLists.EmptySearchNotSent | src/pages/EquipmentCategory/index.tsx:52-56 | An empty search term is not sent. |
| CatalogLists.SearchSent | src/pages/EquipmentCategory/index.tsx:52-56 | With a non-empty term, the query is exactly page, limit and search, in that order. |
| CatalogLists.DescriptionText | src/pages/EquipmentCategory/index.tsx:107 | The description is shown when present and non-empty. Otherwise the text is "-". |
| CatalogLists.DiscountText | src/pages/EquipmentBundle/index.tsx:124 | A discount shows as its number followed by "%". |
| CatalogLists.ActiveTag | src/pages/EquipmentBundle/index.tsx:136-141 | Active gives a green "Active" tag, and inactive a red "Inactive" tag. |

## Left out

- Rendering: the JSX, the antd widgets and styling, the Dashboard's mock figures, and the display-only pages. The display-only pages are equipment detail, category detail and form, loading spinner, and logo.
- Network and storage: HTTP itself, the JSON form of `localStorage` entries, `window.location`, and blob downloads. Replies and stored values are parameters.
- Asynchrony: React's effect scheduling. `CalculateTotals` and `CalculateBundlePrice` are explicit methods rather than being run after every change.
- The current date and `Math.random()` are parameters, and moment's date formatting is passed in as text. The 30-day validity date is not modelled.
- Number formatting: `toLocaleString`, `toFixed` and floating-point rounding. Amounts are exact integers or reals.
- JavaScript `null`, and non-integer numbers in filter objects.
- URL percent-encoding of query values.
- Router path normalisation.
- Case mapping beyond ASCII letters.
- The submitting and loading flags of the pages, other than the session's `isLoading`.
- QuotationFormHook: item groups. The view reads groups, but the hook never defines operations that create or fill them, so the view's filters are modelled over a given group list.
- The delete handlers of the list and detail pages, the equipment form's submit handler, and the list pages' fetch error notices. They pass a reply through to a notice and a reload. The two editors' fetch notices are modelled.
- The type declarations under `src/models`, which no modelled code reads.
- EquipmentService.GetAllEquipmentQuery: values are sent as their text in the model, without the browser's encoding.

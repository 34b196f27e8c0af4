/**
 * The quotation detail page: the status tag, the status buttons (the workflow), the
 * export file names and the displayed tax and discount amounts. The list page renders
 * the same status tag.
 */
module QuotationDetail {
  import opened Wrappers
  import opened Js
  import opened QuotationService
  import Hook = QuotationFormHook

  // ---- status tag ----

  datatype Tag = Tag(color: string, text: string)

  /**
   * `renderStatusTag` on the status text the server sent; an unknown text is shown as is.
   * The list page's Status column has the same switch, so it is modelled by this function too.
   */
  function StatusTag(raw: string): (t: Tag)
    ensures ParseStatus(raw).None? ==> t == Tag("default", raw)
  {
    match ParseStatus(raw)
    case None => Tag("default", raw)
    case Some(s) =>
      match s
      case Draft => Tag("blue", "Draft")
      case Sent => Tag("orange", "Sent")
      case Approved => Tag("green", "Approved")
      case Rejected => Tag("red", "Rejected")
      case ConvertedToDo => Tag("purple", "To D.O.")
      case ConvertedToInvoice => Tag("lime", "To Invoice")
  }

  /** The six statuses get six distinct colors and labels, none of them `default`. */
  lemma StatusTagsDistinct(s: QuotationStatus, t: QuotationStatus)
    ensures StatusTag(s.Value()).color != "default"
    ensures s != t ==> StatusTag(s.Value()).color != StatusTag(t.Value()).color
    ensures s != t ==> StatusTag(s.Value()).text != StatusTag(t.Value()).text
    ensures StatusTag(ConvertedToDo.Value()) == Tag("purple", "To D.O.")
    ensures StatusTag(ConvertedToInvoice.Value()) == Tag("lime", "To Invoice")
  {
    StatusEnumeration();
  }

  // ---- the workflow ----

  /** The statuses `renderStatusUpdateButtons` offers for a quotation in `status`. */
  function Offered(status: Option<QuotationStatus>): (r: seq<QuotationStatus>)
    ensures status == Some(Draft) ==> r == [Sent]
    ensures status == Some(Sent) ==> r == [Approved, Rejected]
    ensures status == Some(Approved) ==> r == [ConvertedToDo, ConvertedToInvoice]
    ensures status.None? || status.value in {Rejected, ConvertedToDo, ConvertedToInvoice} ==> r == []
  {
    match status
    case Some(Draft) => [Sent]
    case Some(Sent) => [Approved, Rejected]
    case Some(Approved) => [ConvertedToDo, ConvertedToInvoice]
    case _ => []
  }

  /** The buttons of the page: none while no quotation is loaded. */
  function StatusButtons(quotation: Option<Quotation>): (r: seq<QuotationStatus>)
    ensures quotation.None? ==> r == []
  {
    if quotation.None? then [] else Offered(quotation.value.status)
  }

  /** One click on an offered button. */
  predicate Step(from: QuotationStatus, to: QuotationStatus) {
    to in Offered(Some(from))
  }

  /** How far along the workflow a status is. */
  function Rank(s: QuotationStatus): nat {
    match s
    case Draft => 0
    case Sent => 1
    case Approved | Rejected => 2
    case ConvertedToDo | ConvertedToInvoice => 3
  }

  /** Every offered step moves strictly forward. */
  lemma StepAdvances(from: QuotationStatus, to: QuotationStatus)
    requires Step(from, to)
    ensures Rank(to) > Rank(from)
  {
  }

  /** Rejected is reached only from sent, and draft from nothing. */
  lemma StepSources(from: QuotationStatus, to: QuotationStatus)
    requires Step(from, to)
    ensures to == Rejected ==> from == Sent
    ensures to != Draft
    ensures to in {ConvertedToDo, ConvertedToInvoice} ==> from == Approved
  {
  }

  /** A sequence of statuses each reached from the previous one by a click. */
  predicate IsPath(p: seq<QuotationStatus>) {
    forall i :: 0 <= i < |p| - 1 ==> Step(p[i], p[i + 1])
  }

  /** Along a path the rank rises by at least one per click. */
  lemma {:induction false} PathRanks(p: seq<QuotationStatus>, i: nat, j: nat)
    requires IsPath(p) && i <= j < |p|
    ensures Rank(p[j]) >= Rank(p[i]) + (j - i)
    decreases j - i
  {
    if i < j {
      PathRanks(p, i, j - 1);
      StepAdvances(p[j - 1], p[j]);
    }
  }

  /**
   * The workflow is acyclic: no path returns to a status it left, none returns to draft,
   * and no path has more than four statuses.
   */
  lemma PathsAreAcyclic(p: seq<QuotationStatus>)
    requires IsPath(p)
    ensures forall i, j :: 0 <= i < j < |p| ==> p[i] != p[j]
    ensures forall i :: 0 < i < |p| ==> p[i] != Draft
    ensures |p| <= 4
  {
    forall i, j | 0 <= i < j < |p| ensures p[i] != p[j] {
      PathRanks(p, i, j);
    }
    forall i | 0 < i < |p| ensures p[i] != Draft {
      PathRanks(p, 0, i);
    }
    if |p| > 4 {
      PathRanks(p, 0, 4);
    }
  }

  /** The statuses with no button: rejected and the two conversions. */
  lemma TerminalStatuses(s: QuotationStatus)
    ensures Offered(Some(s)) == [] <==> s in {Rejected, ConvertedToDo, ConvertedToInvoice}
  {
  }

  /** The message after a status update. */
  function StatusUpdatedMessage(s: QuotationStatus): (m: string)
    ensures |m| == 28 + |s.Value()| && m[28..] == s.Value()
  {
    "Quotation status updated to " + s.Value()
  }

  // ---- exports ----

  /** The download name: `quotation-`, the `:id` route text, and `.pdf` or `.xlsx`. */
  function ExportFileName(id: string, f: ExportFormat): (name: string)
    ensures |name| > 10 && name[..10] == "quotation-"
    ensures var ext := if f == Pdf then ".pdf" else ".xlsx";
      |name| == 10 + |id| + |ext| && name[10..10 + |id|] == id && name[10 + |id|..] == ext
  {
    "quotation-" + id + (if f == Pdf then ".pdf" else ".xlsx")
  }

  /** File names tell the quotation and the format apart. */
  lemma ExportFileNamesDistinct(id1: string, f1: ExportFormat, id2: string, f2: ExportFormat)
    ensures ExportFileName(id1, f1) == ExportFileName(id2, f2) <==> id1 == id2 && f1 == f2
  {
    var n1, n2 := ExportFileName(id1, f1), ExportFileName(id2, f2);
    if n1 == n2 {
      assert n1[|n1| - 1] == (if f1 == Pdf then 'f' else 'x');
      assert n2[|n2| - 1] == (if f2 == Pdf then 'f' else 'x');
      var e := if f1 == Pdf then ".pdf" else ".xlsx";
      assert id1 == n1[10..|n1| - |e|];
      assert id2 == n2[10..|n2| - |e|];
    }
  }

  // ---- amounts ----

  /** A rate's amount on the summary: subtotal times rate over 100, a falsy operand counting as 0. */
  function DisplayedAmount(subtotal: Option<int>, rate: Option<real>): (a: real)
    ensures !IntTruthy(subtotal) || !RealTruthy(rate) ==> a == 0.0
  {
    OrInt(subtotal, 0) as real * (OrReal(rate, 0.0) / 100.0)
  }

  /**
   * For a quotation saved with subtotal `s`, rates `t` and `d` and the total the form
   * computed, the displayed subtotal, tax and discount add up to the displayed total.
   */
  lemma DisplayedAmountsAddUp(q: Quotation, s: int, t: real, d: real)
    requires q.subtotal == Some(s) && q.tax == Some(t) && q.discount == Some(d)
    requires q.total == Some(Hook.GrandTotal(s, t, d))
    ensures q.total.value == s as real + DisplayedAmount(q.subtotal, q.tax) - DisplayedAmount(q.subtotal, q.discount)
  {
  }
}

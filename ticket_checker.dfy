/**
 * The sold-out classifier of `TicketChecker` (ticket_checker.py). The browser fetch
 * (`get_page_elements`) is not modelled: its outcome is an input, `None` when the page
 * could not be read or no element carried the target class, otherwise the elements in
 * page order.
 */
module TicketChecker {
  import opened Wrappers
  import opened Text

  /** The phrase ("sold out") a sold-out performance shows on the page. */
  const SoldOutText: string := "完売しました"

  /** Result message when the page could not be fetched ("failed to fetch the page"). */
  const FetchFailedMessage: string := "ページの取得に失敗しました"

  /** Opening of every success message ("sold-out status: "). */
  const StatusLabel: string := "完売状態: "

  /** Word in the count note ("confirmed in N elements") appended when sold out. */
  const CountNote: string := "個の要素で確認"

  /** One element of the page: tag name, stripped inner text, link target of an `a`, inner markup. */
  datatype Element = Element(tagName: string, text: string, href: Option<string>, html: string)

  /** What `check_sold_out` returns. */
  datatype SoldOutResult = SoldOutResult(isSoldOut: bool, soldOutElements: seq<Element>, allTexts: seq<string>)

  /** The `details` record of a successful check. */
  datatype Details = Details(soldOutElements: seq<Element>, allTexts: seq<string>, totalElements: nat)

  /** What `check_ticket_status` returns; `details` is `None` where the source returns an empty dict. */
  datatype StatusResult = StatusResult(
    success: bool,
    isSoldOut: bool,
    soldOutCount: nat,
    message: string,
    details: Option<Details>)

  /** Kind of an exception: `ValueError` or any other `Exception`. */
  datatype ErrorKind = ValueErr | OtherErr

  /**
   * Outcome of one call of `check_ticket_status` as seen by its callers: it returned, having
   * fetched `fetched`, or an exception escaped it (launching the browser is outside the
   * fetch's own try block).
   */
  datatype Probe = Completed(fetched: Option<seq<Element>>) | Crashed(kind: ErrorKind)

  /** The element's text contains the sold-out phrase. */
  ghost predicate Marked(e: Element) {
    Occurs(SoldOutText, e.text)
  }

  /** Some element of `es` shows the sold-out phrase. */
  ghost predicate AnyMarked(es: seq<Element>) {
    exists i | 0 <= i < |es| :: Marked(es[i])
  }

  /** The texts of `es`, in page order. */
  function AllTexts(es: seq<Element>): seq<string> {
    seq(|es|, i requires 0 <= i < |es| => es[i].text)
  }

  /** The elements of `es` whose text contains the sold-out phrase, in page order. */
  function SoldOutElements(es: seq<Element>): seq<Element> {
    if es == [] then []
    else
      var last := es[|es| - 1];
      SoldOutElements(es[..|es| - 1]) + (if Contains(last.text, SoldOutText) then [last] else [])
  }

  /** One matching element is enough: the filter is non-empty exactly when some text has the phrase. */
  lemma {:induction false} SoldOutElementsNonEmpty(es: seq<Element>)
    ensures |SoldOutElements(es)| > 0 <==> AnyMarked(es)
  {
    if es != [] {
      var n := |es| - 1;
      var init := es[..n];
      SoldOutElementsNonEmpty(init);
      if AnyMarked(init) {
        var i :| 0 <= i < |init| && Marked(init[i]);
        assert es[i] == init[i];
      }
      if AnyMarked(es) && !Marked(es[n]) {
        var i :| 0 <= i < |es| && Marked(es[i]);
        assert i < n && init[i] == es[i];
      }
    }
  }

  /**
   * The filter is exactly the order-preserving subsequence of the marked elements: it picks
   * the elements at strictly increasing positions `idx`, and a position is picked iff its
   * element is marked.
   */
  lemma {:induction false} SoldOutElementsIndices(es: seq<Element>) returns (idx: seq<nat>)
    ensures |idx| == |SoldOutElements(es)|
    ensures forall k | 0 <= k < |idx| :: idx[k] < |es| && SoldOutElements(es)[k] == es[idx[k]]
    ensures forall k, l | 0 <= k < l < |idx| :: idx[k] < idx[l]
    ensures forall i | 0 <= i < |es| :: Marked(es[i]) <==> i in idx
  {
    if es == [] {
      idx := [];
    } else {
      var n := |es| - 1;
      var init := es[..n];
      var sub := SoldOutElementsIndices(init);
      assert forall i | 0 <= i < n :: init[i] == es[i];
      if Contains(es[n].text, SoldOutText) {
        idx := sub + [n];
      } else {
        idx := sub;
      }
      forall i | 0 <= i < |es|
        ensures Marked(es[i]) <==> i in idx
      {
        if i < n {
          assert Marked(init[i]) <==> i in sub;
        }
      }
    }
  }

  /** `check_sold_out` as a value: the reference the imperative version is proved against. */
  function Classify(es: seq<Element>): (r: SoldOutResult)
    ensures r.isSoldOut <==> AnyMarked(es)
    ensures r.isSoldOut <==> |r.soldOutElements| > 0
    ensures r.soldOutElements == SoldOutElements(es) && r.allTexts == AllTexts(es)
    ensures |r.allTexts| == |es| && forall i | 0 <= i < |es| :: r.allTexts[i] == es[i].text
    ensures es == [] ==> r == SoldOutResult(false, [], [])
  {
    if es == [] then SoldOutResult(false, [], [])
    else
      var sold := SoldOutElements(es);
      SoldOutElementsNonEmpty(es);
      SoldOutResult(|sold| > 0, sold, AllTexts(es))
  }

  /** `TicketChecker.check_sold_out`: one pass over the elements, collecting texts and matches. */
  method CheckSoldOut(elements: seq<Element>) returns (r: SoldOutResult)
    ensures r == Classify(elements)
  {
    if elements == [] {
      return SoldOutResult(false, [], []);
    }
    var soldOut: seq<Element> := [];
    var texts: seq<string> := [];
    for i := 0 to |elements|
      invariant soldOut == SoldOutElements(elements[..i])
      invariant texts == AllTexts(elements[..i])
    {
      var element := elements[i];
      texts := texts + [element.text];
      if Contains(element.text, SoldOutText) {
        soldOut := soldOut + [element];
      }
      assert elements[..i + 1][..i] == elements[..i];
    }
    assert elements[..|elements|] == elements;
    r := SoldOutResult(|soldOut| > 0, soldOut, texts);
  }

  /**
   * `TicketChecker.check_ticket_status` with the fetch done: a failed fetch gives an
   * unsuccessful result with nothing counted; otherwise the classification, its count,
   * the element total and a status message that carries the count note only when sold out.
   */
  function CheckTicketStatus(fetched: Option<seq<Element>>): (r: StatusResult)
    ensures r.success <==> fetched.Some?
    ensures !r.success ==> !r.isSoldOut && r.soldOutCount == 0 && r.details == None && r.message == FetchFailedMessage
    ensures r.success ==>
      var es := fetched.value;
      && (r.isSoldOut <==> AnyMarked(es))
      && r.soldOutCount == |SoldOutElements(es)|
      && r.details == Some(Details(SoldOutElements(es), AllTexts(es), |es|))
    ensures r.isSoldOut <==> r.soldOutCount > 0
    ensures r.isSoldOut <==> Occurs(CountNote, r.message)
    ensures r.isSoldOut ==> Occurs(" (" + NatToString(r.soldOutCount) + CountNote + ")", r.message)
  {
    match fetched
    case None =>
      AbsentLead(CountNote, FetchFailedMessage);
      StatusResult(false, false, 0, FetchFailedMessage, None)
    case Some(elements) =>
      var sold := Classify(elements);
      var count := |sold.soldOutElements|;
      var message :=
        if sold.isSoldOut then StatusLabel + "はい" + " (" + NatToString(count) + CountNote + ")"
        else StatusLabel + "いいえ";
      NoteOnlyWhenSoldOut(sold.isSoldOut, count, message);
      StatusResult(true, sold.isSoldOut, count, message, Some(Details(sold.soldOutElements, sold.allTexts, |elements|)))
  }

  /** The two success messages differ in exactly the note " (N個の要素で確認)", which carries the count N. */
  lemma NoteOnlyWhenSoldOut(soldOut: bool, count: nat, message: string)
    requires message == if soldOut then StatusLabel + "はい" + " (" + NatToString(count) + CountNote + ")"
                        else StatusLabel + "いいえ"
    ensures soldOut <==> Occurs(CountNote, message)
    ensures soldOut ==> Occurs(" (" + NatToString(count) + CountNote + ")", message)
  {
    if soldOut {
      var head := StatusLabel + "はい";
      var note := " (" + NatToString(count) + CountNote + ")";
      assert message == head + note + "";
      OccursBetween(head, note, "");
      assert message == (head + " (" + NatToString(count)) + CountNote + ")";
      OccursBetween(head + " (" + NatToString(count), CountNote, ")");
    } else {
      AbsentLead(CountNote, message);
    }
  }

  /** A page with one sold-out and one available performance is sold out, with one match. */
  lemma MixedPageIsSoldOut(a: Element, b: Element)
    requires a.text == "公演A: 完売しました" && b.text == "公演B: 残り3枚"
    ensures var r := CheckTicketStatus(Some([a, b]));
            r.success && r.isSoldOut && r.soldOutCount == 1 && r.details.value.soldOutElements == [a]
  {
    var es := [a, b];
    assert a.text == "公演A: " + SoldOutText + "";
    OccursBetween("公演A: ", SoldOutText, "");
    AbsentLead(SoldOutText, b.text);
    assert es[..1] == [a] && [a][..0] == [];
    assert SoldOutElements([a]) == [a];
  }
}

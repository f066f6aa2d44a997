/** The bar for a few concrete page counts, button by button. Each button is summarised
    by what it shows and whether it is the current one. */
module PaginationExamples {
  import opened Optionals
  import opened Uuids
  import Strconv
  import opened Pagination
  import opened PaginationProperties

  /** A button as a reader sees it: its caption and whether it is highlighted as current. */
  function Summary(bs: seq<Button>): (r: seq<(Label, bool)>)
    ensures |r| == |bs|
    ensures forall i :: 0 <= i < |bs| ==> r[i] == (bs[i].caption, bs[i].current)
  {
    seq(|bs|, i requires 0 <= i < |bs| => (bs[i].caption, bs[i].current))
  }

  function Shown(q: QueryData, current: int, total: int): seq<(Label, bool)> {
    match PaginationComponent(q, PaginateResponse(current, total))
    case None => []
    case Some(bs) => Summary(bs)
  }

  /** 20 pages, page 10: First, …, 8, 9, 10 (current), 11, 12, …, Last. */
  lemma MiddleOfTwenty(q: QueryData)
    ensures Shown(q, 10, 20) == [
      (FirstLabel, false), (DotsLabel, false),
      (NumberLabel(8), false), (NumberLabel(9), false), (NumberLabel(10), true),
      (NumberLabel(11), false), (NumberLabel(12), false),
      (DotsLabel, false), (LastLabel, false)]
  {
    var s := Summary(Buttons(10, 20, DefaultWindowSize, q));
    assert |s| == 9 && s[0] == (FirstLabel, false) && s[1] == (DotsLabel, false) && s[7] == (DotsLabel, false) by {
      Layout(10, 20, DefaultWindowSize, q);
    }
    assert s[2] == (NumberLabel(8), false) && s[3] == (NumberLabel(9), false) && s[4] == (NumberLabel(10), true) by {
      Layout(10, 20, DefaultWindowSize, q);
    }
    assert s[5] == (NumberLabel(11), false) && s[6] == (NumberLabel(12), false) && s[8] == (LastLabel, false) by {
      Layout(10, 20, DefaultWindowSize, q);
    }
  }

  /** 20 pages, page 1: First (current), 2, 3, …, Last. */
  lemma StartOfTwenty(q: QueryData)
    ensures Shown(q, 1, 20) == [
      (FirstLabel, true), (NumberLabel(2), false), (NumberLabel(3), false),
      (DotsLabel, false), (LastLabel, false)]
  {
    ButtonsParts(1, 20, DefaultWindowSize, q);
    assert WindowButtons(1, 20, DefaultWindowSize, q) == [PageButton(2, 1, 20, q), PageButton(3, 1, 20, q)];
  }

  /** 20 pages, page 20: First, …, 18, 19, Last (current). */
  lemma EndOfTwenty(q: QueryData)
    ensures Shown(q, 20, 20) == [
      (FirstLabel, false), (DotsLabel, false), (NumberLabel(18), false), (NumberLabel(19), false),
      (LastLabel, true)]
  {
    ButtonsParts(20, 20, DefaultWindowSize, q);
    assert WindowButtons(20, 20, DefaultWindowSize, q) == [PageButton(18, 20, 20, q), PageButton(19, 20, 20, q)];
  }

  /** 5 pages, page 3: First, 2, 3 (current), 4, Last, with no ellipsis. */
  lemma MiddleOfFive(q: QueryData)
    ensures Shown(q, 3, 5) == [
      (FirstLabel, false), (NumberLabel(2), false), (NumberLabel(3), true),
      (NumberLabel(4), false), (LastLabel, false)]
  {
    ButtonsParts(3, 5, DefaultWindowSize, q);
    assert WindowButtons(3, 5, DefaultWindowSize, q) == [
      PageButton(2, 3, 5, q), PageButton(3, 3, 5, q), PageButton(4, 3, 5, q)];
  }

  /** 3 pages, page 1: First, 2, Last with page 1 highlighted and no ellipsis. */
  lemma FirstOfThree(q: QueryData)
    ensures Shown(q, 1, 3) == [(FirstLabel, true), (NumberLabel(2), false), (LastLabel, false)]
  {
    var s := Summary(Buttons(1, 3, DefaultWindowSize, q));
    Layout(1, 3, DefaultWindowSize, q);
    assert |s| == 3;
    assert s[0] == (FirstLabel, true) && s[1] == (NumberLabel(2), false) && s[2] == (LastLabel, false);
  }

  /** 3 pages, page 2: First, 2, Last with page 2 highlighted and no ellipsis. */
  lemma MiddleOfThree(q: QueryData)
    ensures Shown(q, 2, 3) == [(FirstLabel, false), (NumberLabel(2), true), (LastLabel, false)]
  {
    var s := Summary(Buttons(2, 3, DefaultWindowSize, q));
    Layout(2, 3, DefaultWindowSize, q);
    assert |s| == 3;
    assert s[0] == (FirstLabel, false) && s[1] == (NumberLabel(2), true) && s[2] == (LastLabel, false);
  }

  /** 3 pages, page 3: First, 2, Last with page 3 highlighted and no ellipsis. */
  lemma LastOfThree(q: QueryData)
    ensures Shown(q, 3, 3) == [(FirstLabel, false), (NumberLabel(2), false), (LastLabel, true)]
  {
    var s := Summary(Buttons(3, 3, DefaultWindowSize, q));
    Layout(3, 3, DefaultWindowSize, q);
    assert |s| == 3;
    assert s[0] == (FirstLabel, false) && s[1] == (NumberLabel(2), false) && s[2] == (LastLabel, true);
  }

  /** Without filters a page link carries the page number alone. */
  lemma UnfilteredLink(p: int, q: QueryData)
    requires q.database == NilUuid && q.destination == NilUuid && q.backup == NilUuid
    ensures PageLink(p, q) == Link(ListPath, [("page", Strconv.Itoa(p))])
  {
    assert FilterPairs(q) == [];
  }

  /** 3 pages without filters: the buttons target pages 1, 2 and 3 and are named "Go to first
      page", "Go to page 2" and "Go to last page, page 3"; each one except the current one
      fetches the list at its own page, and the current one fetches nothing. */
  lemma ThreePagesNamesAndLinks(c: int, q: QueryData)
    requires 1 <= c <= 3
    requires q.database == NilUuid && q.destination == NilUuid && q.backup == NilUuid
    ensures var b := Buttons(c, 3, DefaultWindowSize, q);
      && |b| == 3
      && b[0].ariaLabel == "Go to first page"
      && b[1].ariaLabel == "Go to page 2"
      && b[2].ariaLabel == "Go to last page, page 3"
      && b[0].hxGet == (if c == 1 then None else Some(Link(ListPath, [("page", "1")])))
      && b[1].hxGet == (if c == 2 then None else Some(Link(ListPath, [("page", "2")])))
      && b[2].hxGet == (if c == 3 then None else Some(Link(ListPath, [("page", "3")])))
  {
    ThreePagesShape(c, q);
    FirstOfThreeButton(c, q);
    SecondOfThreeButton(c, q);
    LastOfThreeButton(c, q);
  }

  lemma ThreeInARow<T>(x: T, y: T, z: T)
    ensures [x] + [] + [y] + [] + [z] == [x, y, z]
  {
  }

  /** With 3 pages and a current page among them, the bar is First, page 2, and Last. */
  lemma ThreePagesShape(c: int, q: QueryData)
    requires 1 <= c <= 3
    ensures Buttons(c, 3, DefaultWindowSize, q) == [FirstButton(c, 3, q), PageButton(2, c, 3, q), LastButton(c, 3, q)]
  {
    assert !LeftEllipsis(c, DefaultWindowSize) && !RightEllipsis(c, 3, DefaultWindowSize);
    assert WindowButtons(c, 3, DefaultWindowSize, q) == [PageButton(2, c, 3, q)] by {
      assert WindowFirst(c, DefaultWindowSize) == 2 && WindowLast(c, 3, DefaultWindowSize) == 2;
      PageRunSnoc(2, 2, c, 3, q);
    }
    ButtonsParts(c, 3, DefaultWindowSize, q);
    ThreeInARow(FirstButton(c, 3, q), PageButton(2, c, 3, q), LastButton(c, 3, q));
  }

  lemma FirstOfThreeButton(c: int, q: QueryData)
    requires q.database == NilUuid && q.destination == NilUuid && q.backup == NilUuid
    ensures FirstButton(c, 3, q).ariaLabel == "Go to first page"
    ensures FirstButton(c, 3, q).hxGet == (if c == 1 then None else Some(Link(ListPath, [("page", "1")])))
  {
    UnfilteredLink(1, q);
    Strconv.ItoaDigit(1);
  }

  lemma SecondOfThreeButton(c: int, q: QueryData)
    requires q.database == NilUuid && q.destination == NilUuid && q.backup == NilUuid
    ensures PageButton(2, c, 3, q).ariaLabel == "Go to page 2"
    ensures PageButton(2, c, 3, q).hxGet == (if c == 2 then None else Some(Link(ListPath, [("page", "2")])))
  {
    UnfilteredLink(2, q);
    Strconv.ItoaDigit(2);
    assert "Go to page " + "2" == "Go to page 2";
  }

  lemma LastOfThreeButton(c: int, q: QueryData)
    requires q.database == NilUuid && q.destination == NilUuid && q.backup == NilUuid
    ensures LastButton(c, 3, q).ariaLabel == "Go to last page, page 3"
    ensures LastButton(c, 3, q).hxGet == (if c == 3 then None else Some(Link(ListPath, [("page", "3")])))
  {
    UnfilteredLink(3, q);
    Strconv.ItoaDigit(3);
    assert "Go to last page, page " + "3" == "Go to last page, page 3";
  }

  /** 7 pages, page 1: First (current), 2, 3, …, Last; the ellipsis is the inert one. */
  lemma StartOfSeven(q: QueryData)
    ensures Shown(q, 1, 7) == [
      (FirstLabel, true), (NumberLabel(2), false), (NumberLabel(3), false),
      (DotsLabel, false), (LastLabel, false)]
    ensures var b := Buttons(1, 7, DefaultWindowSize, q);
      b[3].ariaLabel == "Skipped pages" && b[3].disabled && b[3].hxGet == None
  {
    ButtonsParts(1, 7, DefaultWindowSize, q);
    assert WindowButtons(1, 7, DefaultWindowSize, q) == [PageButton(2, 1, 7, q), PageButton(3, 1, 7, q)];
  }
}

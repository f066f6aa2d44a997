/** What the pagination bar promises: its exact layout, which pages the window holds,
    where the ellipses go, which button is current, and what each button links to. */
module PaginationProperties {
  import opened Optionals
  import opened Uuids
  import Strconv
  import opened Pagination

  function WindowSize(cur: int, total: int, w: nat): nat {
    SpanLength(WindowFirst(cur, w), WindowLast(cur, total, w))
  }

  function Indicator(b: bool): nat { if b then 1 else 0 }

  /** Number of ellipsis buttons in a bar. */
  function EllipsisCount(bs: seq<Button>): nat {
    if bs == [] then 0 else Indicator(bs[0].placeholder) + EllipsisCount(bs[1..])
  }

  lemma {:induction false} EllipsisCountAppend(a: seq<Button>, b: seq<Button>)
    ensures EllipsisCount(a + b) == EllipsisCount(a) + EllipsisCount(b)
    decreases |a|
  {
    if a != [] {
      assert (a + b)[0] == a[0];
      assert (a + b)[1..] == a[1..] + b;
      EllipsisCountAppend(a[1..], b);
    } else {
      assert a + b == b;
    }
  }

  lemma {:induction false} EllipsisCountNone(bs: seq<Button>)
    requires forall i :: 0 <= i < |bs| ==> !bs[i].placeholder
    ensures EllipsisCount(bs) == 0
    decreases |bs|
  {
    if bs != [] {
      EllipsisCountNone(bs[1..]);
    }
  }

  /** Positions in a sequence made of one element, three runs and one element. */
  lemma FramedIndex<T>(x: T, a: seq<T>, m: seq<T>, r: seq<T>, y: T)
    ensures var s := [x] + a + m + r + [y];
      && |s| == 2 + |a| + |m| + |r|
      && s[0] == x && s[|s| - 1] == y
      && (forall i :: 1 <= i < 1 + |a| ==> s[i] == a[i - 1])
      && (forall i :: 1 + |a| <= i < 1 + |a| + |m| ==> s[i] == m[i - 1 - |a|])
      && (forall i :: 1 + |a| + |m| <= i < 1 + |a| + |m| + |r| ==> s[i] == r[i - 1 - |a| - |m|])
  {
  }

  /** The window part of the bar, as its own pieces. */
  lemma {:induction false} LayoutParts(cur: int, total: int, w: nat, q: QueryData)
    requires total >= 2
    ensures var b := Buttons(cur, total, w, q);
      var left := if LeftEllipsis(cur, w) then [EllipsisButton(total, q)] else [];
      var right := if RightEllipsis(cur, total, w) then [EllipsisButton(total, q)] else [];
      var ws := WindowButtons(cur, total, w, q);
      && |left| == Indicator(LeftEllipsis(cur, w))
      && |right| == Indicator(RightEllipsis(cur, total, w))
      && |ws| == WindowSize(cur, total, w)
      && b == [FirstButton(cur, total, q)] + left + ws + right + [LastButton(cur, total, q)]
  {
    ButtonsParts(cur, total, w, q);
  }

  /** The bar's length: First, the ellipses shown, the window and Last. */
  lemma LayoutLength(cur: int, total: int, w: nat, q: QueryData)
    requires total >= 2
    ensures |Buttons(cur, total, w, q)|
      == 2 + Indicator(LeftEllipsis(cur, w)) + WindowSize(cur, total, w) + Indicator(RightEllipsis(cur, total, w))
  {
    LayoutParts(cur, total, w, q);
  }

  /** A position inside the middle run of a framed sequence. */
  lemma FramedAt<T>(s: seq<T>, x: T, a: seq<T>, m: seq<T>, r: seq<T>, y: T, i: int)
    requires s == [x] + a + m + r + [y]
    requires 1 + |a| <= i < 1 + |a| + |m|
    ensures s[i] == m[i - 1 - |a|]
  {
    FramedIndex(x, a, m, r, y);
  }

  /** One window position of the bar. */
  lemma LayoutWindowAt(cur: int, total: int, w: nat, q: QueryData, i: int)
    requires total >= 2
    requires 1 + Indicator(LeftEllipsis(cur, w)) <= i < 1 + Indicator(LeftEllipsis(cur, w)) + WindowSize(cur, total, w)
    ensures Buttons(cur, total, w, q)[i]
      == PageButton(WindowFirst(cur, w) + i - 1 - Indicator(LeftEllipsis(cur, w)), cur, total, q)
  {
    var left := if LeftEllipsis(cur, w) then [EllipsisButton(total, q)] else [];
    var ws := WindowButtons(cur, total, w, q);
    var right := if RightEllipsis(cur, total, w) then [EllipsisButton(total, q)] else [];
    var b := Buttons(cur, total, w, q);
    var k := i - 1 - Indicator(LeftEllipsis(cur, w));
    LayoutLength(cur, total, w, q);
    assert b[i] == ws[k] by {
      LayoutParts(cur, total, w, q);
      FramedAt(b, FirstButton(cur, total, q), left, ws, right, LastButton(cur, total, q), i);
    }
    assert ws[k] == PageButton(WindowFirst(cur, w) + k, cur, total, q);
  }

  lemma LayoutWindow(cur: int, total: int, w: nat, q: QueryData)
    requires total >= 2
    ensures var b := Buttons(cur, total, w, q);
      var l := Indicator(LeftEllipsis(cur, w));
      forall i :: 1 + l <= i < 1 + l + WindowSize(cur, total, w) ==>
        b[i] == PageButton(WindowFirst(cur, w) + i - 1 - l, cur, total, q)
  {
    LayoutLength(cur, total, w, q);
    forall i | 1 + Indicator(LeftEllipsis(cur, w)) <= i < 1 + Indicator(LeftEllipsis(cur, w)) + WindowSize(cur, total, w)
      ensures Buttons(cur, total, w, q)[i]
        == PageButton(WindowFirst(cur, w) + i - 1 - Indicator(LeftEllipsis(cur, w)), cur, total, q)
    {
      LayoutWindowAt(cur, total, w, q, i);
    }
  }

  lemma LayoutEllipses(cur: int, total: int, w: nat, q: QueryData)
    requires total >= 2
    ensures var b := Buttons(cur, total, w, q);
      var l := Indicator(LeftEllipsis(cur, w));
      var n := WindowSize(cur, total, w);
      var r := Indicator(RightEllipsis(cur, total, w));
      && |b| == 2 + l + n + r
      && b[0] == FirstButton(cur, total, q)
      && b[|b| - 1] == LastButton(cur, total, q)
      && (forall i :: 1 <= i < 1 + l ==> b[i] == EllipsisButton(total, q))
      && (forall i :: 1 + l + n <= i < 1 + l + n + r ==> b[i] == EllipsisButton(total, q))
  {
    var left := if LeftEllipsis(cur, w) then [EllipsisButton(total, q)] else [];
    var ws := WindowButtons(cur, total, w, q);
    var right := if RightEllipsis(cur, total, w) then [EllipsisButton(total, q)] else [];
    LayoutParts(cur, total, w, q);
    FramedIndex(FirstButton(cur, total, q), left, ws, right, LastButton(cur, total, q));
  }

  /** The bar, position by position: First; `L` ellipses; the window pages from
      `WindowFirst` upwards; `R` ellipses; Last. */
  lemma Layout(cur: int, total: int, w: nat, q: QueryData)
    requires total >= 2
    ensures var b := Buttons(cur, total, w, q);
      var l := Indicator(LeftEllipsis(cur, w));
      var n := WindowSize(cur, total, w);
      var r := Indicator(RightEllipsis(cur, total, w));
      && |b| == 2 + l + n + r
      && b[0] == FirstButton(cur, total, q)
      && b[|b| - 1] == LastButton(cur, total, q)
      && (forall i :: 1 <= i < 1 + l ==> b[i] == EllipsisButton(total, q))
      && (forall i :: 1 + l <= i < 1 + l + n ==> b[i] == PageButton(WindowFirst(cur, w) + i - 1 - l, cur, total, q))
      && (forall i :: 1 + l + n <= i < 1 + l + n + r ==> b[i] == EllipsisButton(total, q))
  {
    LayoutWindow(cur, total, w, q);
    LayoutEllipses(cur, total, w, q);
  }

  /** When both ellipses are shown the window between them is never empty, so they are
      two distinct buttons. */
  lemma BothEllipsesFramePages(cur: int, total: int, w: nat)
    requires LeftEllipsis(cur, w) && RightEllipsis(cur, total, w)
    ensures WindowSize(cur, total, w) == 2 * w + 1
  {
  }

  /** A page is in the window exactly when it lies between `WindowFirst` and `WindowLast`. */
  lemma InWindowBounds(cur: int, total: int, w: nat, p: int)
    ensures InWindow(cur, total, w, p) <==> WindowFirst(cur, w) <= p <= WindowLast(cur, total, w)
  {
  }

  /** Fewer than two pages: no bar and no container. */
  lemma NoBarForOnePage(q: QueryData, p: PaginateResponse)
    requires p.totalPages <= 1
    ensures PaginationComponent(q, p) == None
    ensures Buttons(p.currentPage, p.totalPages, DefaultWindowSize, q) == []
  {
  }

  /** First targets page 1 and Last targets the last page; each appears once, at its end. */
  lemma FirstAndLastAtTheEnds(cur: int, total: int, w: nat, q: QueryData)
    requires total >= 2
    ensures var b := Buttons(cur, total, w, q);
      && b[0].page == 1 && b[|b| - 1].page == total
      && (forall i :: 0 <= i < |b| ==> (LabelText(b[i].caption) == "First" <==> i == 0))
      && (forall i :: 0 <= i < |b| ==> (LabelText(b[i].caption) == "Last" <==> i == |b| - 1))
  {
    var b := Buttons(cur, total, w, q);
    Layout(cur, total, w, q);
    forall i | 0 <= i < |b|
      ensures LabelText(b[i].caption) == "First" <==> i == 0
      ensures LabelText(b[i].caption) == "Last" <==> i == |b| - 1
    {
      LabelTextIdentifies(b[i].caption);
    }
  }

  /** The numbered buttons are exactly the window pages: each one's page is in the window
      and labels it, and every window page has a button. */
  lemma WindowPagesExact(cur: int, total: int, w: nat, q: QueryData)
    requires total >= 2
    ensures var b := Buttons(cur, total, w, q);
      && (forall i :: 0 < i < |b| - 1 && !b[i].placeholder ==>
            InWindow(cur, total, w, b[i].page) && b[i].caption == NumberLabel(b[i].page))
      && (forall p :: InWindow(cur, total, w, p) ==>
            exists i :: 0 < i < |b| - 1 && !b[i].placeholder && b[i].page == p)
  {
    var b := Buttons(cur, total, w, q);
    Layout(cur, total, w, q);
    var l := Indicator(LeftEllipsis(cur, w));
    forall p | InWindow(cur, total, w, p)
      ensures exists i :: 0 < i < |b| - 1 && !b[i].placeholder && b[i].page == p
    {
      var i := 1 + l + p - WindowFirst(cur, w);
      assert b[i].page == p;
    }
  }

  /** Pages of the non-ellipsis buttons strictly increase from left to right, so no page
      is shown twice and neither 1 nor the last page reappears inside the window. */
  lemma PagesAscending(cur: int, total: int, w: nat, q: QueryData)
    requires total >= 2
    ensures var b := Buttons(cur, total, w, q);
      forall i, j :: 0 <= i < j < |b| && !b[i].placeholder && !b[j].placeholder ==> b[i].page < b[j].page
  {
    var b := Buttons(cur, total, w, q);
    Layout(cur, total, w, q);
    var l := Indicator(LeftEllipsis(cur, w));
    var n := WindowSize(cur, total, w);
    forall i, j | 0 <= i < j < |b| && !b[i].placeholder && !b[j].placeholder
      ensures b[i].page < b[j].page
    {
      assert i == 0 || 1 + l <= i < 1 + l + n;
      assert j == |b| - 1 || 1 + l <= j < 1 + l + n;
    }
  }

  /** The positions holding an ellipsis. */
  lemma EllipsisPositions(cur: int, total: int, w: nat, q: QueryData)
    requires total >= 2
    ensures var b := Buttons(cur, total, w, q);
      forall i :: 0 <= i < |b| ==>
        (b[i].placeholder <==> (i == 1 && LeftEllipsis(cur, w)) || (i == |b| - 2 && RightEllipsis(cur, total, w)))
  {
    Layout(cur, total, w, q);
  }

  /** The number of ellipsis buttons. */
  lemma {:induction false} EllipsisTotal(cur: int, total: int, w: nat, q: QueryData)
    requires total >= 2
    ensures EllipsisCount(Buttons(cur, total, w, q))
      == Indicator(LeftEllipsis(cur, w)) + Indicator(RightEllipsis(cur, total, w))
  {
    var first := [FirstButton(cur, total, q)];
    var left := if LeftEllipsis(cur, w) then [EllipsisButton(total, q)] else [];
    var ws := WindowButtons(cur, total, w, q);
    var right := if RightEllipsis(cur, total, w) then [EllipsisButton(total, q)] else [];
    var last := [LastButton(cur, total, q)];
    ButtonsParts(cur, total, w, q);
    assert forall k :: 0 <= k < |ws| ==> ws[k] == PageButton(WindowFirst(cur, w) + k, cur, total, q);
    EllipsisCountNone(ws);
    EllipsisCountNone(first);
    EllipsisCountNone(last);
    assert EllipsisCount(left) == Indicator(LeftEllipsis(cur, w));
    assert EllipsisCount(right) == Indicator(RightEllipsis(cur, total, w));
    EllipsisCountAppend(first, left);
    EllipsisCountAppend(first + left, ws);
    EllipsisCountAppend(first + left + ws, right);
    EllipsisCountAppend(first + left + ws + right, last);
  }

  /** Ellipses: one after First exactly when the window starts beyond page 2, one before
      Last exactly when it ends before the second-to-last page, and no others. */
  lemma EllipsisPlacement(cur: int, total: int, w: nat, q: QueryData)
    requires total >= 2
    ensures var b := Buttons(cur, total, w, q);
      && (forall i :: 0 <= i < |b| ==>
            (b[i].placeholder <==> (i == 1 && LeftEllipsis(cur, w)) || (i == |b| - 2 && RightEllipsis(cur, total, w))))
      && EllipsisCount(b) == Indicator(LeftEllipsis(cur, w)) + Indicator(RightEllipsis(cur, total, w))
  {
    EllipsisPositions(cur, total, w, q);
    EllipsisTotal(cur, total, w, q);
  }

  /** A page the bar skips: strictly between First and Last, outside the window. */
  predicate Skipped(cur: int, total: int, w: nat, p: int) {
    1 < p < total && !InWindow(cur, total, w, p)
  }

  /** For a current page in range each ellipsis stands for pages really skipped: the left
      one appears exactly when a page below the window is skipped, the right one exactly
      when a page above it is. */
  lemma EllipsisMarksSkippedPages(cur: int, total: int, w: nat)
    requires 1 <= cur <= total
    ensures LeftEllipsis(cur, w) <==> exists p :: Skipped(cur, total, w, p) && p < cur
    ensures RightEllipsis(cur, total, w) <==> exists p :: Skipped(cur, total, w, p) && p > cur
  {
    if LeftEllipsis(cur, w) {
      assert Skipped(cur, total, w, 2);
    }
    if RightEllipsis(cur, total, w) {
      assert Skipped(cur, total, w, total - 1);
    }
  }

  /** The right ellipsis stands for skipped pages for every valid current page, including
      one beyond the last page: it appears exactly when some page above the current one is
      skipped. */
  lemma RightEllipsisMarksSkippedPages(cur: int, total: int, w: nat)
    requires cur >= 1
    ensures RightEllipsis(cur, total, w) <==> exists p :: Skipped(cur, total, w, p) && p > cur
  {
    if RightEllipsis(cur, total, w) {
      assert Skipped(cur, total, w, total - 1);
    }
  }

  /** Beyond the last page the left ellipsis can stand for nothing: with two pages and the
      current page at 10 the bar is First, an ellipsis, Last, though no page is skipped. */
  lemma EllipsisBeyondLastPage(q: QueryData)
    ensures var b := Buttons(10, 2, DefaultWindowSize, q);
      && |b| == 3 && b[1].placeholder
      && forall p :: !Skipped(10, 2, DefaultWindowSize, p)
  {
    Layout(10, 2, DefaultWindowSize, q);
  }

  /** Ellipses are never current, never clickable and always disabled. */
  lemma EllipsisInert(cur: int, total: int, w: nat, q: QueryData)
    requires total >= 2
    ensures var b := Buttons(cur, total, w, q);
      forall i :: 0 <= i < |b| && b[i].placeholder ==>
        && b[i].caption == DotsLabel && b[i].ariaLabel == "Skipped pages"
        && !b[i].current && !b[i].interactive && b[i].disabled && !b[i].ariaCurrent && b[i].hxGet == None
  {
    Layout(cur, total, w, q);
  }

  /** Accessible names: First is "Go to first page", Last names the page count, and every
      numbered button names its own page. */
  lemma AriaLabels(cur: int, total: int, w: nat, q: QueryData)
    requires total >= 2
    ensures var b := Buttons(cur, total, w, q);
      && b[0].ariaLabel == "Go to first page"
      && b[|b| - 1].ariaLabel == "Go to last page, page " + Strconv.Itoa(total)
      && (forall i :: 0 < i < |b| - 1 && !b[i].placeholder ==>
            b[i].ariaLabel == "Go to page " + Strconv.Itoa(b[i].page))
  {
    Layout(cur, total, w, q);
  }

  /** A numbered, First or Last button is current exactly when it targets the current page. */
  lemma CurrentIffCurrentPage(cur: int, total: int, w: nat, q: QueryData)
    requires total >= 2
    ensures var b := Buttons(cur, total, w, q);
      forall i :: 0 <= i < |b| && !b[i].placeholder ==> (b[i].current <==> b[i].page == cur)
  {
    Layout(cur, total, w, q);
  }

  /** For a current page within range exactly one button is current. */
  lemma ExactlyOneCurrent(cur: int, total: int, w: nat, q: QueryData)
    requires 1 <= cur <= total && total >= 2
    ensures var b := Buttons(cur, total, w, q);
      && (exists i :: 0 <= i < |b| && b[i].current)
      && (forall i, j :: 0 <= i < |b| && 0 <= j < |b| && b[i].current && b[j].current ==> i == j)
  {
    var b := Buttons(cur, total, w, q);
    Layout(cur, total, w, q);
    CurrentIffCurrentPage(cur, total, w, q);
    PagesAscending(cur, total, w, q);
    EllipsisInert(cur, total, w, q);
    if cur == 1 {
      assert b[0].current;
    } else if cur == total {
      assert b[|b| - 1].current;
    } else {
      var l := Indicator(LeftEllipsis(cur, w));
      var i := 1 + l + cur - WindowFirst(cur, w);
      assert b[i].current;
    }
  }

  /** A current page outside 1..total leaves no button current. */
  lemma NoCurrentOutOfRange(cur: int, total: int, w: nat, q: QueryData)
    requires total >= 2 && (cur < 1 || cur > total)
    ensures var b := Buttons(cur, total, w, q);
      forall i :: 0 <= i < |b| ==> !b[i].current
  {
    Layout(cur, total, w, q);
  }

  /** Interaction rules of every button: clickable iff neither ellipsis nor current; only
      clickable buttons carry a link, and it is the link to their own page; the others are
      disabled; highlighting and `aria-current` go exactly to a current non-ellipsis. */
  lemma InteractionRules(cur: int, total: int, w: nat, q: QueryData)
    requires total >= 2
    ensures var b := Buttons(cur, total, w, q);
      forall i :: 0 <= i < |b| ==>
        && (b[i].interactive <==> !b[i].placeholder && !b[i].current)
        && (b[i].disabled <==> !b[i].interactive)
        && (b[i].ariaCurrent <==> b[i].current && !b[i].placeholder)
        && (b[i].active <==> b[i].current && !b[i].placeholder)
        && (b[i].hxGet.Some? <==> b[i].interactive)
        && (b[i].interactive ==> b[i].hxGet == Some(PageLink(b[i].page, q)))
  {
    Layout(cur, total, w, q);
  }

  lemma {:induction false} LookupAppend(a: Query, b: Query, key: string)
    ensures Lookup(a + b, key) == if Lookup(a, key).Some? then Lookup(a, key) else Lookup(b, key)
    decreases |a|
  {
    if a != [] {
      assert (a + b)[0] == a[0];
      assert (a + b)[1..] == a[1..] + b;
      LookupAppend(a[1..], b, key);
    } else {
      assert a + b == b;
    }
  }

  lemma LookupSingleton(name: string, value: string, key: string)
    ensures Lookup([(name, value)], key) == if name == key then Some(value) else None
  {
    assert [(name, value)][1..] == [];
  }

  /** Looking a key up in four consecutive pieces finds it in the first piece that has it. */
  lemma LookupPieces(pg: Query, d: Query, e: Query, k: Query, key: string)
    ensures Lookup(pg + (d + e + k), key)
      == if Lookup(pg, key).Some? then Lookup(pg, key)
         else if Lookup(d, key).Some? then Lookup(d, key)
         else if Lookup(e, key).Some? then Lookup(e, key)
         else Lookup(k, key)
  {
    LookupAppend(pg, d + e + k, key);
    LookupAppend(d + e, k, key);
    LookupAppend(d, e, key);
  }

  /** A page link names its page first and then each filter that is set, and nothing else;
      reading the link's parameters back gives the page's decimal number and the filters. */
  lemma PageLinkParameters(pageNum: int, q: QueryData)
    ensures var query := PageLink(pageNum, q).query;
      && Lookup(query, "page") == Some(Strconv.Itoa(pageNum))
      && Lookup(query, "database") == (if q.database != NilUuid then Some(q.database) else None)
      && Lookup(query, "destination") == (if q.destination != NilUuid then Some(q.destination) else None)
      && Lookup(query, "backup") == (if q.backup != NilUuid then Some(q.backup) else None)
      && |query| == 1 + Indicator(q.database != NilUuid) + Indicator(q.destination != NilUuid) + Indicator(q.backup != NilUuid)
  {
    var d: Query := if q.database != NilUuid then [("database", q.database)] else [];
    var e: Query := if q.destination != NilUuid then [("destination", q.destination)] else [];
    var k: Query := if q.backup != NilUuid then [("backup", q.backup)] else [];
    var pg: Query := [("page", Strconv.Itoa(pageNum))];
    assert PageLink(pageNum, q).query == pg + (d + e + k);
    LinkKey(pageNum, q, "page");
    LinkKey(pageNum, q, "database");
    LinkKey(pageNum, q, "destination");
    LinkKey(pageNum, q, "backup");
  }

  /** One parameter of a page link: the page's own key, or the first filter piece naming it. */
  lemma LinkKey(pageNum: int, q: QueryData, key: string)
    ensures var d: Query := if q.database != NilUuid then [("database", q.database)] else [];
      var e: Query := if q.destination != NilUuid then [("destination", q.destination)] else [];
      var k: Query := if q.backup != NilUuid then [("backup", q.backup)] else [];
      Lookup(PageLink(pageNum, q).query, key)
        == if key == "page" then Some(Strconv.Itoa(pageNum))
           else if key == "database" then Lookup(d, key)
           else if key == "destination" then Lookup(e, key)
           else Lookup(k, key)
  {
    var d: Query := if q.database != NilUuid then [("database", q.database)] else [];
    var e: Query := if q.destination != NilUuid then [("destination", q.destination)] else [];
    var k: Query := if q.backup != NilUuid then [("backup", q.backup)] else [];
    var pg: Query := [("page", Strconv.Itoa(pageNum))];
    assert PageLink(pageNum, q).query == pg + (d + e + k);
    LookupPieces(pg, d, e, k, key);
    LookupSingleton("page", Strconv.Itoa(pageNum), key);
    if q.database != NilUuid { LookupSingleton("database", q.database, key); }
    if q.destination != NilUuid { LookupSingleton("destination", q.destination, key); }
    if q.backup != NilUuid { LookupSingleton("backup", q.backup, key); }
  }

  /** With only a backup filter, each link is `page=N` followed by `backup=X`. */
  lemma BackupFilterKept(pageNum: int, backup: Uuid, requested: int)
    requires backup != NilUuid
    ensures PageLink(pageNum, QueryData(NilUuid, NilUuid, backup, requested)).query
      == [("page", Strconv.Itoa(pageNum)), ("backup", backup)]
  {
  }
}

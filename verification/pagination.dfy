/** The pagination bar under the executions table: which page buttons are shown for a
    current page and a page count, with what state, and where each one links to.
    Rendering to HTML is left out; a button is the abstract record of what gets rendered. */
module Pagination {
  import opened Optionals
  import opened Uuids
  import Strconv

  /** Pages shown on each side of the current page. */
  const DefaultWindowSize: nat := 2

  /** The endpoint every page link targets. */
  const ListPath: string := "/dashboard/executions/list"

  /** The list request's query: optional filters (NilUuid when absent) and the requested page. */
  datatype QueryData = QueryData(database: Uuid, destination: Uuid, backup: Uuid, page: int)

  /** The two figures of the paginated query's response that the bar uses. */
  datatype PaginateResponse = PaginateResponse(currentPage: int, totalPages: int)

  /** A link: a path and its ordered query parameters, before any URL encoding. */
  type Query = seq<(string, string)>
  datatype Link = Link(path: string, query: Query)

  /** What a button shows: the word First or Last, an ellipsis, or a page number. */
  datatype Label = FirstLabel | LastLabel | DotsLabel | NumberLabel(n: int)

  /** The text a label renders as. */
  function LabelText(l: Label): string {
    match l
    case FirstLabel => "First"
    case LastLabel => "Last"
    case DotsLabel => "..."
    case NumberLabel(n) => Strconv.Itoa(n)
  }

  /** A label is told apart by its text: only the First label reads "First", only the Last
      label reads "Last", only the ellipsis reads "...". The handler's comparisons of the text are
      therefore comparisons of the label. */
  lemma LabelTextIdentifies(l: Label)
    ensures LabelText(l) == "First" <==> l == FirstLabel
    ensures LabelText(l) == "Last" <==> l == LastLabel
    ensures LabelText(l) == "..." <==> l == DotsLabel
  {
    if l.NumberLabel? {
      var s := Strconv.Itoa(l.n);
      assert s[0] == '-' || Strconv.IsDigit(s[0]);
      assert "First"[0] == 'F' && "Last"[0] == 'L' && "..."[0] == '.';
    }
  }

  /** A rendered pagination button.
      `current` is the flag it was built with; `active` is the highlighted style;
      `disabled` covers both the disabled style and the `disabled` attribute;
      `hxGet` is the link fetched when it is clicked, if any. */
  datatype Button = Button(
    caption: Label,
    page: int,
    placeholder: bool,
    current: bool,
    active: bool,
    interactive: bool,
    disabled: bool,
    ariaLabel: string,
    ariaCurrent: bool,
    hxGet: Option<Link>
  )

  /** Rank of each query key in a page link: the page first, then the filters in fixed order. */
  function KeyRank(key: string): int {
    if key == "page" then 0
    else if key == "database" then 1
    else if key == "destination" then 2
    else if key == "backup" then 3
    else 4
  }

  /** The value of the first parameter named `key`, if any. */
  function Lookup(query: Query, key: string): Option<string> {
    if query == [] then None
    else if query[0].0 == key then Some(query[0].1)
    else Lookup(query[1..], key)
  }

  /** The filters a page link keeps: each one that is set, in the order database, destination, backup. */
  function FilterPairs(q: QueryData): (r: Query)
    ensures |r| <= 3
    ensures forall i :: 0 <= i < |r| ==> 1 <= KeyRank(r[i].0) <= 3
    ensures forall i, j :: 0 <= i < j < |r| ==> KeyRank(r[i].0) < KeyRank(r[j].0)
  {
    (if q.database != NilUuid then [("database", q.database)] else [])
    + (if q.destination != NilUuid then [("destination", q.destination)] else [])
    + (if q.backup != NilUuid then [("backup", q.backup)] else [])
  }

  /** The link a button for `pageNum` fetches: the page first, then the kept filters. */
  function PageLink(pageNum: int, q: QueryData): (l: Link)
    ensures l.path == ListPath
    ensures |l.query| >= 1 && l.query[0] == ("page", Strconv.Itoa(pageNum))
    ensures forall i, j :: 0 <= i < j < |l.query| ==> KeyRank(l.query[i].0) < KeyRank(l.query[j].0)
  {
    Link(ListPath, [("page", Strconv.Itoa(pageNum))] + FilterPairs(q))
  }

  /** The accessible name of a button. */
  function AriaLabel(caption: Label, pageNum: int, isPlaceholder: bool, totalPages: int): (s: string)
    ensures caption == FirstLabel ==> s == "Go to first page"
    ensures caption == LastLabel ==> s == "Go to last page, page " + Strconv.Itoa(totalPages)
    ensures caption != FirstLabel && caption != LastLabel && isPlaceholder ==> s == "Skipped pages"
    ensures caption != FirstLabel && caption != LastLabel && !isPlaceholder ==> s == "Go to page " + Strconv.Itoa(pageNum)
  {
    if caption == FirstLabel then "Go to first page"
    else if caption == LastLabel then "Go to last page, page " + Strconv.Itoa(totalPages)
    else if isPlaceholder then "Skipped pages"
    else "Go to page " + Strconv.Itoa(pageNum)
  }

  /** One pagination button (`createPageButtonNode`). */
  function CreatePageButton(
    caption: Label, pageNum: int, isPlaceholder: bool, isCurrent: bool, totalPages: int, q: QueryData
  ): (b: Button)
    ensures b.page == pageNum && b.placeholder == isPlaceholder && b.current == isCurrent
    ensures b.caption == if isPlaceholder then DotsLabel else caption
    ensures b.interactive <==> !isPlaceholder && !isCurrent
    ensures b.disabled <==> !b.interactive
    ensures b.active <==> isCurrent && !isPlaceholder
    ensures b.ariaCurrent <==> isCurrent && !isPlaceholder
    ensures b.hxGet.Some? <==> b.interactive
    ensures b.hxGet.Some? ==> |b.hxGet.value.query| >= 1 && b.hxGet.value.query[0] == ("page", Strconv.Itoa(pageNum))
  {
    var interactive := !isPlaceholder && !isCurrent;
    Button(
      caption := if isPlaceholder then DotsLabel else caption,
      page := pageNum,
      placeholder := isPlaceholder,
      current := isCurrent,
      active := isCurrent && !isPlaceholder,
      interactive := interactive,
      disabled := !interactive,
      ariaLabel := AriaLabel(caption, pageNum, isPlaceholder, totalPages),
      ariaCurrent := isCurrent && !isPlaceholder,
      hxGet := if interactive then Some(PageLink(pageNum, q)) else None
    )
  }

  function FirstButton(cur: int, total: int, q: QueryData): Button {
    CreatePageButton(FirstLabel, 1, false, cur == 1, total, q)
  }

  function LastButton(cur: int, total: int, q: QueryData): Button {
    CreatePageButton(LastLabel, total, false, cur == total, total, q)
  }

  function EllipsisButton(total: int, q: QueryData): Button {
    CreatePageButton(DotsLabel, 0, true, false, total, q)
  }

  /** The numbered button for page `p` inside the window. */
  function PageButton(p: int, cur: int, total: int, q: QueryData): Button {
    CreatePageButton(NumberLabel(p), p, false, p == cur, total, q)
  }

  /** A left ellipsis is shown when the window starts after page 2. */
  predicate LeftEllipsis(cur: int, w: nat) {
    cur - w > 2
  }

  /** A right ellipsis is shown when the window ends before the second-to-last page. */
  predicate RightEllipsis(cur: int, total: int, w: nat) {
    cur + w < total - 1
  }

  /** Reference definition of a window page: within `w` of the current page and strictly
      between the first and the last page. */
  predicate InWindow(cur: int, total: int, w: nat, p: int) {
    cur - w <= p <= cur + w && 1 < p < total
  }

  function Max(a: int, b: int): int { if a < b then b else a }
  function Min(a: int, b: int): int { if a < b then a else b }

  /** Number of pages in `lo..hi`. */
  function SpanLength(lo: int, hi: int): nat {
    if hi < lo then 0 else hi - lo + 1
  }

  /** Numbered buttons for the pages `lo..hi`, one each, ascending. */
  function PageRun(lo: int, hi: int, cur: int, total: int, q: QueryData): (r: seq<Button>)
    ensures |r| == SpanLength(lo, hi)
    ensures forall i :: 0 <= i < |r| ==> r[i] == PageButton(lo + i, cur, total, q)
  {
    seq(SpanLength(lo, hi), i => PageButton(lo + i, cur, total, q))
  }

  /** The first and the last page of the window actually shown: the pages within `w` of the
      current one, cut to lie strictly between the first and the last page. */
  function WindowFirst(cur: int, w: nat): int { Max(cur - w, 2) }
  function WindowLast(cur: int, total: int, w: nat): int { Min(cur + w, total - 1) }

  function WindowButtons(cur: int, total: int, w: nat, q: QueryData): seq<Button> {
    PageRun(WindowFirst(cur, w), WindowLast(cur, total, w), cur, total, q)
  }

  /** The pagination bar for window size `w`: First, an optional ellipsis, the window,
      an optional ellipsis, Last; nothing at all for fewer than two pages. */
  function Buttons(cur: int, total: int, w: nat, q: QueryData): (b: seq<Button>)
    ensures total <= 1 <==> b == []
    ensures total >= 2 ==> |b| >= 2
    ensures total >= 2 ==> b[0].caption == FirstLabel && b[0].page == 1 && !b[0].placeholder
    ensures total >= 2 ==> b[|b| - 1].caption == LastLabel && b[|b| - 1].page == total && !b[|b| - 1].placeholder
  {
    if total <= 1 then []
    else
      [FirstButton(cur, total, q)]
      + (if LeftEllipsis(cur, w) then [EllipsisButton(total, q)] else [])
      + WindowButtons(cur, total, w, q)
      + (if RightEllipsis(cur, total, w) then [EllipsisButton(total, q)] else [])
      + [LastButton(cur, total, q)]
  }

  lemma ButtonsParts(cur: int, total: int, w: nat, q: QueryData)
    requires total >= 2
    ensures Buttons(cur, total, w, q)
      == [FirstButton(cur, total, q)]
      + (if LeftEllipsis(cur, w) then [EllipsisButton(total, q)] else [])
      + WindowButtons(cur, total, w, q)
      + (if RightEllipsis(cur, total, w) then [EllipsisButton(total, q)] else [])
      + [LastButton(cur, total, q)]
  {
  }

  /** `paginationComponent`: no node at all (None) for fewer than two pages, otherwise the
      bar's container holding the buttons. */
  function PaginationComponent(q: QueryData, p: PaginateResponse): (r: Option<seq<Button>>)
    ensures r.None? <==> p.totalPages <= 1
    ensures r.Some? ==> |r.value| >= 2 && r.value[0].page == 1 && r.value[|r.value| - 1].page == p.totalPages
  {
    if p.totalPages <= 1 then None
    else Some(Buttons(p.currentPage, p.totalPages, DefaultWindowSize, q))
  }

  /** A run ending at `hi` is the run ending one page earlier followed by `hi`'s button. */
  lemma PageRunSnoc(lo: int, hi: int, cur: int, total: int, q: QueryData)
    requires lo <= hi
    ensures PageRun(lo, hi, cur, total, q) == PageRun(lo, hi - 1, cur, total, q) + [PageButton(hi, cur, total, q)]
  {
    var a := PageRun(lo, hi, cur, total, q);
    var b := PageRun(lo, hi - 1, cur, total, q);
    assert |a| == |b| + 1;
    assert forall i :: 0 <= i < |b| ==> a[i] == b[i];
    assert a[|b|] == PageButton(hi, cur, total, q);
  }

  /** One step of the window loop: the run of pages kept up to `page` grows by `page`'s
      button exactly when `page` lies strictly between the first and the last page. */
  lemma PageRunStep(lo: int, page: int, cur: int, total: int, q: QueryData)
    requires lo <= page
    ensures PageRun(Max(lo, 2), Min(page, total - 1), cur, total, q)
      == if 1 < page < total
         then PageRun(Max(lo, 2), Min(page - 1, total - 1), cur, total, q) + [PageButton(page, cur, total, q)]
         else PageRun(Max(lo, 2), Min(page - 1, total - 1), cur, total, q)
  {
    if 1 < page < total {
      PageRunSnoc(Max(lo, 2), page, cur, total, q);
    }
  }

  /** The window loop of the handler: walks `lo..hi`, adding a numbered button for every page
      strictly between 1 and `total` that is not yet in `pagesShown`. */
  method AppendWindow(
    buttons: seq<Button>, pagesShown: set<int>, lo: int, hi: int, cur: int, total: int, q: QueryData
  ) returns (result: seq<Button>, shown: set<int>)
    requires forall x :: x in pagesShown ==> x == 1 || x < lo
    ensures result == buttons + PageRun(Max(lo, 2), Min(hi, total - 1), cur, total, q)
  {
    result, shown := buttons, pagesShown;
    var page := lo;
    while page <= hi
      invariant lo <= page && (page == lo || page <= hi + 1)
      invariant result == buttons + PageRun(Max(lo, 2), Min(page - 1, total - 1), cur, total, q)
      invariant forall x :: x in shown ==> x == 1 || x < page
      decreases hi - page
    {
      PageRunStep(lo, page, cur, total, q);
      if page > 1 && page < total && page >= 1 {
        if page !in shown {
          result := result + [PageButton(page, cur, total, q)];
          shown := shown + {page};
        }
      }
      page := page + 1;
    }
  }

  /** The bar built step by step as the handler does; it yields exactly the bar described
      by `PaginationComponent`. */
  method BuildPagination(q: QueryData, p: PaginateResponse) returns (r: Option<seq<Button>>)
    ensures r == PaginationComponent(q, p)
  {
    if p.totalPages <= 1 {
      return None;
    }
    var cur, total, w := p.currentPage, p.totalPages, DefaultWindowSize;
    var buttons: seq<Button> := [];
    var pagesShown: set<int> := {};

    buttons := buttons + [FirstButton(cur, total, q)];
    pagesShown := pagesShown + {1};

    var leftWindowBound := cur - w;
    var rightWindowBound := cur + w;

    if leftWindowBound > 2 {
      buttons := buttons + [EllipsisButton(total, q)];
    }
    ghost var left := if LeftEllipsis(cur, w) then [EllipsisButton(total, q)] else [];
    ghost var right := if RightEllipsis(cur, total, w) then [EllipsisButton(total, q)] else [];
    assert buttons == [FirstButton(cur, total, q)] + left;
    buttons, pagesShown := AppendWindow(buttons, pagesShown, leftWindowBound, rightWindowBound, cur, total, q);
    if rightWindowBound < total - 1 {
      buttons := buttons + [EllipsisButton(total, q)];
    }
    if total > 1 {
      buttons := buttons + [LastButton(cur, total, q)];
    }
    ButtonsParts(cur, total, w, q);
    assert buttons == [FirstButton(cur, total, q)] + left + WindowButtons(cur, total, w, q) + right + [LastButton(cur, total, q)];
    return Some(buttons);
  }
}

/**
 * The pager's four buttons: which page each one asks for, when each one is
 * disabled, and which icon it shows in each reading direction. Pages are
 * 0-based here, as the pager counts them.
 */
module Pagination {

  datatype Direction = Ltr | Rtl

  datatype Button = First | Previous | Next | Last

  datatype Icon = FirstPageIcon | LastPageIcon | ArrowLeft | ArrowRight

  /** What one button renders: the page its click emits, whether it is
      disabled, and its icon. */
  datatype ButtonView = ButtonView(target: int, disabled: bool, icon: Icon)

  /** `Math.ceil(a / b)` for integers and a positive divisor: the least `r`
      with `a <= b * r`. */
  function CeilDiv(a: int, b: int): (r: int)
    requires b > 0
    ensures b * (r - 1) < a <= b * r
  {
    var q := (-a) / b;
    assert b * q <= -a < b * q + b by { DivBounds(-a, b); }
    -q
  }

  lemma DivBounds(a: int, b: int)
    requires b > 0
    ensures b * (a / b) <= a < b * (a / b) + b
  {
    assert a == b * (a / b) + a % b;
  }

  /** `lastPage`: the index of the last page that holds any of `count` rows,
      or -1 when there are no rows. */
  function LastPage(count: int, rowsPerPage: int): (r: int)
    requires rowsPerPage > 0
    ensures rowsPerPage * r < count <= rowsPerPage * (r + 1)
  {
    CeilDiv(count, rowsPerPage) - 1
  }

  /** The page a button's click handler emits. */
  function Target(b: Button, page: int, lastPage: int): int
  {
    match b
    case First => 0
    case Previous => page - 1
    case Next => page + 1
    case Last => lastPage
  }

  /** First and previous are disabled on page 0; next and last from the last
      page on. */
  predicate Disabled(b: Button, page: int, lastPage: int)
  {
    match b
    case First => page == 0
    case Previous => page == 0
    case Next => page >= lastPage
    case Last => page >= lastPage
  }

  /** The icon: in a right-to-left layout each button shows its mirror image. */
  function IconFor(b: Button, dir: Direction): Icon
  {
    match (b, dir)
    case (First, Ltr) => FirstPageIcon
    case (First, Rtl) => LastPageIcon
    case (Previous, Ltr) => ArrowLeft
    case (Previous, Rtl) => ArrowRight
    case (Next, Ltr) => ArrowRight
    case (Next, Rtl) => ArrowLeft
    case (Last, Ltr) => LastPageIcon
    case (Last, Rtl) => FirstPageIcon
  }

  /** The button at the other end of the row. */
  function Mirror(b: Button): Button
  {
    match b
    case First => Last
    case Previous => Next
    case Next => Previous
    case Last => First
  }

  /** One button as the pager renders it. */
  function View(b: Button, count: int, page: int, rowsPerPage: int, dir: Direction): (v: ButtonView)
    requires rowsPerPage > 0
    ensures v.target == Target(b, page, LastPage(count, rowsPerPage))
    ensures v.disabled == Disabled(b, page, LastPage(count, rowsPerPage))
    ensures v.icon == IconFor(b, dir)
  {
    var lastPage := LastPage(count, rowsPerPage);
    ButtonView(Target(b, page, lastPage), Disabled(b, page, lastPage), IconFor(b, dir))
  }

  // ---------------------------------------------------------------------------
  // Lemmas

  /** No rows means no last page; otherwise the last page index is the number
      of full or partial pages less one, never negative. */
  lemma LastPageSpec(count: int, rowsPerPage: int)
    requires rowsPerPage > 0
    ensures count == 0 ==> LastPage(count, rowsPerPage) == -1
    ensures count > 0 ==> LastPage(count, rowsPerPage) >= 0
    ensures count > 0 ==> LastPage(count, rowsPerPage) == (count - 1) / rowsPerPage
  {
    var r := LastPage(count, rowsPerPage);
    if count > 0 {
      DivBounds(count - 1, rowsPerPage);
      var q := (count - 1) / rowsPerPage;
      FloorUnique(count - 1, rowsPerPage, q, r);
    }
  }

  /** Two quotients that both bracket `a` between consecutive multiples of
      `b` are the same. */
  lemma FloorUnique(a: int, b: int, q: int, r: int)
    requires b > 0
    requires b * q <= a < b * q + b
    requires b * r <= a < b * r + b
    ensures q == r
  {
    if q < r {
      assert b * (r - q) >= b by { MulMono(b, r - q); }
    } else if r < q {
      assert b * (q - r) >= b by { MulMono(b, q - r); }
    }
  }

  lemma MulMono(b: int, d: int)
    requires b > 0 && d >= 1
    ensures b * d >= b
  {
  }

  /** Each button's right-to-left icon is its mirror button's left-to-right
      icon, and mirroring twice gives the button back. */
  lemma IconMirror(b: Button)
    ensures IconFor(b, Rtl) == IconFor(Mirror(b), Ltr)
    ensures Mirror(Mirror(b)) == b
    ensures IconFor(b, Ltr) != IconFor(Mirror(b), Ltr)
  {
  }

  /** Left-to-right or right-to-left, every button emits the same page and is
      disabled in the same cases; only its icon changes. */
  lemma DirectionOnlySwapsIcons(b: Button, count: int, page: int, rowsPerPage: int)
    requires rowsPerPage > 0
    ensures View(b, count, page, rowsPerPage, Ltr).target == View(b, count, page, rowsPerPage, Rtl).target
    ensures View(b, count, page, rowsPerPage, Ltr).disabled == View(b, count, page, rowsPerPage, Rtl).disabled
    ensures View(b, count, page, rowsPerPage, Rtl).icon == View(Mirror(b), count, page, rowsPerPage, Ltr).icon
  {
  }

  /** On a page inside the range, an enabled button only ever asks for a page
      inside the range, and a forward button moves forward. */
  lemma EnabledTargetsInRange(b: Button, count: int, page: int, rowsPerPage: int)
    requires rowsPerPage > 0
    requires 0 <= page <= LastPage(count, rowsPerPage)
    requires !Disabled(b, page, LastPage(count, rowsPerPage))
    ensures 0 <= Target(b, page, LastPage(count, rowsPerPage)) <= LastPage(count, rowsPerPage)
    ensures (b == Next || b == Last) ==> Target(b, page, LastPage(count, rowsPerPage)) > page
    ensures (b == First || b == Previous) ==> Target(b, page, LastPage(count, rowsPerPage)) < page
  {
  }

  /** Whatever page it is on, an enabled next button never asks for a page
      past the last one. */
  lemma EnabledNextBounded(count: int, page: int, rowsPerPage: int)
    requires rowsPerPage > 0
    requires !Disabled(Next, page, LastPage(count, rowsPerPage))
    ensures Target(Next, page, LastPage(count, rowsPerPage)) <= LastPage(count, rowsPerPage)
  {
  }

  /** When every row fits on one page, the forward buttons are disabled on the
      first page. */
  lemma SinglePageDisablesForward(count: int, rowsPerPage: int)
    requires rowsPerPage > 0 && count <= rowsPerPage
    ensures Disabled(Next, 0, LastPage(count, rowsPerPage))
    ensures Disabled(Last, 0, LastPage(count, rowsPerPage))
  {
    var r := LastPage(count, rowsPerPage);
    if r >= 1 {
      assert rowsPerPage * r >= rowsPerPage by { MulMono(rowsPerPage, r); }
    }
  }
}

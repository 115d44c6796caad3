/** The pure paging rules of the image gallery: how an item is located in the
    list, which page the container is offered next to a given page, how pages
    are rebound when the list is replaced, and which way the container slides
    when the current index is set explicitly. */
module GalleryPaging {
  import opened Wrappers

  /** The content of one page of the gallery: a bare placeholder view, or a
      single-image view bound to one item. */
  datatype Page<T> = Placeholder | ImagePage(item: T)

  /** The direction in which the page container slides a new page in. */
  datatype Direction = Forward | Reverse

  /** The counter label "N of M", kept as its two numbers. */
  datatype CountText = CountText(position: int, total: int)

  ghost predicate Distinct<T>(s: seq<T>)
  {
    forall i, j :: 0 <= i < j < |s| ==> s[i] != s[j]
  }

  /** The first position of `x` in `s` (Swift's `Array.indexOf`). */
  function IndexOf<T(==)>(s: seq<T>, x: T): (r: Option<nat>)
    ensures r.None? <==> x !in s
    ensures r.Some? ==> r.value < |s| && s[r.value] == x
    ensures r.Some? ==> forall j :: 0 <= j < r.value ==> s[j] != x
  {
    if |s| == 0 then None
    else if s[0] == x then Some(0)
    else
      match IndexOf(s[1..], x)
      case None => None
      case Some(i) => Some(i + 1)
  }

  /** In a list without repetitions an item's first position is its position. */
  lemma IndexOfDistinct<T>(s: seq<T>, i: nat)
    requires Distinct(s) && i < |s|
    ensures IndexOf(s, s[i]) == Some(i)
  {
  }

  /** The position of the item a page shows, if it is an image page whose item
      is in `items`; a placeholder page has no position. */
  function IndexOfPage<T(==)>(items: seq<T>, p: Page<T>): (r: Option<nat>)
    ensures r.Some? <==> p.ImagePage? && p.item in items
    ensures r.Some? ==> r.value < |items| && items[r.value] == p.item
    ensures r.Some? ==> forall j :: 0 <= j < r.value ==> items[j] != p.item
  {
    match p
    case Placeholder => None
    case ImagePage(x) => IndexOf(items, x)
  }

  /** The page the container is offered after `p`: one bound to the item that
      follows the first occurrence of `p`'s item, or none. */
  function PageAfter<T(==)>(items: seq<T>, p: Page<T>): (r: Option<Page<T>>)
    ensures p.Placeholder? ==> r.None?
    ensures p.ImagePage? && p.item !in items ==> r.None?
    ensures r.Some? <==> exists k :: IndexOfPage(items, p) == Some(k) && k + 1 < |items|
    ensures forall k :: IndexOfPage(items, p) == Some(k) && k + 1 < |items| ==> r == Some(ImagePage(items[k + 1]))
  {
    match IndexOfPage(items, p)
    case None => None
    case Some(k) => if k + 1 < |items| then Some(ImagePage(items[k + 1])) else None
  }

  /** The page the container is offered before `p`: one bound to the item that
      precedes the first occurrence of `p`'s item, or none. */
  function PageBefore<T(==)>(items: seq<T>, p: Page<T>): (r: Option<Page<T>>)
    ensures p.Placeholder? ==> r.None?
    ensures p.ImagePage? && p.item !in items ==> r.None?
    ensures r.Some? <==> exists k :: IndexOfPage(items, p) == Some(k) && k >= 1
    ensures forall k :: IndexOfPage(items, p) == Some(k) && k >= 1 ==> r == Some(ImagePage(items[k - 1]))
  {
    match IndexOfPage(items, p)
    case None => None
    case Some(k) => if k - 1 >= 0 then Some(ImagePage(items[k - 1])) else None
  }

  /** Going forward offers nothing from the last item, and going back offers
      nothing from the first, when the list has no repetitions. */
  lemma SupplyStopsAtEnds<T>(items: seq<T>)
    requires Distinct(items) && |items| > 0
    ensures PageAfter(items, ImagePage(items[|items| - 1])) == None
    ensures PageBefore(items, ImagePage(items[0])) == None
  {
  }

  /** In a list without repetitions the page offered after `p` sits one
      position further, and going back from it returns `p`. */
  lemma AfterThenBefore<T>(items: seq<T>, p: Page<T>)
    requires Distinct(items)
    requires PageAfter(items, p).Some?
    ensures exists k :: IndexOfPage(items, p) == Some(k) && IndexOfPage(items, PageAfter(items, p).value) == Some(k + 1)
    ensures PageBefore(items, PageAfter(items, p).value) == Some(p)
  {
    var k := IndexOfPage(items, p).value;
    IndexOfDistinct(items, k + 1);
  }

  /** In a list without repetitions the page offered before `p` sits one
      position earlier, and going forward from it returns `p`. */
  lemma BeforeThenAfter<T>(items: seq<T>, p: Page<T>)
    requires Distinct(items)
    requires PageBefore(items, p).Some?
    ensures exists k :: IndexOfPage(items, p) == Some(k) && k >= 1 && IndexOfPage(items, PageBefore(items, p).value) == Some(k - 1)
    ensures PageAfter(items, PageBefore(items, p).value) == Some(p)
  {
  }

  /** The page reached from `p` by `n` forward swipes, each taking the page the
      container is offered after the previous one. */
  function Swipes<T(==)>(items: seq<T>, p: Page<T>, n: nat): Option<Page<T>>
  {
    if n == 0 then Some(p)
    else
      match Swipes(items, p, n - 1)
      case None => None
      case Some(q) => PageAfter(items, q)
  }

  /** Without repetitions, swiping forward from the first item reaches every
      item in order. */
  lemma {:induction false} SwipesReachEveryItem<T>(items: seq<T>, n: nat)
    requires Distinct(items) && n < |items|
    ensures Swipes(items, ImagePage(items[0]), n) == Some(ImagePage(items[n]))
  {
    if n > 0 {
      SwipesReachEveryItem(items, n - 1);
      IndexOfDistinct(items, n - 1);
    }
  }

  /** With a repeated item, paging works from the FIRST occurrence: in
      [a, b, a, c] every forward swipe from `a` lands on `a` or `b`, so the
      page for `c` is never offered. */
  lemma {:induction false} RepeatedItemHidesLaterPages<T>(a: T, b: T, c: T, n: nat)
    requires a != b && c != a && c != b
    ensures Swipes([a, b, a, c], ImagePage(a), n) in {Some(ImagePage(a)), Some(ImagePage(b))}
  {
    var items := [a, b, a, c];
    if n > 0 {
      RepeatedItemHidesLaterPages(a, b, c, n - 1);
      assert IndexOf(items, a) == Some(0);
      assert IndexOf(items, b) == Some(1);
    }
  }

  /** The rebinding the gallery applies to one child page when its list changes
      from `before` to `after`: a page whose item sits at first position `i`
      in `before`, with `i` still a position of `after`, is bound to
      `after[i]`; every other page is left as it was. */
  function RebindPage<T(==)>(p: Page<T>, before: seq<T>, after: seq<T>): (r: Page<T>)
    ensures p.Placeholder? ==> r == Placeholder
    ensures forall i :: IndexOfPage(before, p) == Some(i) && i < |after| ==> r == ImagePage(after[i])
    ensures (IndexOfPage(before, p).None? || IndexOfPage(before, p).value >= |after|) ==> r == p
  {
    match IndexOfPage(before, p)
    case Some(i) => if i < |after| then ImagePage(after[i]) else p
    case None => p
  }

  /** Replacing a list by itself rebinds nothing. */
  lemma RebindSameList<T>(p: Page<T>, items: seq<T>)
    ensures RebindPage(p, items, items) == p
  {
  }

  /** When the new list has no repetitions, a rebound page keeps its position:
      its item in the new list is found where its old item was. */
  lemma RebindKeepsPosition<T>(p: Page<T>, before: seq<T>, after: seq<T>, i: nat)
    requires Distinct(after)
    requires IndexOfPage(before, p) == Some(i) && i < |after|
    ensures IndexOfPage(after, RebindPage(p, before, after)) == Some(i)
  {
  }

  /** A page whose old position is beyond the end of the new list stays bound
      to its old item. */
  lemma RebindLeavesStalePage<T>(p: Page<T>, before: seq<T>, after: seq<T>, i: nat)
    requires IndexOfPage(before, p) == Some(i) && i >= |after|
    ensures RebindPage(p, before, after) == p
    ensures p == ImagePage(before[i])
  {
  }

  /** The direction of an explicit move from `current` to `target`: forward
      only to a strictly greater index, so staying put slides in reverse. */
  function ChooseDirection(current: int, target: int): (d: Direction)
    ensures d == Forward <==> current < target
    ensures d == Reverse <==> target <= current
  {
    if current < target then Forward else Reverse
  }

  /** The counter shown for the current index: its successor over the count. */
  function CountFor(currentImage: int, count: nat): (t: CountText)
    ensures t.position - 1 == currentImage && t.total == count
  {
    CountText(currentImage + 1, count)
  }
}

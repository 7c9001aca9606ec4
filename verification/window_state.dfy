/** Putting a saved window back on the screens there are now. */
module WindowState {
  import opened Options

  datatype Rectangle = Rectangle(x: int, y: int, width: int, height: int)

  datatype State = State(bounds: Rectangle, maximized: bool, fullscreen: bool)

  function Min(a: int, b: int): int { if a < b then a else b }

  function Max(a: int, b: int): int { if a > b then a else b }

  function Overlap(a: Rectangle, b: Rectangle): nat {
    var width := Min(a.x + a.width, b.x + b.width) - Max(a.x, b.x);
    var height := Min(a.y + a.height, b.y + b.height) - Max(a.y, b.y);
    if width > 0 && height > 0 then Product(width, height) else 0
  }

  function Product(a: nat, b: nat): nat { a * b }

  // ---- the overlap is the number of pixels two rectangles share ----

  datatype Pixel = Pixel(x: int, y: int)

  predicate Covers(r: Rectangle, p: Pixel) {
    r.x <= p.x < r.x + r.width && r.y <= p.y < r.y + r.height
  }

  function Pixels(r: Rectangle): (pixels: set<Pixel>)
    ensures forall p :: p in pixels <==> Covers(r, p)
  {
    var pixels := set x, y | r.x <= x < r.x + r.width && r.y <= y < r.y + r.height :: Pixel(x, y);
    assert forall p :: p in pixels <== Covers(r, p) by {
      forall p | Covers(r, p) ensures p in pixels { assert p == Pixel(p.x, p.y); }
    }
    pixels
  }

  lemma {:induction false} RowCount(r: Rectangle)
    requires 0 <= r.width && r.height == 1
    ensures |Pixels(r)| == r.width
    decreases r.width
  {
    hide Pixels;
    if r.width == 0 {
      assert Pixels(r) == {};
    } else {
      var shorter, last := r.(width := r.width - 1), Pixel(r.x + r.width - 1, r.y);
      RowCount(shorter);
      assert Pixels(r) == Pixels(shorter) + {last};
    }
  }

  lemma ProductStep(a: nat, b: nat)
    ensures Product(a, 0) == 0
    ensures b > 0 ==> Product(a, b) == Product(a, b - 1) + a
  {
    assert b > 0 ==> a * b == a * (b - 1) + a;
  }

  lemma {:induction false} PixelCount(r: Rectangle)
    requires 0 <= r.width && 0 <= r.height
    ensures |Pixels(r)| == Product(r.width, r.height)
    decreases r.height
  {
    hide Pixels, Product;
    ProductStep(r.width, 0);
    if r.height == 0 {
      assert Pixels(r) == {};
    } else {
      var above, last := r.(height := r.height - 1), r.(y := r.y + r.height - 1, height := 1);
      PixelCount(above);
      RowCount(last);
      assert Pixels(r) == Pixels(above) + Pixels(last);
      assert Pixels(above) !! Pixels(last);
      ProductStep(r.width, r.height);
    }
  }

  lemma OverlapCountsSharedPixels(a: Rectangle, b: Rectangle)
    ensures Overlap(a, b) == |Pixels(a) * Pixels(b)|
  {
    hide Pixels;
    var x, y := Max(a.x, b.x), Max(a.y, b.y);
    var width, height := Min(a.x + a.width, b.x + b.width) - x, Min(a.y + a.height, b.y + b.height) - y;
    if width > 0 && height > 0 {
      var shared := Rectangle(x, y, width, height);
      assert Pixels(a) * Pixels(b) == Pixels(shared);
      PixelCount(shared);
    } else {
      assert Pixels(a) * Pixels(b) == {};
    }
  }

  /** The first work area of the largest overlap, if any overlaps. */
  ghost predicate Best(bounds: Rectangle, areas: seq<Rectangle>, i: nat)
    requires i < |areas|
  {
    && Overlap(bounds, areas[i]) > 0
    && (forall j :: 0 <= j < |areas| ==> Overlap(bounds, areas[j]) <= Overlap(bounds, areas[i]))
    && (forall j :: 0 <= j < i ==> Overlap(bounds, areas[j]) < Overlap(bounds, areas[i]))
  }

  predicate Inside(a: Rectangle, b: Rectangle) {
    && 0 < a.width && b.x <= a.x && a.x + a.width <= b.x + b.width
    && 0 < a.height && b.y <= a.y && a.y + a.height <= b.y + b.height
  }

  function Distance(a: int, b: int): nat { if a < b then b - a else a - b }

  /** As much of the size as the area has room for, at the nearest place. */
  ghost predicate Nearest(r: Rectangle, bounds: Rectangle, area: Rectangle) {
    && Inside(r, area)
    && r.width == Min(bounds.width, area.width) && r.height == Min(bounds.height, area.height)
    && (forall x :: area.x <= x && x + r.width <= area.x + area.width ==>
      Distance(r.x, bounds.x) <= Distance(x, bounds.x))
    && (forall y :: area.y <= y && y + r.height <= area.y + area.height ==>
      Distance(r.y, bounds.y) <= Distance(y, bounds.y))
  }

  method WindowStateOnScreen(state: State, workAreas: seq<Rectangle>) returns (restored: Option<State>)
    ensures restored.None? <==> forall i :: 0 <= i < |workAreas| ==> Overlap(state.bounds, workAreas[i]) == 0
    ensures restored.Some? ==>
      && restored.value.maximized == state.maximized && restored.value.fullscreen == state.fullscreen
      && exists i :: 0 <= i < |workAreas| && Best(state.bounds, workAreas, i)
           && Nearest(restored.value.bounds, state.bounds, workAreas[i])
  {
    var area: Option<nat> := None;
    var overlapWithArea := 0;
    for i := 0 to |workAreas|
      invariant area.None? ==> overlapWithArea == 0
      invariant area.Some? ==> area.value < i && overlapWithArea == Overlap(state.bounds, workAreas[area.value]) > 0
      invariant forall j :: 0 <= j < i ==> Overlap(state.bounds, workAreas[j]) <= overlapWithArea
      invariant area.Some? ==> forall j :: 0 <= j < area.value ==> Overlap(state.bounds, workAreas[j]) < overlapWithArea
    {
      var shared := Overlap(state.bounds, workAreas[i]);
      if shared > overlapWithArea {
        area := Some(i);
        overlapWithArea := shared;
      }
    }
    if area.None? { return None; }
    var chosen := workAreas[area.value];
    var width := Min(state.bounds.width, chosen.width);
    var height := Min(state.bounds.height, chosen.height);
    var x := Min(Max(state.bounds.x, chosen.x), chosen.x + chosen.width - width);
    var y := Min(Max(state.bounds.y, chosen.y), chosen.y + chosen.height - height);
    restored := Some(state.(bounds := Rectangle(x, y, width, height)));
    assert Best(state.bounds, workAreas, area.value);
    assert Nearest(restored.value.bounds, state.bounds, chosen);
  }

  // ---- the place is unique, and restoring again changes nothing ----

  lemma BestIsUnique(bounds: Rectangle, areas: seq<Rectangle>, i: nat, j: nat)
    requires i < |areas| && j < |areas| && Best(bounds, areas, i) && Best(bounds, areas, j)
    ensures i == j
  {
  }

  lemma NearestCoordinate(at: int, other: int, wanted: int, low: int, high: int)
    requires low <= at <= high && low <= other <= high
    requires forall x :: low <= x <= high ==> Distance(at, wanted) <= Distance(x, wanted)
    requires forall x :: low <= x <= high ==> Distance(other, wanted) <= Distance(x, wanted)
    ensures at == other
  {
    assert Distance(at, wanted) <= Distance(other, wanted) <= Distance(at, wanted);
    if low <= wanted <= high { assert Distance(at, wanted) <= Distance(wanted, wanted); }
  }

  lemma NearestIsUnique(r: Rectangle, s: Rectangle, bounds: Rectangle, area: Rectangle)
    requires Nearest(r, bounds, area) && Nearest(s, bounds, area)
    ensures r == s
  {
    NearestCoordinate(r.x, s.x, bounds.x, area.x, area.x + area.width - r.width);
    NearestCoordinate(r.y, s.y, bounds.y, area.y, area.y + area.height - r.height);
  }

  lemma ProductGrows(a: nat, b: nat, c: nat, d: nat)
    requires a <= c && b <= d && 0 < c && 0 < d
    ensures Product(a, b) <= Product(c, d)
    ensures Product(a, b) == Product(c, d) ==> a == c && b == d
  {
    assert Product(a, b) <= a * d && (b < d && 0 < a ==> Product(a, b) < a * d);
    assert a * d <= c * d && (a < c ==> a * d < c * d);
  }

  /** A rectangle overlaps nothing more than itself, and only what contains it as much as that. */
  lemma OverlapOfInside(r: Rectangle, area: Rectangle)
    requires 0 < r.width && 0 < r.height
    ensures Overlap(r, area) <= Product(r.width, r.height)
    ensures Overlap(r, area) == Product(r.width, r.height) <==> Inside(r, area)
  {
    var width := Min(r.x + r.width, area.x + area.width) - Max(r.x, area.x);
    var height := Min(r.y + r.height, area.y + area.height) - Max(r.y, area.y);
    ProductGrows(if width > 0 then width else 0, if height > 0 then height else 0, r.width, r.height);
    ProductGrows(0, 0, r.width, r.height);
  }

  /** A restored window lies in a best area of its own bounds, and is nearest to itself there. */
  lemma RestoringAgainChangesNothing(r: Rectangle, again: Rectangle, areas: seq<Rectangle>, i: nat, j: nat)
    requires i < |areas| && j < |areas| && Inside(r, areas[i])
    requires Best(r, areas, j) && Nearest(again, r, areas[j])
    ensures again == r
  {
    OverlapOfInside(r, areas[i]);
    OverlapOfInside(r, areas[j]);
    assert Nearest(r, r, areas[j]);
    NearestIsUnique(again, r, r, areas[j]);
  }

  lemma RestoredOverlaps(r: Rectangle, bounds: Rectangle, area: Rectangle)
    requires Nearest(r, bounds, area)
    ensures Inside(r, area) && Overlap(r, area) > 0
  {
    OverlapOfInside(r, area);
    assert r.width * r.height > 0;
  }

  method RestoreTwice(state: State, workAreas: seq<Rectangle>) returns (once: Option<State>, twice: Option<State>)
    ensures once.Some? ==> twice == once
  {
    hide Overlap, Nearest, Best, Inside;
    once := WindowStateOnScreen(state, workAreas);
    twice := None;
    if once.Some? {
      var r := once.value.bounds;
      ghost var i :| 0 <= i < |workAreas| && Best(state.bounds, workAreas, i) && Nearest(r, state.bounds, workAreas[i]);
      RestoredOverlaps(r, state.bounds, workAreas[i]);
      twice := WindowStateOnScreen(once.value, workAreas);
      ghost var j :| 0 <= j < |workAreas| && Best(r, workAreas, j) && Nearest(twice.value.bounds, r, workAreas[j]);
      RestoringAgainChangesNothing(r, twice.value.bounds, workAreas, i, j);
    }
  }
}

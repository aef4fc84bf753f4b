/** Where a window is launched: clamped into the work area it overlaps most. */
module WindowPlacement {
  import opened Option

  datatype Bounds = Bounds(x: int, y: int, width: int, height: int)
  datatype WindowState = WindowState(normalBounds: Bounds, isMaximized: bool)
  datatype Placement = Placement(bounds: Option<Bounds>, maximize: bool)

  const MIN_WIDTH := 512
  const MIN_HEIGHT := 520

  function Min(a: int, b: int): int { if a < b then a else b }
  function Max(a: int, b: int): int { if a > b then a else b }

  /** The length two intervals share. */
  function Shared(x: int, w: int, u: int, v: int): int { Max(0, Min(x + w, u + v) - Max(x, u)) }

  function OverlapWidth(b: Bounds, area: Bounds): int { Shared(b.x, b.width, area.x, area.width) }
  function OverlapHeight(b: Bounds, area: Bounds): int { Shared(b.y, b.height, area.y, area.height) }
  function Overlap(b: Bounds, area: Bounds): int { OverlapWidth(b, area) * OverlapHeight(b, area) }

  predicate Inside(b: Bounds, area: Bounds) {
    && area.x <= b.x && b.x + b.width <= area.x + area.width
    && area.y <= b.y && b.y + b.height <= area.y + area.height
  }

  predicate AtLeastMinimum(b: Bounds) { b.width >= MIN_WIDTH && b.height >= MIN_HEIGHT }

  /** The first of the work areas of greatest overlap. */
  predicate Best(areas: seq<Bounds>, b: Bounds, i: int) {
    && 0 <= i < |areas|
    && (forall k :: 0 <= k < |areas| ==> Overlap(b, areas[k]) <= Overlap(b, areas[i]))
    && (forall k :: 0 <= k < i ==> Overlap(b, areas[k]) < Overlap(b, areas[i]))
  }

  /** Enough of the window shows in a work area large enough to hold one. */
  predicate Placeable(b: Bounds, area: Bounds) {
    && OverlapWidth(b, area) >= 100 && OverlapHeight(b, area) >= 40
    && area.width >= MIN_WIDTH && area.height >= MIN_HEIGHT
  }

  function Clamped(b: Bounds, area: Bounds): Bounds {
    var width := Min(Max(b.width, MIN_WIDTH), area.width);
    var height := Min(Max(b.height, MIN_HEIGHT), area.height);
    Bounds(Min(Max(b.x, area.x), area.x + area.width - width), Min(Max(b.y, area.y), area.y + area.height - height),
           width, height)
  }

  method Resolve(persisted: Option<WindowState>, areas: seq<Bounds>) returns (r: Placement)
    ensures persisted.None? || areas == [] ==> r == Placement(None, false)
    ensures persisted.Some? && areas != [] ==>
              var b := persisted.value.normalBounds;
              && r.maximize == persisted.value.isMaximized
              && exists i :: Best(areas, b, i)
                             && r.bounds == if Placeable(b, areas[i]) then Some(Clamped(b, areas[i])) else None
  {
    if persisted.None? || areas == [] {
      return Placement(None, false);
    }
    var b := persisted.value.normalBounds;
    var best := 0;
    var bestWidth, bestHeight := OverlapWidth(b, areas[0]), OverlapHeight(b, areas[0]);
    for n := 1 to |areas|
      invariant 0 <= best < n
      invariant bestWidth == OverlapWidth(b, areas[best]) && bestHeight == OverlapHeight(b, areas[best])
      invariant forall k :: 0 <= k < n ==> Overlap(b, areas[k]) <= Overlap(b, areas[best])
      invariant forall k :: 0 <= k < best ==> Overlap(b, areas[k]) < Overlap(b, areas[best])
    {
      var width, height := OverlapWidth(b, areas[n]), OverlapHeight(b, areas[n]);
      if width * height > bestWidth * bestHeight {
        best, bestWidth, bestHeight := n, width, height;
      }
    }
    assert Best(areas, b, best);
    if !Placeable(b, areas[best]) {
      return Placement(None, persisted.value.isMaximized);
    }
    return Placement(Some(Clamped(b, areas[best])), persisted.value.isMaximized);
  }

  /** A placed window lies wholly inside its work area and is at least of the minimum size. */
  lemma PlacedInside(b: Bounds, area: Bounds)
    requires Placeable(b, area)
    ensures Inside(Clamped(b, area), area) && AtLeastMinimum(Clamped(b, area))
  {
  }

  /** Equal areas of two rectangles, one within the other's sides, are equal side by side. */
  lemma EqualSides(w: int, h: int, w': int, h': int)
    requires 0 <= w' <= w && 0 <= h' <= h && 0 < w && 0 < h && w' * h' == w * h
    ensures w' == w && h' == h
  {
    if w' < w {
      assert w' * h' <= w' * h by {
        Scale(w', h', h);
      }
      assert w' * h < w * h by {
        ScaleStrictly(h, w', w);
      }
    } else if h' < h {
      ScaleStrictly(w, h', h);
    }
  }

  lemma Scale(a: int, b: int, c: int)
    requires 0 <= a && b <= c
    ensures a * b <= a * c
  {
  }

  lemma ScaleStrictly(a: int, b: int, c: int)
    requires 0 < a && b < c
    ensures b * a < c * a && a * b < a * c
  {
  }

  /** No area overlaps a window by more than the window, and by as much only when it holds it. */
  lemma OverlapAtMostWhole(b: Bounds, area: Bounds)
    requires b.width > 0 && b.height > 0
    ensures Overlap(b, area) <= b.width * b.height
    ensures Overlap(b, area) == b.width * b.height <==> Inside(b, area)
  {
    var w, h := OverlapWidth(b, area), OverlapHeight(b, area);
    assert 0 <= w <= b.width && 0 <= h <= b.height;
    Scale(w, h, b.height);
    Scale(b.height, w, b.width);
    if Overlap(b, area) == b.width * b.height {
      EqualSides(b.width, b.height, w, h);
    }
  }

  /** Placing a placed window again, over work areas that may overlap each other, leaves it where it is. */
  lemma PlacingIsIdempotent(areas: seq<Bounds>, b: Bounds, i: int, j: int)
    requires Best(areas, b, i) && Placeable(b, areas[i])
    requires Best(areas, Clamped(b, areas[i]), j)
    ensures Placeable(Clamped(b, areas[i]), areas[j])
    ensures Clamped(Clamped(b, areas[i]), areas[j]) == Clamped(b, areas[i])
  {
    var placed := Clamped(b, areas[i]);
    PlacedInside(b, areas[i]);
    OverlapAtMostWhole(placed, areas[i]);
    OverlapAtMostWhole(placed, areas[j]);
    assert Overlap(placed, areas[i]) <= Overlap(placed, areas[j]);
  }

  /** The same of the method: a second launch over the same work areas gives the same bounds. */
  method LaunchTwice(persisted: WindowState, areas: seq<Bounds>) returns (first: Placement, second: Placement)
    ensures first.bounds.Some? ==> second == first
    ensures first.bounds.Some? ==> AtLeastMinimum(first.bounds.value)
    ensures first.bounds.Some? ==>
              exists i :: Best(areas, persisted.normalBounds, i) && Inside(first.bounds.value, areas[i])
  {
    first := Resolve(Some(persisted), areas);
    if first.bounds.None? {
      return first, first;
    }
    second := Resolve(Some(WindowState(first.bounds.value, first.maximize)), areas);
    var b := persisted.normalBounds;
    ghost var i :| Best(areas, b, i) && first.bounds == (if Placeable(b, areas[i]) then Some(Clamped(b, areas[i])) else None);
    ghost var j :| Best(areas, first.bounds.value, j)
      && second.bounds == (if Placeable(first.bounds.value, areas[j]) then Some(Clamped(first.bounds.value, areas[j])) else None);
    PlacedInside(b, areas[i]);
    PlacingIsIdempotent(areas, b, i, j);
  }

  // ---------------------------------------------------------------- what overlap and placement mean

  /** The shared length of two intervals counts the points they have in common, which are consecutive. */
  lemma SharedArePoints(x: int, w: int, u: int, v: int, i: int)
    requires 0 <= w && 0 <= v
    ensures x <= i < x + w && u <= i < u + v <==> Max(x, u) <= i < Max(x, u) + Shared(x, w, u, v)
  {
  }

  function Distance(a: int, b: int): int { if a < b then b - a else a - b }

  /**
    A placement is the nearest: among the windows of the minimum size at least that lie in the work area none has a width
    or height nearer to the one asked for, and of the windows of its size none is nearer in either direction. So a window
    that fits already is left as it is.
   */
  lemma ClampedIsNearest(b: Bounds, area: Bounds, other: Bounds)
    requires Placeable(b, area) && Inside(other, area) && AtLeastMinimum(other)
    ensures var placed := Clamped(b, area);
            && Distance(placed.width, b.width) <= Distance(other.width, b.width)
            && Distance(placed.height, b.height) <= Distance(other.height, b.height)
            && (other.width == placed.width ==> Distance(placed.x, b.x) <= Distance(other.x, b.x))
            && (other.height == placed.height ==> Distance(placed.y, b.y) <= Distance(other.y, b.y))
    ensures Inside(b, area) && AtLeastMinimum(b) <==> Clamped(b, area) == b
  {
  }
}

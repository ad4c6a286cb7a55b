/** Geometry of WRF nested grids in projected (Lambert conformal) metres:
    the extent of every domain computed from the geogrid lists, Python 2
    rounding, the snapping of projected corners to parent grid indices and
    the nesting rule that sizes a child domain. The projection itself is not
    modelled: the nest-placement functions take projected coordinates. */
module Geometry {
  import opened Values

  /** The geogrid description the extent loop reads: per domain the 1-based
      parent id, the refinement ratio, the lower-left corner in parent grid
      indices and the grid-point extents, plus the root spacing. */
  datatype Grid = Grid(
    maxDom: nat,
    parentId: seq<int>,
    ratio: seq<int>,
    iStart: seq<int>,
    jStart: seq<int>,
    eWe: seq<int>,
    eSn: seq<int>,
    dx: real,
    dy: real)

  /** Every list the extent loop reads covers max_dom domains: e_we and
      e_sn always, the lists describing nests only when there is a nest. */
  predicate Covers(g: Grid)
  {
    && |g.eWe| >= g.maxDom && |g.eSn| >= g.maxDom
    && (g.maxDom >= 2 ==>
         && |g.parentId| >= g.maxDom && |g.ratio| >= g.maxDom
         && |g.iStart| >= g.maxDom && |g.jStart| >= g.maxDom)
  }

  /** Each nest's parent has a smaller index, so the extent loop has already
      computed it when the nest's turn comes. The loop does not check this:
      with a later parent it silently reads a zero placeholder. */
  predicate ParentsPrecede(g: Grid)
    requires Covers(g)
  {
    forall d :: 1 <= d < g.maxDom ==> 1 <= g.parentId[d] <= d
  }

  /** No refinement ratio among the nests 1 .. n - 1 is zero. */
  predicate RatiosNonzero(g: Grid, n: nat)
    requires Covers(g) && n <= g.maxDom
  {
    forall d :: 1 <= d < n ==> g.ratio[d] != 0
  }

  /** What the extent loop needs to run to the end. */
  predicate WellFormed(g: Grid)
  {
    Covers(g) && ParentsPrecede(g) && RatiosNonzero(g, g.maxDom)
  }

  /** Every list holds exactly one entry per domain. */
  predicate Consistent(g: Grid)
  {
    && |g.parentId| == g.maxDom && |g.ratio| == g.maxDom
    && |g.iStart| == g.maxDom && |g.jStart| == g.maxDom
    && |g.eWe| == g.maxDom && |g.eSn| == g.maxDom
  }

  /** Edges of one domain in projected metres, and its grid spacing. */
  datatype Extent = Extent(west: real, east: real, north: real, south: real, dx: real, dy: real)

  /** The six lists parsenl returns, indexed by domain. */
  datatype Extents = Extents(west: seq<real>, east: seq<real>, north: seq<real>,
                             south: seq<real>, dx: seq<real>, dy: seq<real>)

  /** 0-based index of the parent of nest d. */
  function Parent(g: Grid, d: nat): (p: nat)
    requires Covers(g) && ParentsPrecede(g) && 1 <= d < g.maxDom
    ensures p < d
  {
    g.parentId[d] - 1
  }

  /** The coordinate of the 1-based grid point index on an axis whose first
      grid point is at origin and whose points are spacing apart. */
  function GridPoint(origin: real, index: int, spacing: real): real
  {
    origin + ((index - 1) as real) * spacing
  }

  /** The root domain: centred on the projection origin, spanning
      e_we - 1 by e_sn - 1 cells of the configured spacing. */
  function RootExtent(dx: real, dy: real, eWe: int, eSn: int): Extent
  {
    Extent(-dx * ((eWe - 1) as real) * 0.5,
           dx * ((eWe - 1) as real) * 0.5,
           dy * ((eSn - 1) as real) * 0.5,
           -dy * ((eSn - 1) as real) * 0.5,
           dx, dy)
  }

  /** A nest of the parent extent pe: its south-west corner is parent grid
      point (iStart, jStart), and its spacing is the parent's divided by
      the ratio. */
  function ChildExtent(pe: Extent, iStart: int, jStart: int, ratio: int, eWe: int, eSn: int): Extent
    requires ratio != 0
  {
    var west := GridPoint(pe.west, iStart, pe.dx);
    var south := GridPoint(pe.south, jStart, pe.dy);
    var dx := pe.dx / (ratio as real);
    var dy := pe.dy / (ratio as real);
    Extent(west, GridPoint(west, eWe, dx), GridPoint(south, eSn, dy), south, dx, dy)
  }

  /** The extent of domain d, following the chain of parents to the root. */
  function DomainExtent(g: Grid, d: nat): Extent
    requires Covers(g) && ParentsPrecede(g) && d < g.maxDom && RatiosNonzero(g, d + 1)
    decreases d
  {
    if d == 0 then RootExtent(g.dx, g.dy, g.eWe[0], g.eSn[0])
    else ChildExtent(DomainExtent(g, Parent(g, d)), g.iStart[d], g.jStart[d],
                     g.ratio[d], g.eWe[d], g.eSn[d])
  }

  /** The extent loop of parsenl: six lists preallocated with zeros and
      filled in domain order, each nest reading its parent's entries. A zero
      refinement ratio stops the loop with a division by zero. */
  method ParseExtents(g: Grid) returns (r: Result<Extents>)
    requires Covers(g) && ParentsPrecede(g)
    ensures r.Ok? <==> RatiosNonzero(g, g.maxDom)
    ensures r.Err? ==> r.error == ZeroDivision
    ensures r.Ok? ==>
      var x := r.value;
      && |x.west| == |x.east| == |x.north| == |x.south| == |x.dx| == |x.dy| == g.maxDom
      && forall d :: 0 <= d < g.maxDom ==>
           Extent(x.west[d], x.east[d], x.north[d], x.south[d], x.dx[d], x.dy[d]) == DomainExtent(g, d)
  {
    var n := g.maxDom;
    var west, east, north, south := seq(n, _ => 0.0), seq(n, _ => 0.0), seq(n, _ => 0.0), seq(n, _ => 0.0);
    var dx, dy := seq(n, _ => 0.0), seq(n, _ => 0.0);
    for d := 0 to n
      invariant |west| == |east| == |north| == |south| == |dx| == |dy| == n
      invariant RatiosNonzero(g, d)
      invariant ExtentsUpTo(g, d, west, east, north, south, dx, dy)
    {
      var ext: Extent;
      if d == 0 {
        ext := RootExtent(g.dx, g.dy, g.eWe[0], g.eSn[0]);
      } else {
        var p := g.parentId[d] - 1;
        var pe := Extent(west[p], east[p], north[p], south[p], dx[p], dy[p]);
        if g.ratio[d] == 0 {
          return Err(ZeroDivision);
        }
        ext := ChildExtent(pe, g.iStart[d], g.jStart[d], g.ratio[d], g.eWe[d], g.eSn[d]);
        ExtentFromParent(g, d, pe);
      }
      ExtentsExtended(g, d, west, east, north, south, dx, dy, ext);
      west, east, north, south := west[d := ext.west], east[d := ext.east], north[d := ext.north], south[d := ext.south];
      dx, dy := dx[d := ext.dx], dy[d := ext.dy];
    }
    return Ok(Extents(west, east, north, south, dx, dy));
  }

  /** The first d entries of the six lists hold the extents of domains 0 .. d - 1. */
  predicate ExtentsUpTo(g: Grid, d: nat, west: seq<real>, east: seq<real>, north: seq<real>,
                        south: seq<real>, dx: seq<real>, dy: seq<real>)
    requires Covers(g) && ParentsPrecede(g) && d <= g.maxDom && RatiosNonzero(g, d)
  {
    && d <= |west| && d <= |east| && d <= |north| && d <= |south| && d <= |dx| && d <= |dy|
    && forall k :: 0 <= k < d ==>
         Extent(west[k], east[k], north[k], south[k], dx[k], dy[k]) == DomainExtent(g, k)
  }

  lemma ExtentsExtended(g: Grid, d: nat, west: seq<real>, east: seq<real>, north: seq<real>,
                        south: seq<real>, dx: seq<real>, dy: seq<real>, ext: Extent)
    requires Covers(g) && ParentsPrecede(g) && d < g.maxDom && RatiosNonzero(g, d + 1)
    requires d < |west| && d < |east| && d < |north| && d < |south| && d < |dx| && d < |dy|
    requires ExtentsUpTo(g, d, west, east, north, south, dx, dy)
    requires ext == DomainExtent(g, d)
    ensures ExtentsUpTo(g, d + 1, west[d := ext.west], east[d := ext.east], north[d := ext.north],
                        south[d := ext.south], dx[d := ext.dx], dy[d := ext.dy])
  {
  }

  /** One step of the extent loop: a nest's extent is computed from its
      parent's alone. */
  lemma ExtentFromParent(g: Grid, d: nat, pe: Extent)
    requires Covers(g) && ParentsPrecede(g) && 1 <= d < g.maxDom && RatiosNonzero(g, d + 1)
    requires pe == DomainExtent(g, Parent(g, d))
    ensures ChildExtent(pe, g.iStart[d], g.jStart[d], g.ratio[d], g.eWe[d], g.eSn[d]) == DomainExtent(g, d)
  {
  }

  /** The product of the refinement ratios from the root down to domain d. */
  function AncestorRatio(g: Grid, d: nat): (r: int)
    requires WellFormed(g) && d < g.maxDom
    ensures r != 0
    decreases d
  {
    if d == 0 then 1 else g.ratio[d] * AncestorRatio(g, Parent(g, d))
  }

  lemma DivideTwice(x: real, a: real, b: real)
    requires a != 0.0 && b != 0.0
    ensures x / a / b == x / (b * a)
  {
  }

  /** The spacing of any domain is the root spacing divided by the product
      of the ratios along its chain of ancestors. */
  lemma {:induction false} SpacingAlongChain(g: Grid, d: nat)
    requires WellFormed(g) && d < g.maxDom
    ensures DomainExtent(g, d).dx == g.dx / (AncestorRatio(g, d) as real)
    ensures DomainExtent(g, d).dy == g.dy / (AncestorRatio(g, d) as real)
    decreases d
  {
    if d > 0 {
      var p := Parent(g, d);
      SpacingAlongChain(g, p);
      var a := AncestorRatio(g, p) as real;
      var r := g.ratio[d] as real;
      DivideTwice(g.dx, a, r);
      DivideTwice(g.dy, a, r);
      assert (g.ratio[d] * AncestorRatio(g, p)) as real == r * a;
    }
  }

  /** No domain has zero spacing when the root has none. */
  lemma SpacingNonzero(g: Grid, d: nat)
    requires WellFormed(g) && d < g.maxDom
    requires g.dx != 0.0 && g.dy != 0.0
    ensures DomainExtent(g, d).dx != 0.0 && DomainExtent(g, d).dy != 0.0
  {
    SpacingAlongChain(g, d);
  }

  /** The root domain is symmetric about the projection origin and spans
      e_we - 1 by e_sn - 1 cells of the configured spacing. */
  lemma RootCentered(g: Grid)
    requires WellFormed(g) && g.maxDom >= 1
    ensures var e := DomainExtent(g, 0);
      && e.west == -e.east && e.south == -e.north
      && e.east - e.west == g.dx * ((g.eWe[0] - 1) as real)
      && e.north - e.south == g.dy * ((g.eSn[0] - 1) as real)
      && e.dx == g.dx && e.dy == g.dy
  {
  }

  /** A nest's spacing times its ratio is its parent's spacing; its south-west
      corner lies on parent grid point (i_parent_start, j_parent_start); it
      spans e_we - 1 by e_sn - 1 of its own cells. */
  lemma NestFromParent(g: Grid, d: nat)
    requires WellFormed(g) && 1 <= d < g.maxDom
    ensures var e := DomainExtent(g, d);
      var pe := DomainExtent(g, Parent(g, d));
      && e.dx * (g.ratio[d] as real) == pe.dx
      && e.dy * (g.ratio[d] as real) == pe.dy
      && e.west == GridPoint(pe.west, g.iStart[d], pe.dx)
      && e.south == GridPoint(pe.south, g.jStart[d], pe.dy)
      && e.east == GridPoint(e.west, g.eWe[d], e.dx)
      && e.north == GridPoint(e.south, g.eSn[d], e.dy)
  {
    var pe := DomainExtent(g, Parent(g, d));
    DivThenMul(pe.dx, g.ratio[d] as real);
    DivThenMul(pe.dy, g.ratio[d] as real);
  }

  lemma DivThenMul(x: real, r: real)
    requires r != 0.0
    ensures (x / r) * r == x
  {
  }

  /** Python 2's round() on a float, truncated to int: the nearest integer,
      halves rounded away from zero. */
  function PyRound(x: real): (k: int)
    ensures x - 0.5 <= k as real <= x + 0.5
    ensures k as real == x + 0.5 ==> x > 0.0
    ensures k as real == x - 0.5 ==> x < 0.0
  {
    if x >= 0.0 then (x + 0.5).Floor else -((-x + 0.5).Floor)
  }

  /** Rounding an integer gives it back. */
  lemma PyRoundOfInteger(k: int)
    ensures PyRound(k as real) == k
  {
    var r := PyRound(k as real);
    assert r - 1 < k < r + 1;
  }

  /** Rounding commutes with negation (a consequence of halves going away
      from zero). */
  lemma PyRoundOdd(x: real)
    ensures PyRound(-x) == -PyRound(x)
  {
    var a, b := PyRound(-x), PyRound(x);
    assert -a - 1 < b < -a + 1;
  }

  /** The 1-based index of the parent grid point nearest to the projected
      coordinate c on an axis whose first grid point is at edge. */
  function GridIndex(c: real, edge: real, spacing: real): int
    requires spacing != 0.0
  {
    PyRound((c - edge) / spacing) + 1
  }

  /** A coordinate that lies exactly on grid point k gets index k back. */
  lemma GridIndexOfGridPoint(edge: real, spacing: real, k: int)
    requires spacing != 0.0
    ensures GridIndex(GridPoint(edge, k, spacing), edge, spacing) == k
  {
    assert (GridPoint(edge, k, spacing) - edge) / spacing == (k - 1) as real;
    PyRoundOfInteger(k - 1);
  }

  function Abs(x: real): real
  {
    if x < 0.0 then -x else x
  }

  /** The grid point chosen for c is at most half a parent cell away from c. */
  lemma GridIndexNearest(c: real, edge: real, spacing: real)
    requires spacing != 0.0
    ensures Abs(GridPoint(edge, GridIndex(c, edge, spacing), spacing) - c) <= Abs(spacing) / 2.0
  {
    var t := (c - edge) / spacing;
    var k := PyRound(t);
    DivThenMul(c - edge, spacing);
    var d := (k as real) - t;
    assert d * spacing == (k as real) * spacing - t * spacing;
    assert GridPoint(edge, GridIndex(c, edge, spacing), spacing) - c == d * spacing;
    HalfBound(d, spacing);
  }

  lemma HalfBound(d: real, s: real)
    requires -0.5 <= d <= 0.5
    ensures Abs(d * s) <= Abs(s) / 2.0
  {
    var a := Abs(s);
    NonnegativeProduct(d + 0.5, a);
    NonnegativeProduct(0.5 - d, a);
    assert (d + 0.5) * a == d * a + 0.5 * a;
    assert (0.5 - d) * a == 0.5 * a - d * a;
    assert Abs(d * s) == Abs(d * a);
  }

  lemma NonnegativeProduct(x: real, y: real)
    requires x >= 0.0 && y >= 0.0
    ensures x * y >= 0.0
  {
  }

  /** WRF's nesting rule: a nest spanning end - start parent cells, refined
      by ratio, has (end - start) * ratio + 1 grid points, so that its
      boundary points are parent grid points. */
  function NestExtent(start: int, end: int, ratio: int): int
  {
    (end - start) * ratio + 1
  }

  /** Python 2's integer division, which rounds toward minus infinity. */
  function FloorDiv(a: int, b: int): (q: int)
    requires b != 0
    ensures b > 0 ==> b * q <= a < b * q + b
    ensures b < 0 ==> b * q >= a > b * q + b
  {
    if b > 0 then a / b else (-a) / (-b)
  }

  /** The parent grid index of a nest's far edge, as printgrids reports it:
      i_parent_start + (e_we - 1) / parent_grid_ratio. */
  function ParentEnd(start: int, extent: int, ratio: int): int
    requires ratio != 0
  {
    start + FloorDiv(extent - 1, ratio)
  }

  lemma MulAtLeast(b: int, t: int)
    requires b > 0 && t >= 1
    ensures b * t >= b
  {
    var u := t - 1;
    assert b * t == b * u + b;
    assert b * u >= 0;
  }

  lemma ProductPinned(b: int, t: int)
    requires b > 0 && 0 <= b * t < b
    ensures t == 0
  {
    if t >= 1 {
      MulAtLeast(b, t);
    } else if t <= -1 {
      MulAtLeast(b, -t);
    }
  }

  lemma FloorDivExact(m: int, b: int)
    requires b != 0
    ensures FloorDiv(m * b, b) == m
  {
    var q := FloorDiv(m * b, b);
    var t := m - q;
    MulDistributes(b, m, q);
    if b > 0 {
      ProductPinned(b, t);
    } else {
      MulDistributes(-b, q, m);
      ProductPinned(-b, -t);
    }
  }

  lemma MulDistributes(b: int, m: int, q: int)
    ensures b * (m - q) == m * b - b * q
  {
  }

  lemma MultipleModZero(m: int, r: int)
    requires r != 0
    ensures (m * r) % r == 0
  {
    var q := (m * r) / r;
    var k := (m * r) % r;
    assert m * r == r * q + k;
    var t := m - q;
    assert r * t == k;
    if r > 0 {
      ProductPinned(r, t);
    } else if t >= 1 {
      MulAtLeast(-r, t);
    } else if t <= -1 {
      MulAtLeast(-r, -t);
    }
  }

  /** A nest sized by the nesting rule has e - 1 divisible by the ratio,
      and its parent end index is the end index it was sized from. */
  lemma NestExtentRoundTrip(start: int, end: int, ratio: int)
    requires ratio != 0
    ensures (NestExtent(start, end, ratio) - 1) % ratio == 0
    ensures ParentEnd(start, NestExtent(start, end, ratio), ratio) == end
  {
    assert NestExtent(start, end, ratio) - 1 == (end - start) * ratio;
    FloorDivExact(end - start, ratio);
    MultipleModZero(end - start, ratio);
  }

  /** A requested box in projected metres: lower-left (xs, ys), upper-right (xe, ye). */
  datatype Box = Box(xs: real, ys: real, xe: real, ye: real)

  /** The box of sizex by sizey kilometres centred on the projected point (x, y). */
  function CenteredBox(x: real, y: real, sizex: real, sizey: real): (b: Box)
    ensures (b.xs + b.xe) / 2.0 == x && (b.ys + b.ye) / 2.0 == y
    ensures b.xe - b.xs == sizex * 1000.0 && b.ye - b.ys == sizey * 1000.0
  {
    Box(x - 0.5 * sizex * 1000.0, y - 0.5 * sizey * 1000.0,
        x + 0.5 * sizex * 1000.0, y + 0.5 * sizey * 1000.0)
  }

  /** Where a new nest goes in its parent: lower-left parent indices and
      grid-point extents. */
  datatype Placement = Placement(iStart: int, jStart: int, eWe: int, eSn: int)

  /** Snap the box corners to parent grid indices and size the nest by the
      nesting rule. */
  function PlaceNest(parent: Extent, ratio: int, box: Box): Placement
    requires parent.dx != 0.0 && parent.dy != 0.0
  {
    var si := GridIndex(box.xs, parent.west, parent.dx);
    var sj := GridIndex(box.ys, parent.south, parent.dy);
    var ei := GridIndex(box.xe, parent.west, parent.dx);
    var ej := GridIndex(box.ye, parent.south, parent.dy);
    Placement(si, sj, NestExtent(si, ei, ratio), NestExtent(sj, ej, ratio))
  }

  /** The grid with one more domain appended after the existing ones. */
  function WithNest(g: Grid, parentId: int, ratio: int, pl: Placement): Grid
  {
    g.(maxDom := g.maxDom + 1,
       parentId := g.parentId + [parentId],
       ratio := g.ratio + [ratio],
       iStart := g.iStart + [pl.iStart],
       jStart := g.jStart + [pl.jStart],
       eWe := g.eWe + [pl.eWe],
       eSn := g.eSn + [pl.eSn])
  }

  lemma WithNestWellFormed(g: Grid, parentId: int, ratio: int, pl: Placement)
    requires WellFormed(g) && Consistent(g)
    requires 1 <= parentId <= g.maxDom && ratio != 0
    ensures WellFormed(WithNest(g, parentId, ratio, pl)) && Consistent(WithNest(g, parentId, ratio, pl))
  {
    var g' := WithNest(g, parentId, ratio, pl);
    forall d | 1 <= d < g'.maxDom
      ensures 1 <= g'.parentId[d] <= d && g'.ratio[d] != 0
    {
      if d < g.maxDom {
        assert g'.parentId[d] == g.parentId[d] && g'.ratio[d] == g.ratio[d];
      }
    }
  }

  /** Appending a nest leaves the extents of the existing domains alone. */
  lemma {:induction false} ExtentsKeptByNest(g: Grid, parentId: int, ratio: int, pl: Placement, k: nat)
    requires WellFormed(g) && Consistent(g)
    requires 1 <= parentId <= g.maxDom && ratio != 0
    requires k < g.maxDom
    ensures WellFormed(WithNest(g, parentId, ratio, pl))
    ensures DomainExtent(WithNest(g, parentId, ratio, pl), k) == DomainExtent(g, k)
    decreases k
  {
    WithNestWellFormed(g, parentId, ratio, pl);
    if k > 0 {
      ExtentsKeptByNest(g, parentId, ratio, pl, Parent(g, k));
    }
  }

  /** The central property of nest placement: a nest sized by the nesting
      rule from parent indices (si, sj) .. (ei, ej) has all four edges on
      parent grid lines, at exactly those indices. */
  lemma NestOnParentGrid(g: Grid, parentId: int, ratio: int, si: int, sj: int, ei: int, ej: int)
    requires WellFormed(g) && Consistent(g)
    requires 1 <= parentId <= g.maxDom && ratio != 0
    ensures var pl := Placement(si, sj, NestExtent(si, ei, ratio), NestExtent(sj, ej, ratio));
      var g' := WithNest(g, parentId, ratio, pl);
      WellFormed(g') &&
      var e := DomainExtent(g', g.maxDom);
      var pe := DomainExtent(g, parentId - 1);
      && e.west == GridPoint(pe.west, si, pe.dx)
      && e.east == GridPoint(pe.west, ei, pe.dx)
      && e.south == GridPoint(pe.south, sj, pe.dy)
      && e.north == GridPoint(pe.south, ej, pe.dy)
  {
    var pl := Placement(si, sj, NestExtent(si, ei, ratio), NestExtent(sj, ej, ratio));
    ExtentsKeptByNest(g, parentId, ratio, pl, parentId - 1);
    var pe := DomainExtent(g, parentId - 1);
    NestEdgeOnParentGrid(pe.west, pe.dx, si, ei, ratio);
    NestEdgeOnParentGrid(pe.south, pe.dy, sj, ej, ratio);
  }

  /** Along one axis: starting at parent point si and running
      (ei - si) * ratio + 1 points of the refined spacing ends exactly on
      parent point ei. */
  lemma NestEdgeOnParentGrid(origin: real, spacing: real, si: int, ei: int, ratio: int)
    requires ratio != 0
    ensures GridPoint(GridPoint(origin, si, spacing), NestExtent(si, ei, ratio), spacing / (ratio as real))
            == GridPoint(origin, ei, spacing)
  {
    var r := ratio as real;
    ToRealProduct(ei - si, ratio);
    ScaledSpan(ei - si, spacing, r);
    assert ((si - 1) as real) * spacing + ((ei - si) as real) * spacing == ((ei - 1) as real) * spacing;
  }

  lemma ToRealProduct(a: int, b: int)
    ensures (a * b) as real == (a as real) * (b as real)
  {
  }

  /** (m * ratio) child cells of spacing s / ratio cover m parent cells of spacing s. */
  lemma ScaledSpan(m: int, s: real, r: real)
    requires r != 0.0
    ensures ((m as real) * r) * (s / r) == (m as real) * s
  {
  }

  /** A placed nest covers the requested box up to half a parent cell on
      every side, with its edges on parent grid lines. */
  lemma PlacedNestNearBox(g: Grid, parentId: int, ratio: int, box: Box)
    requires WellFormed(g) && Consistent(g)
    requires 1 <= parentId <= g.maxDom && ratio != 0
    requires g.dx != 0.0 && g.dy != 0.0
    ensures var pe := DomainExtent(g, parentId - 1);
      pe.dx != 0.0 && pe.dy != 0.0 &&
      var g' := WithNest(g, parentId, ratio, PlaceNest(pe, ratio, box));
      WellFormed(g') &&
      var e := DomainExtent(g', g.maxDom);
      && Abs(e.west - box.xs) <= Abs(pe.dx) / 2.0
      && Abs(e.east - box.xe) <= Abs(pe.dx) / 2.0
      && Abs(e.south - box.ys) <= Abs(pe.dy) / 2.0
      && Abs(e.north - box.ye) <= Abs(pe.dy) / 2.0
  {
    var pe := DomainExtent(g, parentId - 1);
    SpacingNonzero(g, parentId - 1);
    var si := GridIndex(box.xs, pe.west, pe.dx);
    var sj := GridIndex(box.ys, pe.south, pe.dy);
    var ei := GridIndex(box.xe, pe.west, pe.dx);
    var ej := GridIndex(box.ye, pe.south, pe.dy);
    NestOnParentGrid(g, parentId, ratio, si, sj, ei, ej);
    GridIndexNearest(box.xs, pe.west, pe.dx);
    GridIndexNearest(box.ys, pe.south, pe.dy);
    GridIndexNearest(box.xe, pe.west, pe.dx);
    GridIndexNearest(box.ye, pe.south, pe.dy);
  }

  /** A root of 41 x 41 points at 500 m and a 4 km nest at ratio 5 centred
      on the origin: the nest starts at parent point 17, ends at 25 and has
      41 x 41 points. */
  lemma CenteredScenario()
    ensures var root := Extent(-10000.0, 10000.0, 10000.0, -10000.0, 500.0, 500.0);
      PlaceNest(root, 5, CenteredBox(0.0, 0.0, 4.0, 4.0)) == Placement(17, 17, 41, 41)
  {
    var root := Extent(-10000.0, 10000.0, 10000.0, -10000.0, 500.0, 500.0);
    var b := CenteredBox(0.0, 0.0, 4.0, 4.0);
    assert b == Box(-2000.0, -2000.0, 2000.0, 2000.0);
    GridIndexOfGridPoint(-10000.0, 500.0, 17);
    GridIndexOfGridPoint(-10000.0, 500.0, 25);
  }
}

/** eye_tracking/surface_markers.py: the file names of the surface markers and where
    `draw` places each marker along the four edges of the screen. Loading and blitting the
    images are not modelled; the size of each loaded image is a parameter. */
module SurfaceMarkers {
  import opened Wrappers
  import opened Text

  const DEFAULT_MARKERS: seq<Option<int>> := [Some(42), Some(23), Some(11), Some(7)]
  const DEFAULT_MARKER_PATH := "player/eye_tracking/markers"
  const DEFAULT_MARKER_PREFIX := "marker_"

  /** The marker's file name: the prefix, `format(marker, '02')` and `.png`. */
  function MarkerFileName(prefix: string, marker: int): string {
    prefix + FormatInt02(marker) + ".png"
  }

  /** The markers used: the given list, or the four defaults when none is given. */
  function MarkersOrDefault(markers: Option<seq<Option<int>>>): (ms: seq<Option<int>>)
    ensures markers.None? ==> ms == DEFAULT_MARKERS
    ensures markers.Some? ==> ms == markers.value
  {
    if markers.None? then DEFAULT_MARKERS else markers.value
  }

  /** `marker_paths` of `SurfaceMarkerCreator.__init__`: one entry per marker, `None` for a
      `None` marker, otherwise the marker's file name inside `markerPath`. */
  function MarkerPaths(markers: Option<seq<Option<int>>>, markerPath: string, prefix: string): (paths: seq<Option<string>>)
    ensures var ms := MarkersOrDefault(markers);
      && |paths| == |ms|
      && (forall i :: 0 <= i < |ms| ==> (paths[i].None? <==> ms[i].None?))
      && (forall i :: 0 <= i < |ms| && ms[i].Some? ==>
            var name := MarkerFileName(prefix, ms[i].value);
            && paths[i] == Some(PathJoin(markerPath, name))
            && |paths[i].value| >= |name| && paths[i].value[|paths[i].value| - |name|..] == name)
  {
    var ms := MarkersOrDefault(markers);
    seq(|ms|, i requires 0 <= i < |ms| =>
      if ms[i].Some? then Some(PathJoin(markerPath, MarkerFileName(prefix, ms[i].value))) else None)
  }

  /** Different marker numbers get different files, as long as the prefix does not start an
      absolute path. */
  lemma MarkerFilesDistinct(markerPath: string, prefix: string, m1: int, m2: int)
    requires !StartsWith(prefix, "/")
    requires PathJoin(markerPath, MarkerFileName(prefix, m1)) == PathJoin(markerPath, MarkerFileName(prefix, m2))
    ensures m1 == m2
  {
    MarkerFileNameRelative(prefix, m1);
    MarkerFileNameRelative(prefix, m2);
    PathJoinInjective(markerPath, MarkerFileName(prefix, m1), MarkerFileName(prefix, m2));
    MarkerFileNameInjective(prefix, m1, m2);
  }

  /** A marker file name is relative when its prefix is. */
  lemma MarkerFileNameRelative(prefix: string, m: int)
    requires !StartsWith(prefix, "/")
    ensures !StartsWith(MarkerFileName(prefix, m), "/")
  {
    var f := FormatInt02(m);
    FormatInt02Sign(m);
    assert (f + ".png")[0] == f[0] != '/';
    NotAbsolute(prefix, f + ".png");
    assert MarkerFileName(prefix, m) == prefix + (f + ".png");
  }

  /** The file name determines the marker number. */
  lemma MarkerFileNameInjective(prefix: string, m1: int, m2: int)
    requires MarkerFileName(prefix, m1) == MarkerFileName(prefix, m2)
    ensures m1 == m2
  {
    var f1, f2 := FormatInt02(m1), FormatInt02(m2);
    var n := MarkerFileName(prefix, m1);
    assert |f1| == |f2|;
    assert f1 == n[|prefix|..|prefix| + |f1|];
    assert f2 == n[|prefix|..|prefix| + |f2|];
    FormatInt02Injective(m1, m2);
  }

  /** A name that starts with a relative prefix, or with a digit or sign when the prefix is
      empty, is not an absolute path. */
  lemma NotAbsolute(prefix: string, rest: string)
    requires !StartsWith(prefix, "/")
    requires |rest| >= 1 && rest[0] != '/'
    ensures !StartsWith(prefix + rest, "/")
  {
    if prefix == [] {
      assert prefix + rest == rest;
    } else {
      assert (prefix + rest)[0] == prefix[0];
    }
  }

  /** `markers_count_per_edge`: marker `i` goes to edge `i % 4`. */
  function EdgeCounts(total: nat): (counts: seq<int>)
    ensures |counts| == 4
  {
    seq(4, e => (total + 3 - e) / 4)
  }

  /** Each edge holds the quotient, and the first `total % 4` edges one more. */
  lemma EdgeCountFormula(total: nat, e: nat)
    requires e < 4
    ensures EdgeCounts(total)[e] == total / 4 + (if e < total % 4 then 1 else 0)
  {
    var q, s := total / 4, total % 4;
    assert total + 3 - e == 4 * q + (s + 3 - e);
  }

  /** The number of indices below `total` that fall on edge `e`. */
  function MarkersOnEdge(total: nat, e: nat): nat
    decreases total
  {
    if total == 0 then 0 else MarkersOnEdge(total - 1, e) + (if (total - 1) % 4 == e then 1 else 0)
  }

  /** The count of each edge is the number of markers that `i % 4` sends there. */
  lemma {:induction false} EdgeCountsCountMarkers(total: nat, e: nat)
    requires e < 4
    ensures EdgeCounts(total)[e] == MarkersOnEdge(total, e)
    decreases total
  {
    EdgeCountFormula(total, e);
    if total > 0 {
      EdgeCountsCountMarkers(total - 1, e);
      EdgeCountFormula(total - 1, e);
    }
  }

  /** The counts add up to the number of markers and differ by at most one, the earlier
      edges taking the extra ones. */
  lemma EdgeCountsBalanced(total: nat)
    ensures EdgeCounts(total)[0] + EdgeCounts(total)[1] + EdgeCounts(total)[2] + EdgeCounts(total)[3] == total
    ensures forall e, f :: 0 <= e <= f < 4 ==> 0 <= EdgeCounts(total)[e] - EdgeCounts(total)[f] <= 1
  {
    EdgeCountFormula(total, 0);
    EdgeCountFormula(total, 1);
    EdgeCountFormula(total, 2);
    EdgeCountFormula(total, 3);
  }

  /** Marker `i` is number `i // 4` on its edge, which therefore holds at least that many
      more than one: the division in the offset is never by zero. */
  lemma MarkerFitsOnEdge(i: nat, total: nat)
    requires i < total
    ensures 0 <= i / 4 < EdgeCounts(total)[i % 4]
  {
    EdgeCountFormula(total, i % 4);
  }

  /** The top-left, top-right, bottom-right and bottom-left marker positions, each a border
      (a fifth of the image size) away from the screen edge. */
  function Corners(surface: (int, int), realSize: (nat, nat)): (cs: seq<(int, int)>)
    ensures |cs| == 4
    ensures cs[0].1 == cs[1].1 && cs[1].0 == cs[2].0 && cs[2].1 == cs[3].1 && cs[3].0 == cs[0].0
    ensures cs[0] == (realSize.0 / 5, realSize.1 / 5)
    ensures cs[2] == (surface.0 - realSize.0 - realSize.0 / 5, surface.1 - realSize.1 - realSize.1 / 5)
  {
    var borderX, borderY := realSize.0 / 5, realSize.1 / 5;
    var xLeft, xRight := borderX, surface.0 - realSize.0 - borderX;
    var yTop, yBottom := borderY, surface.1 - realSize.1 - borderY;
    [(xLeft, yTop), (xRight, yTop), (xRight, yBottom), (xLeft, yBottom)]
  }

  /** `off` is `d * k / c` floored to within `k`: at most that value and less than `k` below
      it. Where `d` is positive the marker stops short of the evenly spaced point; on the two
      edges that run in the negative direction it can lie up to `k` pixels beyond it. */
  predicate EvenlySpaced(off: int, d: int, c: int, k: int) {
    off * c <= d * k && (k > 0 ==> d * k < (off + k) * c)
  }

  lemma FloorSpacing(d: int, c: int, k: nat)
    requires c > 0
    ensures EvenlySpaced(d / c * k, d, c, k)
  {
    var q := d / c;
    assert q * c <= d < (q + 1) * c;
    MulLe(q * c, d, k);
    if k > 0 {
      MulLt(d, (q + 1) * c, k);
      assert (q + 1) * c * k == (q * k + k) * c;
    }
    assert q * c * k == (q * k) * c;
  }

  lemma MulLe(a: int, b: int, k: nat)
    requires a <= b
    ensures a * k <= b * k
  {
  }

  lemma MulLt(a: int, b: int, k: nat)
    requires a < b && k > 0
    ensures a * k < b * k
  {
  }

  /** `step` steps of `(next - corner) // count` from `corner` toward `next`. */
  function Step(corner: (int, int), next: (int, int), count: int, step: nat): (p: (int, int))
    requires count > 0
    ensures EvenlySpaced(p.0 - corner.0, next.0 - corner.0, count, step)
    ensures EvenlySpaced(p.1 - corner.1, next.1 - corner.1, count, step)
    ensures corner.0 == next.0 ==> p.0 == corner.0
    ensures corner.1 == next.1 ==> p.1 == corner.1
  {
    var dx, dy := next.0 - corner.0, next.1 - corner.1;
    var ox, oy := dx / count * step, dy / count * step;
    FloorSpacing(dx, count, step);
    FloorSpacing(dy, count, step);
    ZeroStep(dx, count, step);
    ZeroStep(dy, count, step);
    (corner.0 + ox, corner.1 + oy)
  }

  /** The steps along one edge are equally spaced: the first is the corner, and each next
      step lies exactly `(next - corner) // count` further on each axis. */
  lemma StepsEquallySpaced(corner: (int, int), next: (int, int), count: int, step: nat)
    requires count > 0
    ensures Step(corner, next, count, 0) == corner
    ensures Step(corner, next, count, step + 1).0 - Step(corner, next, count, step).0 == (next.0 - corner.0) / count
    ensures Step(corner, next, count, step + 1).1 - Step(corner, next, count, step).1 == (next.1 - corner.1) / count
  {
    var qx, qy := (next.0 - corner.0) / count, (next.1 - corner.1) / count;
    assert qx * (step + 1) == qx * step + qx;
    assert qy * (step + 1) == qy * step + qy;
  }

  lemma ZeroStep(d: int, count: int, step: nat)
    requires count > 0
    ensures d == 0 ==> d / count * step == 0
  {
  }

  /** Where `draw` puts marker `i` of `total`: markers 0..3 on the corners, later ones on
      edge `i % 4` at step `i // 4` of `count` toward the next corner (Python's `//` is
      floor division, which Dafny's `/` matches for a positive divisor). The marker stays on
      its edge's line. */
  function MarkerPosition(i: nat, total: nat, surface: (int, int), realSize: (nat, nat)): (p: (int, int))
    requires i < total
    ensures i < 4 ==> p == Corners(surface, realSize)[i]
    ensures var cs := Corners(surface, realSize);
      && (i % 4 == 0 ==> p.1 == cs[0].1) && (i % 4 == 1 ==> p.0 == cs[1].0)
      && (i % 4 == 2 ==> p.1 == cs[2].1) && (i % 4 == 3 ==> p.0 == cs[3].0)
    ensures var cs := Corners(surface, realSize);
      var e := i % 4;
      var next := cs[(e + 1) % 4];
      && EvenlySpaced(p.0 - cs[e].0, next.0 - cs[e].0, EdgeCounts(total)[e], i / 4)
      && EvenlySpaced(p.1 - cs[e].1, next.1 - cs[e].1, EdgeCounts(total)[e], i / 4)
  {
    var cs := Corners(surface, realSize);
    var edge := i % 4;
    var indexAtEdge := i / 4;
    MarkerFitsOnEdge(i, total);
    if i >= 4 then Step(cs[edge], cs[(edge + 1) % 4], EdgeCounts(total)[edge], indexAtEdge)
    else
      assert indexAtEdge == 0 && edge == i;
      cs[edge]
  }

  datatype Rect = Rect(x: int, y: int, width: int, height: int)

  /** The white background of a marker at `p`: `marker_size` plus a border on every side. */
  function BackgroundRect(p: (int, int), markerSize: (int, int), realSize: (nat, nat)): (r: Rect)
    ensures r.x + realSize.0 / 5 == p.0 && r.y + realSize.1 / 5 == p.1
    ensures r.x + r.width == p.0 + markerSize.0 + realSize.0 / 5
    ensures r.y + r.height == p.1 + markerSize.1 + realSize.1 / 5
  {
    var borderX, borderY := realSize.0 / 5, realSize.1 / 5;
    Rect(p.0 - borderX, p.1 - borderY, markerSize.0 + 2 * borderX, markerSize.1 + 2 * borderY)
  }

  /** One marker as `draw` places it. */
  datatype Placement = Placement(index: nat, path: string, position: (int, int), background: Rect)

  /** The indices `draw` does not skip among the first `n` entries: those that are not
      `None`, in order. A skipped entry still takes its index, so the other markers keep
      their places. */
  function PlacedIndices(paths: seq<Option<string>>, n: nat): (idx: seq<nat>)
    requires n <= |paths|
    ensures forall j :: 0 <= j < |idx| ==> idx[j] < n && paths[idx[j]].Some?
    ensures forall j, l :: 0 <= j < l < |idx| ==> idx[j] < idx[l]
    ensures forall i :: 0 <= i < n && paths[i].Some? ==> i in idx
    decreases n
  {
    if n == 0 then []
    else
      var before := PlacedIndices(paths, n - 1);
      if paths[n - 1].None? then before else before + [n - 1]
  }

  /** Marker `i` placed as `draw` places it; the size of a loaded image is `imageSize(path)`. */
  function Place(paths: seq<Option<string>>, i: nat, surface: (int, int), markerSize: (int, int), imageSize: string -> (nat, nat)): (pl: Placement)
    requires i < |paths| && paths[i].Some?
    ensures pl.index == i && paths[i] == Some(pl.path)
    ensures pl.position == MarkerPosition(i, |paths|, surface, imageSize(pl.path))
  {
    var realSize := imageSize(paths[i].value);
    var p := MarkerPosition(i, |paths|, surface, realSize);
    Placement(i, paths[i].value, p, BackgroundRect(p, markerSize, realSize))
  }

  /** The placements of `draw`, one per marker that is not `None`, in marker order. */
  function Layout(paths: seq<Option<string>>, surface: (int, int), markerSize: (int, int), imageSize: string -> (nat, nat)): (r: seq<Placement>)
    ensures |r| == |PlacedIndices(paths, |paths|)|
    ensures forall j :: 0 <= j < |r| ==> r[j].index == PlacedIndices(paths, |paths|)[j]
    ensures forall j :: 0 <= j < |r| ==> r[j].index < |paths| && paths[r[j].index] == Some(r[j].path)
  {
    var idx := PlacedIndices(paths, |paths|);
    seq(|idx|, j requires 0 <= j < |idx| => Place(paths, idx[j], surface, markerSize, imageSize))
  }
}

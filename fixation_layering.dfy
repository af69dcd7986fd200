/** fixation_layering/fixation_layering.py: the overlay of Gaussian windows around the
    other players' fixations, the values that map the filtered image back to the 0..255
    range, and the conversion of a relative position to a numpy pixel. The kernel is a given
    square real matrix of odd side `2r + 1`; how it is computed (`exp`) is not modelled. */
module FixationLayering {
  import opened Wrappers

  function Min(a: int, b: int): int { if a <= b then a else b }
  function Max(a: int, b: int): int { if a >= b then a else b }

  /** Python's `int(x)` on a float: truncation toward zero. */
  function Trunc(x: real): (t: int)
    ensures x >= 0.0 ==> t as real <= x < t as real + 1.0
    ensures x < 0.0 ==> t as real - 1.0 < x <= t as real
  {
    if x >= 0.0 then x.Floor else -((-x).Floor)
  }

  /** A square kernel of odd side, as `calculate_gaussian_kernel` builds it. */
  predicate IsKernel(kernel: seq<seq<real>>) {
    |kernel| % 2 == 1 && forall i :: 0 <= i < |kernel| ==> |kernel[i]| == |kernel|
  }

  /** `kernel_window_size // 2`. */
  function Radius(kernel: seq<seq<real>>): nat {
    |kernel| / 2
  }

  /** One axis of the clipped window: image indices `lo .. hi` and kernel indices
      `kernelLo .. kernelHi`, as the cuts of lines 46-53 compute them. */
  datatype Window = Window(lo: int, hi: int, kernelLo: int, kernelHi: int)

  /** A coordinate whose window slices index the image and the kernel without numpy's
      negative-index wrap-around: at most `r + 1` pixels beyond either border. */
  predicate InWindowDomain(pos: int, size: nat, r: nat) {
    0 <= pos + r + 1 && pos <= size + r
  }

  /** The cuts for one axis: `left_cut = -min(left, 0)`, `right_cut = max(right - (size - 1), 0)`.
      The image slice is `[max(0, pos - r), min(size, pos + r + 1))`, so it lies inside the
      image and holds exactly its pixels at distance at most `r` from `pos`; the kernel slice is
      the same range shifted by `r - pos`, so both slices have the same length. */
  function ClipWindow(pos: int, size: nat, r: nat): (w: Window)
    requires InWindowDomain(pos, size, r)
    ensures w.lo == Max(pos - r, 0) && w.hi == Min(pos + r + 1, size)
    ensures 0 <= w.lo <= w.hi <= size
    ensures w.kernelLo == w.lo - pos + r && w.kernelHi == w.hi - pos + r
    ensures 0 <= w.kernelLo <= w.kernelHi <= 2 * r + 1
    ensures w.hi - w.lo == w.kernelHi - w.kernelLo
  {
    var low := pos - r;
    var lowCut := -Min(low, 0);
    var high := pos + r;
    var highCut := Max(high - (size - 1), 0);
    Window(low + lowCut, high + 1 - highCut, lowCut, 2 * r + 1 - highCut)
  }

  /** Whether pixel (row, col) lies in the `(2r + 1)`-square window around `p = (x, y)`. */
  predicate Covers(p: (int, int), r: nat, row: int, col: int) {
    p.1 - r <= row <= p.1 + r && p.0 - r <= col <= p.0 + r
  }

  /** The kernel weight the window around `p` adds at pixel (row, col). */
  function Contribution(kernel: seq<seq<real>>, p: (int, int), row: int, col: int): real
    requires IsKernel(kernel)
  {
    var r := Radius(kernel);
    if Covers(p, r, row, col) then kernel[row - p.1 + r][col - p.0 + r] else 0.0
  }

  /** The sum of the contributions of all positions at pixel (row, col). */
  function Overlay(kernel: seq<seq<real>>, positions: seq<(int, int)>, row: int, col: int): real
    requires IsKernel(kernel)
    decreases |positions|
  {
    if positions == [] then 0.0
    else Overlay(kernel, positions[..|positions| - 1], row, col) + Contribution(kernel, positions[|positions| - 1], row, col)
  }

  /** The positions the overlay accepts: each window stays within numpy's clamping range. */
  predicate PositionsInDomain(positions: seq<(int, int)>, height: nat, width: nat, r: nat) {
    forall k :: 0 <= k < |positions| ==> InWindowDomain(positions[k].0, width, r) && InWindowDomain(positions[k].1, height, r)
  }

  /** The slice addition of lines 54-55: the clipped kernel window is added in place. */
  method AddKernelAt(filter: array2<real>, kernel: seq<seq<real>>, p: (int, int))
    requires IsKernel(kernel)
    requires InWindowDomain(p.0, filter.Length1, Radius(kernel)) && InWindowDomain(p.1, filter.Length0, Radius(kernel))
    modifies filter
    ensures forall i, j :: 0 <= i < filter.Length0 && 0 <= j < filter.Length1 ==>
      filter[i, j] == old(filter[i, j]) + Contribution(kernel, p, i, j)
  {
    var r := Radius(kernel);
    var rows := ClipWindow(p.1, filter.Length0, r);
    var cols := ClipWindow(p.0, filter.Length1, r);
    var i := rows.lo;
    while i < rows.hi
      invariant rows.lo <= i <= rows.hi
      invariant forall a, b :: 0 <= a < filter.Length0 && 0 <= b < filter.Length1 ==>
        filter[a, b] == old(filter[a, b]) + (if a < i then Contribution(kernel, p, a, b) else 0.0)
    {
      var j := cols.lo;
      while j < cols.hi
        invariant cols.lo <= j <= cols.hi
        invariant forall a, b :: 0 <= a < filter.Length0 && 0 <= b < filter.Length1 ==>
          filter[a, b] == old(filter[a, b]) + (if a < i || (a == i && b < j) then Contribution(kernel, p, a, b) else 0.0)
      {
        filter[i, j] := filter[i, j] + kernel[i - rows.lo + rows.kernelLo][j - cols.lo + cols.kernelLo];
        j := j + 1;
      }
      i := i + 1;
    }
  }

  /** `gaze_filter_for_positions`: a `height x width` array of ones to which every position's
      window is added; each pixel ends as 1 plus the overlay of all positions there. */
  method GazeFilterForPositions(positions: seq<(int, int)>, height: nat, width: nat, kernel: seq<seq<real>>)
    returns (filter: array2<real>)
    requires IsKernel(kernel)
    requires PositionsInDomain(positions, height, width, Radius(kernel))
    ensures fresh(filter) && filter.Length0 == height && filter.Length1 == width
    ensures forall i, j :: 0 <= i < height && 0 <= j < width ==> filter[i, j] == 1.0 + Overlay(kernel, positions, i, j)
  {
    filter := new real[height, width]((i, j) => 1.0);
    for k := 0 to |positions|
      invariant filter.Length0 == height && filter.Length1 == width
      invariant forall i, j :: 0 <= i < height && 0 <= j < width ==> filter[i, j] == 1.0 + Overlay(kernel, positions[..k], i, j)
    {
      assert positions[..k + 1][..k] == positions[..k];
      AddKernelAt(filter, kernel, positions[k]);
    }
    assert positions[..|positions|] == positions;
  }

  /** A pixel outside every position's window receives nothing, so it keeps the value 1. */
  lemma {:induction false} OverlayOutsideWindows(kernel: seq<seq<real>>, positions: seq<(int, int)>, row: int, col: int)
    requires IsKernel(kernel)
    requires forall k :: 0 <= k < |positions| ==> !Covers(positions[k], Radius(kernel), row, col)
    ensures Overlay(kernel, positions, row, col) == 0.0
    decreases |positions|
  {
    if positions != [] {
      OverlayOutsideWindows(kernel, positions[..|positions| - 1], row, col);
    }
  }

  /** The overlay of two lists of positions is the sum of their overlays. */
  lemma {:induction false} OverlayAppend(kernel: seq<seq<real>>, ps: seq<(int, int)>, qs: seq<(int, int)>, row: int, col: int)
    requires IsKernel(kernel)
    ensures Overlay(kernel, ps + qs, row, col) == Overlay(kernel, ps, row, col) + Overlay(kernel, qs, row, col)
    decreases |qs|
  {
    if qs == [] {
      assert ps + qs == ps;
    } else {
      var n := |qs| - 1;
      assert (ps + qs)[..|ps + qs| - 1] == ps + qs[..n];
      OverlayAppend(kernel, ps, qs[..n], row, col);
    }
  }

  /** The overlay does not depend on the order of the positions (the order of the peer table
      is arbitrary). */
  lemma {:induction false} OverlayPermutation(kernel: seq<seq<real>>, ps: seq<(int, int)>, qs: seq<(int, int)>, row: int, col: int)
    requires IsKernel(kernel)
    requires multiset(ps) == multiset(qs)
    ensures Overlay(kernel, ps, row, col) == Overlay(kernel, qs, row, col)
    decreases |ps|
  {
    if ps == [] {
      assert |qs| == |multiset(qs)| == 0;
    } else {
      var n := |ps| - 1;
      var x := ps[n];
      assert ps == ps[..n] + [x];
      assert x in multiset(qs);
      var k :| 0 <= k < |qs| && qs[k] == x;
      var rest := qs[..k] + qs[k + 1..];
      MultisetWithout(qs, k);
      assert multiset(ps[..n]) == multiset(ps) - multiset{x};
      OverlayPermutation(kernel, ps[..n], rest, row, col);
      OverlayWithout(kernel, qs, k, row, col);
    }
  }

  /** Removing the element at `k` removes one occurrence of it. */
  lemma MultisetWithout<T>(s: seq<T>, k: nat)
    requires k < |s|
    ensures multiset(s[..k] + s[k + 1..]) == multiset(s) - multiset{s[k]}
  {
    assert s == s[..k] + [s[k]] + s[k + 1..];
  }

  /** The overlay without the position at `k` lacks exactly that position's contribution. */
  lemma OverlayWithout(kernel: seq<seq<real>>, qs: seq<(int, int)>, k: nat, row: int, col: int)
    requires IsKernel(kernel) && k < |qs|
    ensures Overlay(kernel, qs, row, col) == Overlay(kernel, qs[..k] + qs[k + 1..], row, col) + Contribution(kernel, qs[k], row, col)
  {
    var x := qs[k];
    assert qs == qs[..k] + [x] + qs[k + 1..];
    OverlayAppend(kernel, qs[..k] + [x], qs[k + 1..], row, col);
    OverlayAppend(kernel, qs[..k], [x], row, col);
    OverlayAppend(kernel, qs[..k], qs[k + 1..], row, col);
    assert Overlay(kernel, [x], row, col) == Contribution(kernel, x, row, col) by {
      assert [x][..0] == [];
    }
  }

  /** The number of players assumed to look at one point, from the number of positions. */
  function PersonsLookingAtSamePoint(n: int): (p: int)
    ensures p >= 1
    ensures n <= 5 ==> p == Max(1, n)
  {
    if n <= 5 then Max(1, n)
    else if n <= 10 then 5 + (n - 5) / 2
    else 8 + (n - 10) / 3
  }

  /** More positions never lower the assumed count. */
  lemma PersonsMonotone(n: int, m: int)
    requires n <= m
    ensures PersonsLookingAtSamePoint(n) <= PersonsLookingAtSamePoint(m)
  {
    if n <= 5 && m > 5 {
      assert PersonsLookingAtSamePoint(m) >= 5;
    } else if n <= 10 && m > 10 {
      assert PersonsLookingAtSamePoint(n) <= 7;
      assert PersonsLookingAtSamePoint(m) >= 8;
    } else if 5 < n && m <= 10 {
      DivMonotone(n - 5, m - 5, 2);
    } else if 10 < n {
      DivMonotone(n - 10, m - 10, 3);
    }
  }

  lemma DivMonotone(a: nat, b: nat, d: nat)
    requires a <= b && d > 0
    ensures a / d <= b / d
  {
    if a / d > b / d {
      assert (a / d) * d <= a && b < (b / d + 1) * d;
      MulMonotone(b / d + 1, a / d, d);
    }
  }

  lemma MulMonotone(a: nat, b: nat, d: nat)
    requires a <= b
    ensures a * d <= b * d
  {
  }

  /** `get_mapping_back_to_range_values`: factor `1 / om` and shift `128 (om - 1) / om` for
      `om = max(kernel) * persons`. numpy turns a zero `om` into infinities rather than raising;
      that case is `None` here. */
  function MappingBackToRangeValues(kernelMax: real, numberOfPositions: int): (r: Option<(real, real)>)
    ensures r.None? <==> kernelMax == 0.0
  {
    var overlayMax := kernelMax * PersonsLookingAtSamePoint(numberOfPositions) as real;
    if overlayMax == 0.0 then None
    else Some((1.0 / overlayMax, 128.0 * (overlayMax - 1.0) / overlayMax))
  }

  /** The mapping leaves the mean grey 128 where it is and divides every deviation from it by
      the overlay maximum: a filtered value `128 + om * d` maps back to `128 + d`. */
  lemma MappingBackFixesMean(kernelMax: real, numberOfPositions: int, d: real)
    requires kernelMax != 0.0
    ensures var om := kernelMax * PersonsLookingAtSamePoint(numberOfPositions) as real;
      && MappingBackToRangeValues(kernelMax, numberOfPositions).Some?
      && var (factor, shift) := MappingBackToRangeValues(kernelMax, numberOfPositions).value;
      && 128.0 * factor + shift == 128.0
      && (128.0 + om * d) * factor + shift == 128.0 + d
  {
    var om := kernelMax * PersonsLookingAtSamePoint(numberOfPositions) as real;
    assert om != 0.0;
    var factor := 1.0 / om;
    var shift := 128.0 * (om - 1.0) / om;
    assert 128.0 * factor + shift == (128.0 + 128.0 * (om - 1.0)) / om;
    assert (128.0 + om * d) * factor + shift == (128.0 + om * d + 128.0 * (om - 1.0)) / om;
  }

  /** `map_position_to_np_pixel`: `None` off the unit square; otherwise the truncated pair
      `(p[1] * shape[1], p[0] * shape[0])` (the source names `shape[0]` the width). */
  function MapPositionToNpPixel(p: (real, real), shape0: nat, shape1: nat): (r: Option<(int, int)>)
    ensures r.None? <==> p.0 < 0.0 || p.1 < 0.0 || p.0 > 1.0 || p.1 > 1.0
    ensures r.Some? ==> 0 <= r.value.0 <= shape1 && 0 <= r.value.1 <= shape0
    ensures r.Some? ==> r.value.0 as real <= p.1 * shape1 as real < r.value.0 as real + 1.0
    ensures r.Some? ==> r.value.1 as real <= p.0 * shape0 as real < r.value.1 as real + 1.0
  {
    if p.0 < 0.0 || p.1 < 0.0 || p.0 > 1.0 || p.1 > 1.0 then None
    else
      var imageWidth, imageHeight := shape0, shape1;
      ProductInRange(p.1, imageHeight);
      ProductInRange(p.0, imageWidth);
      Some((Trunc(p.1 * imageHeight as real), Trunc(p.0 * imageWidth as real)))
  }

  /** A unit fraction of a size, truncated, stays in `0 .. size`. */
  lemma ProductInRange(t: real, size: nat)
    requires 0.0 <= t <= 1.0
    ensures 0 <= Trunc(t * size as real) <= size
  {
    assert t * size as real <= size as real;
  }
}

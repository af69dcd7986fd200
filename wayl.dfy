/** wayl.py: conversion between screen-relative and image-relative positions, the
    conversion to image pixels, and the two interval gates of the main loop. Times and
    positions are reals; the rendering, the event queue and the clock are parameters. */
module Wayl {
  import opened Wrappers
  import FixationLayering

  /** From config.py: seconds between screen updates and between overlay updates. */
  const SCREEN_UPDATE_INTERVAL: real := 0.1
  const SEND_INTERVAL: real := 0.5

  /** `(screen - image) // 2`: the margin left and right (or above and below) of the centred
      image, rounded down. */
  function Border(screen: int, image: int): (b: int)
    ensures 2 * b <= screen - image < 2 * b + 2
  {
    (screen - image) / 2
  }

  datatype MappingError = ZeroDivision

  /** `n / screen` in Python's true division. */
  function Relative(n: int, screen: int): real
    requires screen != 0
  {
    n as real / screen as real
  }

  /** `map_position_between_screen_and_image`. `screenSize` is (width, height) and
      `imageShape` is (height, width), as pygame and numpy give them. A zero screen size
      raises ZeroDivisionError in either direction, a zero image size only towards the
      image. */
  function MapPositionBetweenScreenAndImage(position: (real, real), screenSize: (int, int), imageShape: (int, int), fromScreenToImage: bool)
    : (r: Result<(real, real), MappingError>)
    ensures r.Failure? <==> screenSize.0 == 0 || screenSize.1 == 0 || (fromScreenToImage && (imageShape.0 == 0 || imageShape.1 == 0))
  {
    var (width, height) := screenSize;
    var (imageHeight, imageWidth) := imageShape;
    if width == 0 || height == 0 then Failure(ZeroDivision)
    else
      var relativeXBorder := Relative(Border(width, imageWidth), width);
      var relativeYBorder := Relative(Border(height, imageHeight), height);
      var relativeImageWidth := Relative(imageWidth, width);
      var relativeImageHeight := Relative(imageHeight, height);
      if fromScreenToImage then
        if relativeImageWidth == 0.0 || relativeImageHeight == 0.0 then Failure(ZeroDivision)
        else Success(((position.0 - relativeXBorder) / relativeImageWidth, (position.1 - relativeYBorder) / relativeImageHeight))
      else
        Success((position.0 * relativeImageWidth + relativeXBorder, position.1 * relativeImageHeight + relativeYBorder))
  }

  /** Screen to image and back is the identity (in exact arithmetic). */
  lemma ScreenImageScreen(position: (real, real), screenSize: (int, int), imageShape: (int, int))
    requires screenSize.0 != 0 && screenSize.1 != 0 && imageShape.0 != 0 && imageShape.1 != 0
    ensures var toImage := MapPositionBetweenScreenAndImage(position, screenSize, imageShape, true);
      && toImage.Success?
      && MapPositionBetweenScreenAndImage(toImage.value, screenSize, imageShape, false) == Success(position)
  {
    var width, height := screenSize.0, screenSize.1;
    var imageHeight, imageWidth := imageShape.0, imageShape.1;
    var rw := Relative(imageWidth, width);
    var rh := Relative(imageHeight, height);
    assert rw != 0.0 && rh != 0.0;
    var borderX := Relative(Border(width, imageWidth), width);
    var borderY := Relative(Border(height, imageHeight), height);
    var q := ((position.0 - borderX) / rw, (position.1 - borderY) / rh);
    assert MapPositionBetweenScreenAndImage(position, screenSize, imageShape, true) == Success(q);
    DivThenMul(position.0 - borderX, rw);
    DivThenMul(position.1 - borderY, rh);
    var back := MapPositionBetweenScreenAndImage(q, screenSize, imageShape, false);
    assert back.value.0 == q.0 * rw + borderX && back.value.1 == q.1 * rh + borderY;
    SamePoint(back.value, position);
  }

  /** Image to screen and back is the identity (in exact arithmetic). */
  lemma ImageScreenImage(position: (real, real), screenSize: (int, int), imageShape: (int, int))
    requires screenSize.0 != 0 && screenSize.1 != 0 && imageShape.0 != 0 && imageShape.1 != 0
    ensures var toScreen := MapPositionBetweenScreenAndImage(position, screenSize, imageShape, false);
      && toScreen.Success?
      && MapPositionBetweenScreenAndImage(toScreen.value, screenSize, imageShape, true) == Success(position)
  {
    var width, height := screenSize.0, screenSize.1;
    var imageHeight, imageWidth := imageShape.0, imageShape.1;
    var rw := Relative(imageWidth, width);
    var rh := Relative(imageHeight, height);
    assert rw != 0.0 && rh != 0.0;
    var borderX := Relative(Border(width, imageWidth), width);
    var borderY := Relative(Border(height, imageHeight), height);
    var q := MapPositionBetweenScreenAndImage(position, screenSize, imageShape, false).value;
    assert q.0 == position.0 * rw + borderX && q.1 == position.1 * rh + borderY;
    assert q.0 - borderX == position.0 * rw && q.1 - borderY == position.1 * rh;
    MulThenDiv(position.0, rw);
    MulThenDiv(position.1, rh);
    var back := MapPositionBetweenScreenAndImage(q, screenSize, imageShape, true);
    assert back.value.0 == (q.0 - borderX) / rw && back.value.1 == (q.1 - borderY) / rh;
    SamePoint(back.value, position);
  }

  lemma SamePoint(p: (real, real), q: (real, real))
    requires p.0 == q.0 && p.1 == q.1
    ensures p == q
  {
  }

  /** The image's top-left corner is the border, relative to the screen size. */
  lemma ImageOriginOnScreen(screenSize: (int, int), imageShape: (int, int))
    requires screenSize.0 != 0 && screenSize.1 != 0
    ensures MapPositionBetweenScreenAndImage((0.0, 0.0), screenSize, imageShape, false)
      == Success((Border(screenSize.0, imageShape.1) as real / screenSize.0 as real, Border(screenSize.1, imageShape.0) as real / screenSize.1 as real))
  {
  }

  lemma DivThenMul(x: real, y: real)
    requires y != 0.0
    ensures x / y * y == x
  {
  }

  lemma MulThenDiv(x: real, y: real)
    requires y != 0.0
    ensures x * y / y == x
  {
  }

  /** `map_position_to_pixel`: `(int(x * width), int(y * height))` for `imageShape` =
      (height, width). A position on the image lands on a pixel column in `0 .. width` and a
      row in `0 .. height` (the far edge included). */
  function MapPositionToPixel(position: (real, real), imageShape: (nat, nat)): (p: (int, int))
    ensures 0.0 <= position.0 <= 1.0 ==> 0 <= p.0 <= imageShape.1
    ensures 0.0 <= position.1 <= 1.0 ==> 0 <= p.1 <= imageShape.0
    ensures position.0 >= 0.0 ==> p.0 as real <= position.0 * imageShape.1 as real < p.0 as real + 1.0
    ensures position.1 >= 0.0 ==> p.1 as real <= position.1 * imageShape.0 as real < p.1 as real + 1.0
  {
    var (imageHeight, imageWidth) := imageShape;
    PixelInRange(position.0, imageWidth);
    PixelInRange(position.1, imageHeight);
    (FixationLayering.Trunc(position.0 * imageWidth as real), FixationLayering.Trunc(position.1 * imageHeight as real))
  }

  lemma PixelInRange(t: real, size: nat)
    ensures 0.0 <= t <= 1.0 ==> 0 <= FixationLayering.Trunc(t * size as real) <= size
    ensures t >= 0.0 ==> t * size as real >= 0.0
  {
    if 0.0 <= t <= 1.0 {
      FixationLayering.ProductInRange(t, size);
    }
  }

  /** One iteration of `main_loop`'s event loop: whether escape was released, and the clock. */
  datatype Tick = Tick(escape: bool, time: real)

  /** The times at which the screen was redrawn and the overlay recomputed, and whether the
      loop ended on escape. */
  datatype GateTrace = GateTrace(redraws: seq<real>, recomputes: seq<real>, escaped: bool)

  function Prepend(redraws: seq<real>, recomputes: seq<real>, trace: GateTrace): GateTrace {
    GateTrace(redraws + trace.redraws, recomputes + trace.recomputes, trace.escaped)
  }

  /** The loop from the given ticks on, with the two last-update times: escape ends it; an
      iteration within `SCREEN_UPDATE_INTERVAL` of the last redraw does nothing; otherwise
      the screen is redrawn, and if also `SEND_INTERVAL` has passed since the last recompute,
      the overlay is recomputed. */
  function MainLoopSpec(ticks: seq<Tick>, lastScreenUpdateTime: real, lastSendTime: real): GateTrace
    decreases |ticks|
  {
    if ticks == [] then GateTrace([], [], false)
    else if ticks[0].escape then GateTrace([], [], true)
    else
      var t := ticks[0].time;
      if t - lastScreenUpdateTime < SCREEN_UPDATE_INTERVAL then MainLoopSpec(ticks[1..], lastScreenUpdateTime, lastSendTime)
      else if t - lastSendTime < SEND_INTERVAL then Prepend([t], [], MainLoopSpec(ticks[1..], t, lastSendTime))
      else Prepend([t], [t], MainLoopSpec(ticks[1..], t, t))
  }

  /** `main_loop`'s gates, both last-update times starting at 0. */
  method MainLoop(ticks: seq<Tick>) returns (trace: GateTrace)
    ensures trace == MainLoopSpec(ticks, 0.0, 0.0)
  {
    var lastScreenUpdateTime := 0.0;
    var lastSendTime := 0.0;
    var redraws: seq<real> := [];
    var recomputes: seq<real> := [];
    var escaped := false;
    var i := 0;
    while i < |ticks|
      invariant 0 <= i <= |ticks|
      invariant MainLoopSpec(ticks, 0.0, 0.0) == Prepend(redraws, recomputes, MainLoopSpec(ticks[i..], lastScreenUpdateTime, lastSendTime))
    {
      assert ticks[i..][0] == ticks[i] && ticks[i..][1..] == ticks[i + 1..];
      if ticks[i].escape {
        escaped := true;
        assert redraws + [] == redraws && recomputes + [] == recomputes;
        break;
      }
      var currentTime := ticks[i].time;
      i := i + 1;
      if currentTime - lastScreenUpdateTime < SCREEN_UPDATE_INTERVAL {
        continue;
      }
      lastScreenUpdateTime := currentTime;
      redraws := redraws + [currentTime];
      if currentTime - lastSendTime < SEND_INTERVAL {
        assert (redraws[..|redraws| - 1] + [currentTime]) + MainLoopSpec(ticks[i..], lastScreenUpdateTime, lastSendTime).redraws
          == redraws[..|redraws| - 1] + ([currentTime] + MainLoopSpec(ticks[i..], lastScreenUpdateTime, lastSendTime).redraws);
        assert recomputes + [] == recomputes;
        continue;
      }
      lastSendTime := currentTime;
      recomputes := recomputes + [currentTime];
      assert (redraws[..|redraws| - 1] + [currentTime]) + MainLoopSpec(ticks[i..], lastScreenUpdateTime, lastSendTime).redraws
        == redraws[..|redraws| - 1] + ([currentTime] + MainLoopSpec(ticks[i..], lastScreenUpdateTime, lastSendTime).redraws);
      assert (recomputes[..|recomputes| - 1] + [currentTime]) + MainLoopSpec(ticks[i..], lastScreenUpdateTime, lastSendTime).recomputes
        == recomputes[..|recomputes| - 1] + ([currentTime] + MainLoopSpec(ticks[i..], lastScreenUpdateTime, lastSendTime).recomputes);
    }
    if !escaped {
      assert ticks[i..] == [];
    }
    trace := GateTrace(redraws, recomputes, escaped);
  }

  /** Each time in `times` is at least `interval` after the one before, the first at least
      `interval` after `last`. */
  predicate SpacedFrom(times: seq<real>, last: real, interval: real) {
    && (|times| > 0 ==> times[0] - last >= interval)
    && forall j :: 0 < j < |times| ==> times[j] - times[j - 1] >= interval
  }

  /** Redraws are at least `SCREEN_UPDATE_INTERVAL` apart and recomputes at least
      `SEND_INTERVAL` apart, and every recompute happens on a redraw. */
  lemma {:induction false} GatesKeepIntervals(ticks: seq<Tick>, lastScreenUpdateTime: real, lastSendTime: real)
    ensures SpacedFrom(MainLoopSpec(ticks, lastScreenUpdateTime, lastSendTime).redraws, lastScreenUpdateTime, SCREEN_UPDATE_INTERVAL)
    ensures SpacedFrom(MainLoopSpec(ticks, lastScreenUpdateTime, lastSendTime).recomputes, lastSendTime, SEND_INTERVAL)
    ensures forall t :: t in MainLoopSpec(ticks, lastScreenUpdateTime, lastSendTime).recomputes ==>
      t in MainLoopSpec(ticks, lastScreenUpdateTime, lastSendTime).redraws
    decreases |ticks|
  {
    if ticks != [] && !ticks[0].escape {
      var t := ticks[0].time;
      if t - lastScreenUpdateTime < SCREEN_UPDATE_INTERVAL {
        GatesKeepIntervals(ticks[1..], lastScreenUpdateTime, lastSendTime);
      } else if t - lastSendTime < SEND_INTERVAL {
        GatesKeepIntervals(ticks[1..], t, lastSendTime);
        var rest := MainLoopSpec(ticks[1..], t, lastSendTime);
        SpacedCons(t, rest.redraws, lastScreenUpdateTime, SCREEN_UPDATE_INTERVAL);
        assert [] + rest.recomputes == rest.recomputes;
      } else {
        GatesKeepIntervals(ticks[1..], t, t);
        var rest := MainLoopSpec(ticks[1..], t, t);
        SpacedCons(t, rest.redraws, lastScreenUpdateTime, SCREEN_UPDATE_INTERVAL);
        SpacedCons(t, rest.recomputes, lastSendTime, SEND_INTERVAL);
      }
    }
  }

  lemma SpacedCons(t: real, rest: seq<real>, last: real, interval: real)
    requires t - last >= interval && SpacedFrom(rest, t, interval)
    ensures SpacedFrom([t] + rest, last, interval)
  {
    var times := [t] + rest;
    forall j | 0 < j < |times|
      ensures times[j] - times[j - 1] >= interval
    {
      if j == 1 {
        assert times[1] == rest[0];
      } else {
        assert times[j] == rest[j - 1] && times[j - 1] == rest[j - 2];
      }
    }
  }

  /** Nothing after the escape key matters. */
  lemma {:induction false} EscapeEndsLoop(a: seq<Tick>, e: Tick, b: seq<Tick>, lastScreenUpdateTime: real, lastSendTime: real)
    requires e.escape
    ensures MainLoopSpec(a + [e] + b, lastScreenUpdateTime, lastSendTime) == MainLoopSpec(a + [e], lastScreenUpdateTime, lastSendTime)
    ensures MainLoopSpec(a + [e] + b, lastScreenUpdateTime, lastSendTime).escaped
    decreases |a|
  {
    if a == [] {
      assert (a + [e] + b)[0] == e && (a + [e])[0] == e;
    } else {
      assert (a + [e] + b)[0] == a[0] && (a + [e] + b)[1..] == a[1..] + [e] + b;
      assert (a + [e])[0] == a[0] && (a + [e])[1..] == a[1..] + [e];
      var t := a[0].time;
      EscapeEndsLoop(a[1..], e, b, lastScreenUpdateTime, lastSendTime);
      EscapeEndsLoop(a[1..], e, b, t, lastSendTime);
      EscapeEndsLoop(a[1..], e, b, t, t);
    }
  }
}

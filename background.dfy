/**
  The sky of the landing page (src/app/components/BackgroundWrapper.tsx):
  the sun travels along a clamped parabola driven by the distant (parallax)
  position, a dark overlay follows the sun's height, and a single cloud is
  reset to the opposite screen edge once it has drifted out of view.

  Screen sizes and positions are JavaScript numbers, modelled as `real`.
 */
module Background {
  import opened JsMath

  const SunWidth: real := 125.0
  /** Screen y of the top of the arc (0 is the top of the screen). */
  const PeakY: real := 0.0
  /** Overlay opacity when the sun is at the top of its arc. */
  const MinOpacity: real := 0.1
  /** Overlay opacity when the sun is at the horizon. */
  const MaxOpacity: real := 0.6
  /** Overlay opacity before the first animation frame. */
  const InitialOpacity: real := 0.7
  /** Right offset of the cloud before it has ever wrapped. */
  const InitialCloudPosition: real := 200.0
  /** Right offset at which a cloud re-enters from the right-hand side. */
  const CloudOffRight: real := -150.0

  // ---------------------------------------------------------------- sun arc

  /** Looping horizontal sun position: the JavaScript remainder of the distant position. */
  function SunX(distantPosition: real, screenWidth: real): (x: real)
    requires screenWidth > 0.0
    ensures -(screenWidth + SunWidth) < x < screenWidth + SunWidth
    ensures 0.0 <= distantPosition ==> 0.0 <= x
    ensures distantPosition <= 0.0 ==> x <= 0.0
    ensures -(screenWidth + SunWidth) < distantPosition < screenWidth + SunWidth ==> x == distantPosition
    ensures IsIntegral((distantPosition - x) / (screenWidth + SunWidth))
  {
    JsRem(distantPosition, screenWidth + SunWidth)
  }

  /** Midpoint of the arc, where the sun peaks. */
  function Midpoint(screenWidth: real): real
  {
    screenWidth / 2.0
  }

  /** Height at which the sun starts and ends its arc. */
  function StartY(screenHeight: real): real
  {
    screenHeight / 2.0
  }

  function Square(v: real): real
  {
    v * v
  }

  lemma SquarePositive(v: real)
    requires v != 0.0
    ensures Square(v) > 0.0
  {
    var w := if v > 0.0 then v else -v;
    ScaleLt(0.0, w, w);
    calc {
      Square(v);
    ==
      w * w;
    >
      0.0 * w;
    }
  }

  /** The coefficient `a` of the parabola, chosen so that the arc passes through `StartY` at both ends. */
  function ArcCoefficient(screenWidth: real, screenHeight: real): (a: real)
    requires screenWidth > 0.0 && screenHeight > 0.0
    ensures a > 0.0
    ensures a * Square(Midpoint(screenWidth)) + PeakY == StartY(screenHeight)
  {
    var h := Midpoint(screenWidth);
    SquarePositive(h);
    (StartY(screenHeight) - PeakY) / Square(h)
  }

  /** The sun's height before clamping. */
  function RawSunY(sunX: real, screenWidth: real, screenHeight: real): (y: real)
    requires screenWidth > 0.0 && screenHeight > 0.0
    ensures y >= PeakY
  {
    var a, d := ArcCoefficient(screenWidth, screenHeight), -sunX - Midpoint(screenWidth);
    assert a * Square(d) >= 0.0 by {
      if d != 0.0 {
        SquarePositive(d);
        ScaleLt(0.0, a, Square(d));
      }
    }
    a * Square(d) + PeakY
  }

  /** The sun's height, clamped into `[-StartY, StartY]`. */
  function SunY(sunX: real, screenWidth: real, screenHeight: real): (y: real)
    requires screenWidth > 0.0 && screenHeight > 0.0
    ensures -StartY(screenHeight) <= y <= StartY(screenHeight)
  {
    var startY := StartY(screenHeight);
    Clamp(RawSunY(sunX, screenWidth, screenHeight), -startY, startY)
  }

  /** The unclamped arc touches its peak exactly above the midpoint of the screen. */
  lemma RawSunYPeakIff(sunX: real, screenWidth: real, screenHeight: real)
    requires screenWidth > 0.0 && screenHeight > 0.0
    ensures RawSunY(sunX, screenWidth, screenHeight) == PeakY <==> -sunX == Midpoint(screenWidth)
  {
    var a, d := ArcCoefficient(screenWidth, screenHeight), -sunX - Midpoint(screenWidth);
    if d != 0.0 {
      SquarePositive(d);
      ScaleLt(0.0, a, Square(d));
    }
  }

  /** At both ends of the visible arc the sun sits at `StartY`. */
  lemma SunYAtHorizon(sunX: real, screenWidth: real, screenHeight: real)
    requires screenWidth > 0.0 && screenHeight > 0.0
    requires sunX == 0.0 || -sunX == screenWidth
    ensures RawSunY(sunX, screenWidth, screenHeight) == StartY(screenHeight)
    ensures SunY(sunX, screenWidth, screenHeight) == StartY(screenHeight)
  {
    var h := Midpoint(screenWidth);
    var d := -sunX - h;
    assert Square(d) == Square(h) by {
      assert d == h || d == -h;
    }
  }

  /** The arc is mirror-symmetric about the midpoint. */
  lemma ArcSymmetric(d: real, screenWidth: real, screenHeight: real)
    requires screenWidth > 0.0 && screenHeight > 0.0
    ensures var h := Midpoint(screenWidth);
      RawSunY(-(h + d), screenWidth, screenHeight) == RawSunY(-(h - d), screenWidth, screenHeight)
  {
    var h := Midpoint(screenWidth);
    assert -(-(h + d)) - h == d;
    assert -(-(h - d)) - h == -d;
    assert Square(d) == Square(-d);
  }

  /** Since the parabola opens downwards on screen and peaks at 0, the clamped height is never negative. */
  lemma SunYNonNegative(sunX: real, screenWidth: real, screenHeight: real)
    requires screenWidth > 0.0 && screenHeight > 0.0
    ensures 0.0 <= SunY(sunX, screenWidth, screenHeight) <= StartY(screenHeight)
  {
    var a, d := ArcCoefficient(screenWidth, screenHeight), -sunX - Midpoint(screenWidth);
    assert Square(d) >= 0.0;
    assert a * Square(d) >= 0.0;
  }

  // ---------------------------------------------------------------- overlay

  /** Overlay opacity: linear in the sun's height, darker the lower the sun. */
  function Opacity(sunY: real, startY: real): (o: real)
    requires startY > 0.0
    ensures 0.0 <= sunY <= startY ==> MinOpacity <= o <= MaxOpacity
  {
    var fraction := sunY / startY;
    assert 0.0 <= sunY <= startY ==> 0.0 <= fraction <= 1.0 by {
      if 0.0 <= sunY <= startY {
        FractionBounds(sunY, startY);
      }
    }
    MinOpacity + (MaxOpacity - MinOpacity) * fraction
  }

  /** The opacity the overlay takes on each animation frame for a given distant position. */
  function FrameOpacity(distantPosition: real, screenWidth: real, screenHeight: real): real
    requires screenWidth > 0.0 && screenHeight > 0.0
  {
    Opacity(SunY(SunX(distantPosition, screenWidth), screenWidth, screenHeight), StartY(screenHeight))
  }

  /** The overlay opacity always lies between its brightest and darkest value. */
  lemma OpacityRange(distantPosition: real, screenWidth: real, screenHeight: real)
    requires screenWidth > 0.0 && screenHeight > 0.0
    ensures MinOpacity <= FrameOpacity(distantPosition, screenWidth, screenHeight) <= MaxOpacity
  {
    var sunX := SunX(distantPosition, screenWidth);
    var y, s := SunY(sunX, screenWidth, screenHeight), StartY(screenHeight);
    SunYNonNegative(sunX, screenWidth, screenHeight);
    FractionBounds(y, s);
  }

  lemma FractionBounds(y: real, s: real)
    requires 0.0 <= y <= s && s > 0.0
    ensures 0.0 <= y / s <= 1.0
  {
    DivTimes(y, s);
  }

  /** The lower the sun sits on screen (the larger `sunY`), the darker the overlay. */
  lemma OpacityIncreasing(y1: real, y2: real, startY: real)
    requires startY > 0.0 && y1 < y2
    ensures Opacity(y1, startY) < Opacity(y2, startY)
  {
  }

  /** Brightest overlay at the peak of the arc, darkest at the horizon. */
  lemma OpacityEnds(startY: real)
    requires startY > 0.0
    ensures Opacity(PeakY, startY) == MinOpacity
    ensures Opacity(startY, startY) == MaxOpacity
  {
    assert startY / startY == 1.0;
  }

  // ---------------------------------------------------------------- cloud

  /** What the cloud-wrap effect does for a given cloud pace. */
  datatype CloudWrap = Keep | Wrap(initialPosition: real)

  /** The cloud's CSS right offset. */
  function CloudRight(initialPosition: real, cloudPace: real): real
  {
    initialPosition - cloudPace
  }

  /**
    The cloud-wrap rule: a cloud that has left on the left-hand side
    (right offset beyond the screen width) re-enters at the right-hand side,
    and one that has left on the right re-enters at the left; in both cases
    the parent's cloud position is reset to 0.
   */
  function WrapCloud(initialPosition: real, cloudPace: real, innerWidth: real): (w: CloudWrap)
    ensures w.Keep? <==> CloudOffRight <= CloudRight(initialPosition, cloudPace) <= innerWidth
    ensures CloudRight(initialPosition, cloudPace) > innerWidth ==> w == Wrap(CloudOffRight)
    ensures CloudRight(initialPosition, cloudPace) < CloudOffRight && CloudRight(initialPosition, cloudPace) <= innerWidth ==> w == Wrap(innerWidth)
  {
    if CloudRight(initialPosition, cloudPace) > innerWidth then Wrap(CloudOffRight)
    else if CloudRight(initialPosition, cloudPace) < CloudOffRight then Wrap(innerWidth)
    else Keep
  }

  /** After the effect, with the parent's cloud position reset to 0 on a wrap, the cloud is back in view. */
  lemma WrapBringsCloudIntoView(initialPosition: real, cloudPace: real, innerWidth: real)
    requires CloudOffRight <= innerWidth
    ensures match WrapCloud(initialPosition, cloudPace, innerWidth)
      case Keep => CloudOffRight <= CloudRight(initialPosition, cloudPace) <= innerWidth
      case Wrap(p) => CloudOffRight <= CloudRight(p, 0.0) <= innerWidth
  {
  }

  /** The component's own state: the cloud's starting offset and the overlay opacity, plus the parent's cloud position it resets. */
  class Sky {
    var initialPosition: real
    var backgroundOpacity: real
    /** The parent's cloud position, written through `setCloudPosition`. */
    var cloudPosition: real

    constructor (cloudPosition: real)
      ensures initialPosition == InitialCloudPosition
      ensures backgroundOpacity == InitialOpacity
      ensures this.cloudPosition == cloudPosition
    {
      initialPosition := InitialCloudPosition;
      backgroundOpacity := InitialOpacity;
      this.cloudPosition := cloudPosition;
    }

    /** One firing of the `updateOpacity` animation-frame callback. */
    method UpdateOpacity(distantPosition: real, screenWidth: real, screenHeight: real)
      requires screenWidth > 0.0 && screenHeight > 0.0
      modifies this`backgroundOpacity
      ensures backgroundOpacity == FrameOpacity(distantPosition, screenWidth, screenHeight)
      ensures MinOpacity <= backgroundOpacity <= MaxOpacity
    {
      var sunX := SunX(distantPosition, screenWidth);
      var sunY := SunY(sunX, screenWidth, screenHeight);
      var brightnessFactor := sunY / StartY(screenHeight);
      backgroundOpacity := MinOpacity + (MaxOpacity - MinOpacity) * brightnessFactor;
      OpacityRange(distantPosition, screenWidth, screenHeight);
    }

    /** The effect that runs whenever the cloud pace changes. */
    method CloudWrapEffect(cloudPace: real, innerWidth: real)
      modifies this`initialPosition, this`cloudPosition
      ensures match WrapCloud(old(initialPosition), cloudPace, innerWidth)
        case Keep => initialPosition == old(initialPosition) && cloudPosition == old(cloudPosition)
        case Wrap(p) => initialPosition == p && cloudPosition == 0.0
    {
      if initialPosition - cloudPace > innerWidth {
        initialPosition := CloudOffRight;
        cloudPosition := 0.0;
      } else if initialPosition - cloudPace < CloudOffRight {
        initialPosition := innerWidth;
        cloudPosition := 0.0;
      }
    }
  }
}

/**
 * The animated wave divider placed at the bottom of a page section: a
 * closed set of six shape variants, a table of two SVG paths per variant
 * (back and front layer, authored on a 2880-unit-wide view box, twice the
 * intended viewport width), a table of loop durations per variant, and the
 * descriptors the component hands to the animation library for its props
 * and the reduced-motion preference.
 */
module WaveDivider {
  import opened Wrappers
  import opened SvgPath

  /** Which section boundary a divider decorates. */
  datatype Variant = Hero | Menu | Events | FindUs | Gallery | About

  /** Width of the coordinate box the paths are authored in. */
  const ViewBoxWidth: nat := 2880

  /** Strip height, in pixels, when the caller gives none. */
  const DefaultHeight: nat := 60

  /** Opacity of the back layer; the front layer keeps the default (opaque). */
  const BackOpacity: real := 0.45

  /** Both layers are drawn at twice the width of the strip. */
  const LayerWidthPercent: nat := 200

  // ------------------------------------------------------------ shape table

  function M(x: nat, y: nat): Command { MoveTo(Point(x, y)) }
  function L(x: nat, y: nat): Command { LineTo(Point(x, y)) }
  function Q(cx: nat, cy: nat, x: nat, y: nat): Command { QuadTo(Point(cx, cy), Point(x, y)) }
  function C(c1x: nat, c1y: nat, c2x: nat, c2y: nat, x: nat, y: nat): Command {
    CubicTo(Point(c1x, c1y), Point(c2x, c2y), Point(x, y))
  }
  const Z: Command := ClosePath

  const HeroBack: Path := [
    M(0, 36), C(240, 56, 480, 16, 720, 36), C(960, 56, 1200, 16, 1440, 36),
    C(1680, 56, 1920, 16, 2160, 36), C(2400, 56, 2640, 16, 2880, 36), L(2880, 60),
    L(0, 60), Z
  ]

  const HeroFront: Path := [
    M(0, 44), C(180, 24, 360, 56, 540, 44), C(720, 24, 900, 56, 1080, 44),
    C(1260, 24, 1440, 56, 1620, 44), C(1800, 24, 1980, 56, 2160, 44),
    C(2340, 24, 2520, 56, 2700, 44), C(2880, 24, 2880, 44, 2880, 44), L(2880, 60),
    L(0, 60), Z
  ]

  const MenuBack: Path := [
    M(0, 30), Q(180, 0, 360, 30), Q(540, 60, 720, 30), Q(900, 0, 1080, 30),
    Q(1260, 60, 1440, 30), Q(1620, 0, 1800, 30), Q(1980, 60, 2160, 30),
    Q(2340, 0, 2520, 30), Q(2700, 60, 2880, 30), L(2880, 60), L(0, 60), Z
  ]

  const MenuFront: Path := [
    M(0, 50), Q(120, 20, 240, 50), Q(360, 60, 480, 50), Q(600, 20, 720, 50),
    Q(840, 60, 960, 50), Q(1080, 20, 1200, 50), Q(1320, 60, 1440, 50),
    Q(1560, 20, 1680, 50), Q(1800, 60, 1920, 50), Q(2040, 20, 2160, 50),
    Q(2280, 60, 2400, 50), Q(2520, 20, 2640, 50), Q(2760, 60, 2880, 50), L(2880, 60),
    L(0, 60), Z
  ]

  const EventsBack: Path := [
    M(0, 60), L(240, 10), L(480, 50), L(720, 5), L(960, 45), L(1200, 15), L(1440, 55),
    L(1680, 10), L(1920, 50), L(2160, 5), L(2400, 45), L(2640, 15), L(2880, 60), Z
  ]

  const EventsFront: Path := [
    M(0, 60), L(160, 35), L(320, 55), L(480, 20), L(640, 50), L(800, 25), L(960, 55),
    L(1120, 30), L(1280, 52), L(1440, 18), L(1600, 48), L(1760, 22), L(1920, 52),
    L(2080, 28), L(2240, 55), L(2400, 18), L(2560, 45), L(2720, 28), L(2880, 60), Z
  ]

  const FindUsBack: Path := [
    M(0, 40), C(360, 70, 720, 10, 1080, 40), C(1440, 70, 1800, 10, 2160, 40),
    C(2520, 70, 2880, 40, 2880, 40), L(2880, 60), L(0, 60), Z
  ]

  const FindUsFront: Path := [
    M(0, 50), C(120, 30, 300, 60, 540, 50), C(780, 40, 900, 20, 1080, 50),
    C(1260, 70, 1440, 30, 1620, 50), C(1800, 70, 2040, 20, 2160, 50),
    C(2280, 70, 2520, 30, 2880, 50), L(2880, 60), L(0, 60), Z
  ]

  const GalleryBack: Path := [
    M(0, 20), C(300, 55, 600, 5, 900, 30), C(1200, 55, 1500, 5, 1800, 20),
    C(2100, 45, 2400, 10, 2880, 25), L(2880, 60), L(0, 60), Z
  ]

  const GalleryFront: Path := [
    M(0, 45), C(200, 15, 500, 55, 800, 40), C(1100, 25, 1300, 55, 1440, 40),
    C(1580, 25, 1780, 55, 2000, 40), C(2220, 25, 2500, 55, 2880, 45), L(2880, 60),
    L(0, 60), Z
  ]

  const AboutBack: Path := [
    M(0, 35), C(400, 65, 800, 5, 1200, 35), C(1600, 65, 2000, 5, 2400, 35),
    C(2640, 55, 2760, 40, 2880, 35), L(2880, 60), L(0, 60), Z
  ]

  const AboutFront: Path := [
    M(0, 50), C(200, 25, 500, 60, 800, 50), C(1100, 30, 1300, 65, 1440, 50),
    C(1580, 30, 1800, 65, 2100, 50), C(2400, 30, 2680, 60, 2880, 50), L(2880, 60),
    L(0, 60), Z
  ]

  datatype Shapes = Shapes(back: Path, front: Path)

  /** The back and front path of each variant. Both open with a moveto on
      the left edge and end with closepath; WavePathsShaped states the rest
      of their outline. */
  function WavePaths(v: Variant): (s: Shapes)
    ensures StartsAtLeftEdge(s.back) && StartsAtLeftEdge(s.front)
    ensures EndsClosed(s.back) && EndsClosed(s.front)
  {
    match v
    case Hero => Shapes(HeroBack, HeroFront)
    case Menu => Shapes(MenuBack, MenuFront)
    case Events => Shapes(EventsBack, EventsFront)
    case FindUs => Shapes(FindUsBack, FindUsFront)
    case Gallery => Shapes(GalleryBack, GalleryFront)
    case About => Shapes(AboutBack, AboutFront)
  }

  /** The outline every wave path has: it starts on the left edge, lists
      only x-coordinates inside the view box, reaches the bottom-right
      corner (2880,60) of a 60-unit strip, and is closed. */
  predicate WaveShaped(p: Path) {
    StartsAtLeftEdge(p) && XsWithin(p, 0, ViewBoxWidth) && ListsPoint(p, Point(ViewBoxWidth, DefaultHeight)) && EndsClosed(p)
  }

  /** Both layers of a variant have the wave outline. */
  predicate LayersShaped(s: Shapes) {
    WaveShaped(s.back) && WaveShaped(s.front)
  }

  lemma HeroShaped()
    ensures LayersShaped(WavePaths(Hero))
  {
    assert WaveShaped(HeroBack) by {
      assert Point(2880, 60) in Points(HeroBack[5]);
    }
    assert WaveShaped(HeroFront) by {
      assert Point(2880, 60) in Points(HeroFront[7]);
    }
    assert WavePaths(Hero) == Shapes(HeroBack, HeroFront);
  }

  lemma MenuShaped()
    ensures LayersShaped(WavePaths(Menu))
  {
    assert WaveShaped(MenuBack) by {
      assert Point(2880, 60) in Points(MenuBack[9]);
    }
    assert WaveShaped(MenuFront) by {
      assert Point(2880, 60) in Points(MenuFront[13]);
    }
    assert WavePaths(Menu) == Shapes(MenuBack, MenuFront);
  }

  lemma EventsShaped()
    ensures LayersShaped(WavePaths(Events))
  {
    assert WaveShaped(EventsBack) by {
      assert Point(2880, 60) in Points(EventsBack[12]);
    }
    assert WaveShaped(EventsFront) by {
      assert Point(2880, 60) in Points(EventsFront[18]);
    }
    assert WavePaths(Events) == Shapes(EventsBack, EventsFront);
  }

  lemma FindUsShaped()
    ensures LayersShaped(WavePaths(FindUs))
  {
    assert WaveShaped(FindUsBack) by {
      assert Point(2880, 60) in Points(FindUsBack[4]);
    }
    assert WaveShaped(FindUsFront) by {
      assert Point(2880, 60) in Points(FindUsFront[6]);
    }
    assert WavePaths(FindUs) == Shapes(FindUsBack, FindUsFront);
  }

  lemma GalleryShaped()
    ensures LayersShaped(WavePaths(Gallery))
  {
    assert WaveShaped(GalleryBack) by {
      assert Point(2880, 60) in Points(GalleryBack[4]);
    }
    assert WaveShaped(GalleryFront) by {
      assert Point(2880, 60) in Points(GalleryFront[5]);
    }
    assert WavePaths(Gallery) == Shapes(GalleryBack, GalleryFront);
  }

  lemma AboutShaped()
    ensures LayersShaped(WavePaths(About))
  {
    assert WaveShaped(AboutBack) by {
      assert Point(2880, 60) in Points(AboutBack[4]);
    }
    assert WaveShaped(AboutFront) by {
      assert Point(2880, 60) in Points(AboutFront[5]);
    }
    assert WavePaths(About) == Shapes(AboutBack, AboutFront);
  }

  /** Every variant has both paths, and both have the wave outline. */
  lemma WavePathsShaped(v: Variant)
    ensures LayersShaped(WavePaths(v))
  {
    match v
    case Hero => HeroShaped();
    case Menu => MenuShaped();
    case Events => EventsShaped();
    case FindUs => FindUsShaped();
    case Gallery => GalleryShaped();
    case About => AboutShaped();
  }

  /** The path data text of both layers of every variant starts with "M0,"
      and ends with "Z", and tokenises back to the path. */
  lemma WavePathTexts(v: Variant)
    ensures forall p :: p in {WavePaths(v).back, WavePaths(v).front} ==>
      var text := Serialise(p);
      |text| >= 3 && text[..3] == "M0," && text[|text| - 1] == 'Z' && Parse(text) == Some(p)
  {
    WavePathsShaped(v);
    forall p | p in {WavePaths(v).back, WavePaths(v).front}
      ensures var text := Serialise(p);
        |text| >= 3 && text[..3] == "M0," && text[|text| - 1] == 'Z' && Parse(text) == Some(p)
    {
      SerialiseStartsWithM0(p);
      SerialiseEndsWithZ(p);
      ParseSerialise(p);
    }
  }

  // ------------------------------------------------------------ speed table

  /** Seconds each layer takes for one loop (one travel of half its width). */
  datatype Speeds = Speeds(back: nat, front: nat)

  /** The loop durations of each variant; the front layer is always the
      faster one, which gives the parallax depth. */
  function Speed(v: Variant): (s: Speeds)
    ensures 0 < s.front < s.back
  {
    match v
    case Hero => Speeds(18, 11)
    case Menu => Speeds(14, 8)
    case Events => Speeds(10, 6)
    case FindUs => Speeds(16, 9)
    case Gallery => Speeds(12, 7)
    case About => Speeds(20, 13)
  }

  // ------------------------------------------------------------ descriptors

  /** The animate target of a layer: none at all, or horizontal keyframes
      from one offset to another, in percent of the layer's own width. */
  datatype Keyframes = NoKeyframes | TranslateX(from: int, to: int)

  datatype Repeat = Times(count: nat) | Forever
  datatype RepeatType = Loop | Reverse | Mirror
  datatype Easing = Linear | EaseIn | EaseOut | EaseInOut

  datatype Transition = Transition(repeat: Repeat, repeatType: RepeatType, durationSeconds: nat, ease: Easing)

  datatype ViewBox = ViewBox(minX: int, minY: int, width: nat, height: nat)

  datatype Transform = ScaleX(factor: int)

  /** One SVG layer of the strip. */
  datatype Layer = Layer(
    path: Path,
    fill: string,
    viewBox: ViewBox,
    widthPercent: nat,
    opacity: Option<real>,
    animate: Keyframes,
    transition: Transition)

  /** The strip: its container attributes and its two layers, back (drawn
      first, underneath) and front. */
  datatype Strip = Strip(
    ariaHidden: bool,
    pointerEventsNone: bool,
    overflowHidden: bool,
    height: nat,
    transform: Option<Transform>,
    back: Layer,
    front: Layer)

  /** The component's props; absent optional props are None. */
  datatype Props = Props(fill: string, variant: Variant, flipX: Option<bool>, height: Option<nat>)

  /** How far the keyframes move the layer, in view-box units. */
  function TravelUnits(k: Keyframes): int {
    match k
    case NoKeyframes => 0
    case TranslateX(from, to) => (from - to) * ViewBoxWidth / 100
  }

  function LoopForever(seconds: nat): Transition {
    Transition(Forever, Loop, seconds, Linear)
  }

  /** The descriptors the divider renders for the given props and
      reduced-motion preference. */
  function Render(props: Props, reduced: bool): (s: Strip)
    // decorative: hidden from assistive technology, never takes pointer input
    ensures s.ariaHidden && s.pointerEventsNone && s.overflowHidden
    // the height prop, defaulting to 60, sizes the strip and both view boxes
    ensures props.height.None? ==> s.height == DefaultHeight
    ensures props.height.Some? ==> s.height == props.height.value
    ensures s.back.viewBox == s.front.viewBox == ViewBox(0, 0, ViewBoxWidth, s.height)
    // flipX mirrors the whole strip, and nothing else does
    ensures s.transform.Some? <==> props.flipX == Some(true)
    ensures s.transform.Some? ==> s.transform.value == ScaleX(-1)
    // the variant's paths, filled with the caller's colour, on double-width layers
    ensures s.back.path == WavePaths(props.variant).back && s.front.path == WavePaths(props.variant).front
    ensures s.back.fill == s.front.fill == props.fill
    ensures s.back.widthPercent == s.front.widthPercent == LayerWidthPercent
    ensures s.back.opacity == Some(BackOpacity) && s.front.opacity.None?
    // reduced motion: no keyframes at all; otherwise both layers travel half
    // their width (1440 units), the front starting a quarter width ahead
    ensures reduced <==> s.back.animate.NoKeyframes?
    ensures reduced <==> s.front.animate.NoKeyframes?
    ensures !reduced ==> s.back.animate.from == 0 && s.front.animate.from == s.back.animate.from - 25
    ensures !reduced ==> TravelUnits(s.back.animate) == TravelUnits(s.front.animate) == ViewBoxWidth / 2
    // endless linear loops, the front one faster
    ensures s.back.transition == LoopForever(Speed(props.variant).back)
    ensures s.front.transition == LoopForever(Speed(props.variant).front)
    ensures s.front.transition.durationSeconds < s.back.transition.durationSeconds
  {
    var paths := WavePaths(props.variant);
    var speeds := Speed(props.variant);
    var height := match props.height case Some(h) => h case None => DefaultHeight;
    var flip := match props.flipX case Some(f) => f case None => false;
    var animBack := if reduced then NoKeyframes else TranslateX(0, -50);
    var animFront := if reduced then NoKeyframes else TranslateX(-25, -75);
    var box := ViewBox(0, 0, ViewBoxWidth, height);
    Strip(
      ariaHidden := true,
      pointerEventsNone := true,
      overflowHidden := true,
      height := height,
      transform := if flip then Some(ScaleX(-1)) else None,
      back := Layer(paths.back, props.fill, box, LayerWidthPercent, Some(BackOpacity), animBack, LoopForever(speeds.back)),
      front := Layer(paths.front, props.fill, box, LayerWidthPercent, None, animFront, LoopForever(speeds.front)))
  }

  /** The three dividers the page sections mount. */
  lemma SectionDividers()
    ensures var s := Render(Props("#FFF0F6", Menu, None, Some(56)), false);
      s.height == 56 && s.back.transition.durationSeconds == 14 && s.front.transition.durationSeconds == 8
    ensures var s := Render(Props("#FDE8EF", Events, None, Some(64)), false);
      s.height == 64 && s.back.transition.durationSeconds == 10 && s.front.transition.durationSeconds == 6
    ensures var s := Render(Props("#FFF0F6", FindUs, None, Some(60)), false);
      s.height == 60 && s.back.transition.durationSeconds == 16 && s.front.transition.durationSeconds == 9
  {
  }
}

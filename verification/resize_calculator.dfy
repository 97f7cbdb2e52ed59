/**
 * `ResizeCalculator::calculate`: maps a resize configuration, the source
 * dimensions and an optional important part to resize coordinates.
 *
 * The computation runs over exact rationals and rounds each output with PHP's
 * `round` (half away from zero). Two candidate crop windows of the requested
 * aspect ratio are built: the least zoomed one (the largest window inside the
 * source, shifted toward the important part) and the most zoomed one (the
 * smallest window around the important part). The zoom level interpolates
 * linearly between them, and the whole source is scaled so that the chosen
 * window becomes exactly the requested size.
 */
module Calculator {
  import opened Common
  import opened Geometry
  import opened Dimensions
  import opened Rationals

  /** A rectangle in source pixels, over exact rationals. */
  datatype Area = Area(x: real, y: real, width: real, height: real)

  /** A size over exact rationals, before rounding. */
  datatype Extent = Extent(width: real, height: real)

  /** PHP `round`: to the nearest integer, halves away from zero. */
  function Round(r: real): (n: int)
    ensures r >= 0.0 ==> n as real - 0.5 <= r < n as real + 0.5
    ensures r < 0.0 ==> n as real - 0.5 < r <= n as real + 0.5
  {
    if r >= 0.0 then (r + 0.5).Floor else -((-r + 0.5).Floor)
  }

  /** A non-negative value within half a unit below or under half a unit above `n` rounds to `n`. */
  lemma RoundUnique(r: real, n: int)
    requires r >= 0.0 && n as real - 0.5 <= r < n as real + 0.5
    ensures Round(r) == n
  {
  }

  /** Rounding an integral value gives it back. */
  lemma RoundInteger(n: int)
    ensures Round(n as real) == n
  {
  }

  function Max(a: real, b: real): real {
    if a >= b then a else b
  }

  /** The zoom level as a factor, clamped to 0..1. */
  function ZoomFactor(level: int): (z: real)
    ensures 0.0 <= z <= 1.0
  {
    var f := level as real / 100.0;
    if f < 0.0 then 0.0 else if f > 1.0 then 1.0 else f
  }

  /** A rectangle with positive size lying inside a `width` x `height` source. */
  predicate Inside(a: Area, width: real, height: real) {
    && a.width > 0.0 && a.height > 0.0
    && 0.0 <= a.x && a.x + a.width <= width
    && 0.0 <= a.y && a.y + a.height <= height
  }

  /** The inputs the calculation is defined on. */
  predicate ValidInput(config: ResizeConfiguration, dimensions: ImageDimensions, part: Option<ImportantPart>) {
    var b := dimensions.size.box;
    && b.width > 0 && b.height > 0
    && config.width >= 0.0 && config.height >= 0.0
    && (part.Some? ==> Inside(PartArea(part.value), b.width as real, b.height as real))
  }

  function PartArea(part: ImportantPart): Area {
    Area(part.position.x as real, part.position.y as real, part.size.width as real, part.size.height as real)
  }

  /** The important part as a rectangle; without one, the whole source. */
  function ImportantArea(dimensions: ImageDimensions, part: Option<ImportantPart>): Area {
    if part.Some? then PartArea(part.value)
    else Area(0.0, 0.0, dimensions.size.box.width as real, dimensions.size.box.height as real)
  }

  /** The important part grown toward the whole source as the zoom factor falls. */
  function ZoomedImportantPart(part: Area, zoom: real, width: real, height: real): (r: Area)
    requires 0.0 <= zoom <= 1.0 && width > 0.0 && height > 0.0 && Inside(part, width, height)
    ensures Inside(r, width, height)
  {
    var r := Area(
      part.x * zoom,
      part.y * zoom,
      width - (width - part.width) * zoom,
      height - (height - part.height) * zoom);
    LerpInside(Area(0.0, 0.0, width, height), part, zoom, width, height);
    assert r == Lerp(Area(0.0, 0.0, width, height), part, zoom);
    r
  }

  /** Fills in a missing side from the aspect ratio of `shape`, never below 1. */
  function SingleDimension(width: real, height: real, shape: Area): (e: Extent)
    requires shape.width > 0.0 && shape.height > 0.0
    requires width > 0.0 || (width == 0.0 && height > 0.0)
    ensures e.width > 0.0 && e.height > 0.0
  {
    if width != 0.0 then Extent(width, Max(Scale(shape.height, width, shape.width), 1.0))
    else
      Extent(Max(Scale(shape.width, height, shape.height), 1.0), height)
  }

  /** The unrounded output size: the requested size after the mode policy. */
  function ResolvedSize(config: ResizeConfiguration, dimensions: ImageDimensions, part: Option<ImportantPart>): (e: Extent)
    requires ValidInput(config, dimensions, part)
    ensures e.width > 0.0 && e.height > 0.0
  {
    var w, h := dimensions.size.box.width as real, dimensions.size.box.height as real;
    var zoomed := ZoomedImportantPart(ImportantArea(dimensions, part), ZoomFactor(config.zoomLevel), w, h);
    SizeFor(config.width, config.height, config.mode, zoomed)
  }

  /**
   * The mode policy on a requested `width` x `height` (0 = unset) for the
   * zoomed important part `zoomed`: crop keeps both sides, proportional keeps
   * the side along the part's longer edge, box keeps the side that makes the
   * result fit inside the request; a single side takes the other from the
   * part's aspect ratio, and no side takes the part's own size.
   */
  function SizeFor(width: real, height: real, mode: ResizeMode, zoomed: Area): (e: Extent)
    requires width >= 0.0 && height >= 0.0 && zoomed.width > 0.0 && zoomed.height > 0.0
    ensures e.width > 0.0 && e.height > 0.0
  {
    if width != 0.0 && height != 0.0 then
      match mode
      case CropMode => Extent(width, height)
      case ProportionalMode =>
        if zoomed.width >= zoomed.height then SingleDimension(width, 0.0, zoomed)
        else SingleDimension(0.0, height, zoomed)
      case BoxMode =>
        if Scale(zoomed.height, width, zoomed.width) <= height then SingleDimension(width, 0.0, zoomed)
        else SingleDimension(0.0, height, zoomed)
    else if width == 0.0 && height == 0.0 then
      Extent(zoomed.width, zoomed.height)
    else
      SingleDimension(width, height, zoomed)
  }

  /**
   * Where the least zoomed window of length `s` starts on an axis of length
   * `full`, given the important part's start `q` and length `p`: a window
   * longer than the part keeps the part's relative position, a shorter one is
   * centred on it. (`s <= full` wherever this is used, so `full > p` follows
   * from `s > p`; the second conjunct only makes the division safe here.)
   */
  function LeastStart(q: real, p: real, s: real, full: real): real {
    if s > p && full > p then Scale(full - s, q, full - p) else q + (p - s) / 2.0
  }

  /**
   * Where the most zoomed window of length `s >= p` starts: moved back from the
   * part's start in proportion to how far the part sits from the origin.
   */
  function MostStart(q: real, p: real, s: real, full: real): real {
    if full > p then q - Scale(s - p, q, full - p) else q
  }

  /**
   * The largest window of the target aspect ratio inside the source, placed
   * so that the important part keeps its relative position.
   */
  function LeastZoomed(size: Extent, width: real, height: real, part: Area): Area
    requires size.width > 0.0 && size.height > 0.0 && width > 0.0 && height > 0.0
  {
    if Scale(height, size.width, width) <= size.height then
      var w := Scale(height, size.width, size.height);
      Area(LeastStart(part.x, part.width, w, width), 0.0, w, height)
    else
      var hh := Scale(width, size.height, size.width);
      Area(0.0, LeastStart(part.y, part.height, hh, height), width, hh)
  }

  /** The smallest window of the target aspect ratio around the important part. */
  function MostZoomed(size: Extent, width: real, height: real, part: Area): Area
    requires size.width > 0.0 && size.height > 0.0 && part.width > 0.0
  {
    if Scale(part.height, size.width, part.width) <= size.height then
      var hh := Scale(size.height, part.width, size.width);
      Area(part.x, MostStart(part.y, part.height, hh, height), part.width, hh)
    else
      var w := Scale(size.width, part.height, size.height);
      Area(MostStart(part.x, part.width, w, width), part.y, w, part.height)
  }

  /** Linear interpolation of the four edges: `zoom` 0 gives `a`, 1 gives `b`. */
  function Lerp(a: Area, b: Area, zoom: real): Area {
    Area(
      b.x * zoom + a.x * (1.0 - zoom),
      b.y * zoom + a.y * (1.0 - zoom),
      b.width * zoom + a.width * (1.0 - zoom),
      b.height * zoom + a.height * (1.0 - zoom))
  }

  /** The crop window actually used: the most zoomed window is dropped when it is wider. */
  function CropWindow(size: Extent, width: real, height: real, part: Area, zoom: real): Area
    requires size.width > 0.0 && size.height > 0.0 && width > 0.0 && height > 0.0
    requires Inside(part, width, height)
  {
    Interpolate(LeastZoomed(size, width, height, part), MostZoomed(size, width, height, part), zoom)
  }

  /** Moves from `least` toward `most` by `zoom`, unless `most` is the wider one. */
  function Interpolate(least: Area, most: Area, zoom: real): Area {
    Lerp(least, if most.width > least.width then least else most, zoom)
  }

  /** The coordinates before rounding: scaled size, crop start and crop size. */
  datatype Exact = Exact(size: Extent, startX: real, startY: real, crop: Extent)

  /** Scales the whole source so that `window` becomes exactly `size`. */
  function ScaleWindow(size: Extent, width: real, height: real, window: Area): (r: Exact)
    requires Inside(window, width, height) && size.width > 0.0 && size.height > 0.0
    ensures r.startX + r.crop.width <= r.size.width
    ensures r.startY + r.crop.height <= r.size.height
    ensures r.startX >= 0.0 && r.startY >= 0.0
    ensures r.crop == size
  {
    WindowScales(window.x, window.width, width, size.width);
    WindowScales(window.y, window.height, height, size.height);
    Exact(
      Extent(Scale(width, size.width, window.width), Scale(height, size.height, window.height)),
      Scale(window.x, size.width, window.width),
      Scale(window.y, size.height, window.height),
      size)
  }

  /** The exact coordinates of a configuration, before rounding. */
  function ExactCoordinates(config: ResizeConfiguration, dimensions: ImageDimensions, part: Option<ImportantPart>): (r: Exact)
    requires ValidInput(config, dimensions, part)
    ensures r.crop == ResolvedSize(config, dimensions, part)
    ensures 0.0 <= r.startX && r.startX + r.crop.width <= r.size.width
    ensures 0.0 <= r.startY && r.startY + r.crop.height <= r.size.height
  {
    var w, h := dimensions.size.box.width as real, dimensions.size.box.height as real;
    var size := ResolvedSize(config, dimensions, part);
    CropWindowInside(size, w, h, ImportantArea(dimensions, part), ZoomFactor(config.zoomLevel));
    ScaleWindow(size, w, h, CropWindow(size, w, h, ImportantArea(dimensions, part), ZoomFactor(config.zoomLevel)))
  }

  function RoundExact(e: Exact): ResizeCoordinates {
    ResizeCoordinates(
      Box(Round(e.size.width), Round(e.size.height)),
      Point(Round(e.startX), Round(e.startY)),
      Box(Round(e.crop.width), Round(e.crop.height)))
  }

  /** `ResizeCalculator::calculate`. */
  function Calculate(config: ResizeConfiguration, dimensions: ImageDimensions, part: Option<ImportantPart>): ResizeCoordinates
    requires ValidInput(config, dimensions, part)
  {
    RoundExact(ExactCoordinates(config, dimensions, part))
  }

  // ---------------------------------------------------------------------------
  // Geometric facts used by the definitions above.

  /** The least zoomed window lies inside the source and has the target aspect ratio. */
  lemma LeastZoomedInside(size: Extent, width: real, height: real, part: Area)
    requires size.width > 0.0 && size.height > 0.0 && width > 0.0 && height > 0.0
    requires Inside(part, width, height)
    ensures var r := LeastZoomed(size, width, height, part);
      Inside(r, width, height) && r.width * size.height == r.height * size.width
  {
    if Scale(height, size.width, width) <= size.height {
      LeastZoomedFullHeight(size, width, height, part);
    } else {
      LeastZoomedFullWidth(size, width, height, part);
    }
  }

  lemma LeastZoomedFullHeight(size: Extent, width: real, height: real, part: Area)
    requires size.width > 0.0 && size.height > 0.0 && width > 0.0 && height > 0.0
    requires Inside(part, width, height)
    requires Scale(height, size.width, width) <= size.height
    ensures var r := LeastZoomed(size, width, height, part);
      Inside(r, width, height) && r.width * size.height == r.height * size.width
  {
    var r := LeastZoomed(size, width, height, part);
    assert r.x == LeastStart(part.x, part.width, r.width, width) && r.y == 0.0;
    assert r.width == Scale(height, size.width, size.height) && r.height == height;
    FitsWidth(size, width, height);
    LeastAxis(width, height, size.width, size.height, part.x, part.width, r.width);
  }

  lemma LeastZoomedFullWidth(size: Extent, width: real, height: real, part: Area)
    requires size.width > 0.0 && size.height > 0.0 && width > 0.0 && height > 0.0
    requires Inside(part, width, height)
    requires !(Scale(height, size.width, width) <= size.height)
    ensures var r := LeastZoomed(size, width, height, part);
      Inside(r, width, height) && r.width * size.height == r.height * size.width
  {
    var r := LeastZoomed(size, width, height, part);
    assert r.y == LeastStart(part.y, part.height, r.height, height) && r.x == 0.0;
    assert r.height == Scale(width, size.height, size.width) && r.width == width;
    FitsWidth(size, width, height);
    LeastAxis(height, width, size.height, size.width, part.y, part.height, r.height);
  }

  /**
   * The least zoomed window spans the whole `cross` axis and takes
   * `l = cross * s / cs` on the `along` axis; it fits there when `l <= along`.
   */
  lemma LeastAxis(along: real, cross: real, s: real, cs: real, q: real, p: real, l: real)
    requires along > 0.0 && cross > 0.0 && s > 0.0 && cs > 0.0
    requires 0.0 <= q && 0.0 < p && q + p <= along
    requires l == Scale(cross, s, cs) && l <= along
    ensures l > 0.0 && l * cs == cross * s
    ensures 0.0 <= LeastStart(q, p, l, along) && LeastStart(q, p, l, along) + l <= along
  {
    ScaleCancel(cross, s, cs);
    ScalePos(cross, s, cs);
    LeastOffset(q, p, l, along);
  }

  /**
   * The most zoomed window covers the important part's size, has the target
   * aspect ratio, and lies inside the source once it fits there.
   */
  lemma MostZoomedShape(size: Extent, width: real, height: real, part: Area)
    requires size.width > 0.0 && size.height > 0.0 && width > 0.0 && height > 0.0
    requires Inside(part, width, height)
    ensures var r := MostZoomed(size, width, height, part);
      && r.width >= part.width && r.height >= part.height
      && r.width * size.height == r.height * size.width
      && (r.width <= width && r.height <= height ==> Inside(r, width, height))
  {
    if Scale(part.height, size.width, part.width) <= size.height {
      MostZoomedKeepsWidth(size, width, height, part);
    } else {
      MostZoomedKeepsHeight(size, width, height, part);
    }
  }

  lemma MostZoomedKeepsWidth(size: Extent, width: real, height: real, part: Area)
    requires size.width > 0.0 && size.height > 0.0 && width > 0.0 && height > 0.0
    requires Inside(part, width, height)
    requires Scale(part.height, size.width, part.width) <= size.height
    ensures var r := MostZoomed(size, width, height, part);
      && r.width == part.width && r.height >= part.height
      && r.width * size.height == r.height * size.width
      && (r.height <= height ==> Inside(r, width, height))
  {
    var r := MostZoomed(size, width, height, part);
    assert r.y == MostStart(part.y, part.height, r.height, height) && r.x == part.x;
    assert r.height == Scale(size.height, part.width, size.width) && r.width == part.width;
    MostAxis(part.height, part.width, size.width, size.height, part.y, height, r.height);
  }

  lemma MostZoomedKeepsHeight(size: Extent, width: real, height: real, part: Area)
    requires size.width > 0.0 && size.height > 0.0 && width > 0.0 && height > 0.0
    requires Inside(part, width, height)
    requires !(Scale(part.height, size.width, part.width) <= size.height)
    ensures var r := MostZoomed(size, width, height, part);
      && r.width >= part.width && r.height == part.height
      && r.width * size.height == r.height * size.width
      && (r.width <= width ==> Inside(r, width, height))
  {
    var r := MostZoomed(size, width, height, part);
    assert r.x == MostStart(part.x, part.width, r.width, width) && r.y == part.y;
    assert r.width == Scale(size.width, part.height, size.height) && r.height == part.height;
    MostAxisWide(part.height, part.width, size.width, size.height, part.x, width, r.width);
  }

  /**
   * With `p * s / c <= cs` (the part is no taller than the target shape), the
   * most zoomed window keeps the part's width `c` and takes `l = cs * c / s`,
   * at least `p`, along the other axis.
   */
  lemma MostAxis(p: real, c: real, s: real, cs: real, q: real, full: real, l: real)
    requires p > 0.0 && c > 0.0 && s > 0.0 && cs > 0.0 && 0.0 <= q && q + p <= full
    requires Scale(p, s, c) <= cs && l == Scale(cs, c, s)
    ensures l >= p && l * s == cs * c
    ensures l <= full ==> 0.0 <= MostStart(q, p, l, full) && MostStart(q, p, l, full) + l <= full
  {
    ScaleLe(p, s, c, cs);
    ScaleCancel(cs, c, s);
    LeScale(cs, c, s, p);
    MostOffset(q, p, l, full);
  }

  /**
   * With `p * s / c > cs` (the part is taller than the target shape), the most
   * zoomed window keeps the part's height `p` and takes `l = s * p / cs`, at
   * least `c`, along the width.
   */
  lemma MostAxisWide(p: real, c: real, s: real, cs: real, q: real, full: real, l: real)
    requires p > 0.0 && c > 0.0 && s > 0.0 && cs > 0.0 && 0.0 <= q && q + c <= full
    requires !(Scale(p, s, c) <= cs) && l == Scale(s, p, cs)
    ensures l >= c && l * cs == s * p
    ensures l <= full ==> 0.0 <= MostStart(q, c, l, full) && MostStart(q, c, l, full) + l <= full
  {
    ScaleLe(p, s, c, cs);
    ScaleCancel(s, p, cs);
    LeScale(s, p, cs, c);
    MostOffset(q, c, l, full);
  }

  /** The crop window lies inside the source. */
  lemma CropWindowInside(size: Extent, width: real, height: real, part: Area, zoom: real)
    requires size.width > 0.0 && size.height > 0.0 && width > 0.0 && height > 0.0
    requires Inside(part, width, height) && 0.0 <= zoom <= 1.0
    ensures Inside(CropWindow(size, width, height, part, zoom), width, height)
  {
    CandidatesShape(size, width, height, part);
    InterpolateInside(LeastZoomed(size, width, height, part), MostZoomed(size, width, height, part), size, width, height, zoom);
  }

  /**
   * What the crop window needs of its two candidates: the least zoomed one
   * lies inside the source, both have the target aspect ratio, and the most
   * zoomed one lies inside the source whenever it fits there.
   */
  predicate Candidates(least: Area, most: Area, size: Extent, width: real, height: real) {
    && Inside(least, width, height)
    && least.width * size.height == least.height * size.width
    && most.width * size.height == most.height * size.width
    && (most.width <= width && most.height <= height ==> Inside(most, width, height))
  }

  lemma CandidatesShape(size: Extent, width: real, height: real, part: Area)
    requires size.width > 0.0 && size.height > 0.0 && width > 0.0 && height > 0.0
    requires Inside(part, width, height)
    ensures Candidates(LeastZoomed(size, width, height, part), MostZoomed(size, width, height, part), size, width, height)
  {
    LeastZoomedInside(size, width, height, part);
    MostZoomedShape(size, width, height, part);
  }

  lemma InterpolateInside(least: Area, most: Area, size: Extent, width: real, height: real, zoom: real)
    requires size.width > 0.0 && size.height > 0.0 && 0.0 <= zoom <= 1.0
    requires Candidates(least, most, size, width, height)
    ensures Inside(Interpolate(least, most, zoom), width, height)
  {
    NarrowerInside(most, least, size, width, height);
    LerpInside(least, if most.width > least.width then least else most, zoom, width, height);
  }

  /**
   * Of two windows of the same aspect ratio, a narrower one lies inside the
   * source whenever the wider one does and it fits at all.
   */
  lemma NarrowerInside(most: Area, least: Area, size: Extent, width: real, height: real)
    requires size.width > 0.0 && size.height > 0.0
    requires Inside(least, width, height)
    requires least.width * size.height == least.height * size.width
    requires most.width * size.height == most.height * size.width
    requires most.width <= width && most.height <= height ==> Inside(most, width, height)
    ensures Inside(if most.width > least.width then least else most, width, height)
  {
    NarrowerIsLower(most, least, size);
  }

  /**
   * The branch test of `LeastZoomed`: when the full height scaled to the target
   * ratio is no wider than the source, the window spans the full height and
   * fits in the width; otherwise it spans the full width and is lower than the
   * source.
   */
  lemma FitsWidth(size: Extent, width: real, height: real)
    requires size.width > 0.0 && size.height > 0.0 && width > 0.0 && height > 0.0
    ensures Scale(height, size.width, width) <= size.height ==> Scale(height, size.width, size.height) <= width
    ensures !(Scale(height, size.width, width) <= size.height) ==> Scale(width, size.height, size.width) < height
  {
    ScaleLe(height, size.width, width, size.height);
    ScaleLe(height, size.width, size.height, width);
    LeScale(width, size.height, size.width, height);
  }

  /** Where the least zoomed window of length `s` starts on an axis of length `full`. */
  lemma LeastOffset(q: real, p: real, s: real, full: real)
    requires 0.0 < p && 0.0 <= q && q + p <= full && 0.0 < s <= full
    ensures 0.0 <= LeastStart(q, p, s, full) && LeastStart(q, p, s, full) + s <= full
  {
    if s > p {
      ScaleBounded(full - s, q, full - p);
    }
  }

  /** Where the most zoomed window of length `s >= p` starts on an axis of length `full`. */
  lemma MostOffset(q: real, p: real, s: real, full: real)
    requires 0.0 < p <= s && 0.0 <= q && q + p <= full
    ensures s <= full ==> 0.0 <= MostStart(q, p, s, full) && MostStart(q, p, s, full) + s <= full
  {
    if full > p && s <= full {
      var d := full - p;
      // The start is the part's start scaled by `(full - s) / (full - p)`.
      ScaleCancel(s - p, q, d);
      assert (q - Scale(s - p, q, d)) * d == (full - s) * q;
      ScaleUnique(q - Scale(s - p, q, d), full - s, q, d);
      ScaleBounded(full - s, q, d);
    }
  }

  /** Of two windows with the same aspect ratio, the narrower is also the lower. */
  lemma NarrowerIsLower(a: Area, b: Area, size: Extent)
    requires size.width > 0.0 && size.height > 0.0
    requires a.width * size.height == a.height * size.width
    requires b.width * size.height == b.height * size.width
    ensures a.width <= b.width ==> a.height <= b.height
  {
    if a.width <= b.width {
      MulMono(a.width, b.width, size.height);
      if a.height > b.height {
        MulStrict(b.height, a.height, size.width);
      }
    }
  }

  /** Interpolating between two windows inside the source stays inside it. */
  lemma LerpInside(a: Area, b: Area, zoom: real, width: real, height: real)
    requires Inside(a, width, height) && Inside(b, width, height) && 0.0 <= zoom <= 1.0
    ensures Inside(Lerp(a, b, zoom), width, height)
  {
    LerpAxis(a.x, a.width, b.x, b.width, zoom, width);
    LerpAxis(a.y, a.height, b.y, b.height, zoom, height);
    var r := Lerp(a, b, zoom);
    assert r.x == b.x * zoom + a.x * (1.0 - zoom);
    assert 0.0 <= r.x;
    assert r.width > 0.0;
    assert r.x + r.width <= width;
    assert r.y >= 0.0;
    assert r.height > 0.0;
    assert r.y + r.height <= height;
  }

  /** One axis of `LerpInside`. */
  lemma LerpAxis(aStart: real, aLength: real, bStart: real, bLength: real, zoom: real, full: real)
    requires 0.0 <= aStart && 0.0 < aLength && aStart + aLength <= full
    requires 0.0 <= bStart && 0.0 < bLength && bStart + bLength <= full
    requires 0.0 <= zoom <= 1.0
    ensures var start, length := bStart * zoom + aStart * (1.0 - zoom), bLength * zoom + aLength * (1.0 - zoom);
      0.0 <= start && 0.0 < length && start + length <= full
  {
    ConvexPositive(bLength, aLength, zoom);
    ConvexNonNegative(bStart, aStart, zoom);
    ConvexBelow(bStart + bLength, aStart + aLength, full, zoom);
    assert (bStart + bLength) * zoom == bStart * zoom + bLength * zoom;
    assert (aStart + aLength) * (1.0 - zoom) == aStart * (1.0 - zoom) + aLength * (1.0 - zoom);
  }

  /** Scaling a window inside the source keeps the crop inside the scaled source. */
  lemma WindowScales(pos: real, len: real, full: real, target: real)
    requires len > 0.0 && pos >= 0.0 && pos + len <= full && target > 0.0
    ensures Scale(pos, target, len) + target <= Scale(full, target, len)
    ensures Scale(pos, target, len) >= 0.0
  {
    ScaleCancel(pos, target, len);
    ScaleCancel(full, target, len);
    MulMono(pos + len, full, target);
    assert (Scale(pos, target, len) + target) * len == (pos + len) * target;
    ScaleLe(pos + len, target, len, Scale(full, target, len));
    ScaleUnique(Scale(pos, target, len) + target, pos + len, target, len);
    MulMono(0.0, pos, target);
    LeScale(pos, target, len, 0.0);
  }
}

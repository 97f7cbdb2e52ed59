/**
 * What `ResizeCalculator::calculate` promises beyond single fixtures: without
 * an important part the zoom level changes nothing, and without a requested
 * size the whole source is kept.
 */
module CalculatorProperties {
  import opened Common
  import opened Geometry
  import opened Dimensions
  import opened Rationals
  import opened Calculator

  /** The whole source as a rectangle. */
  function Full(width: real, height: real): Area {
    Area(0.0, 0.0, width, height)
  }

  /** Growing the whole source toward itself leaves it unchanged. */
  lemma ZoomedFull(zoom: real, width: real, height: real)
    requires 0.0 <= zoom <= 1.0 && width > 0.0 && height > 0.0
    ensures ZoomedImportantPart(Full(width, height), zoom, width, height) == Full(width, height)
  {
    var r := ZoomedImportantPart(Full(width, height), zoom, width, height);
    assert r.x == 0.0 * zoom && r.width == width - (width - width) * zoom;
    assert r.y == 0.0 * zoom && r.height == height - (height - height) * zoom;
  }

  /** Interpolating between a window and itself gives it back. */
  lemma LerpSame(a: Area, zoom: real)
    ensures Lerp(a, a, zoom) == a
  {
    Affine(a.x, zoom);
    Affine(a.y, zoom);
    Affine(a.width, zoom);
    Affine(a.height, zoom);
  }

  lemma Affine(v: real, zoom: real)
    ensures v * zoom + v * (1.0 - zoom) == v
  {
    assert v * (1.0 - zoom) == v - v * zoom;
  }

  /**
   * With the whole source as the important part, the crop window is the least
   * zoomed window at every zoom factor: the most zoomed window is then either
   * wider than it or the very same window.
   */
  lemma FullPartCropWindow(size: Extent, width: real, height: real, zoom: real)
    requires size.width > 0.0 && size.height > 0.0 && width > 0.0 && height > 0.0
    ensures CropWindow(size, width, height, Full(width, height), zoom) == LeastZoomed(size, width, height, Full(width, height))
  {
    var full := Full(width, height);
    var least := LeastZoomed(size, width, height, full);
    var most := MostZoomed(size, width, height, full);
    if Scale(height, size.width, width) <= size.height {
      FullPartFullHeight(size, width, height);
    } else {
      FullPartFullWidth(size, width, height);
    }
    assert CropWindow(size, width, height, full, zoom) == Interpolate(least, most, zoom);
    LerpSame(least, zoom);
  }

  /** The full-height case of `FullPartCropWindow`. */
  lemma FullPartFullHeight(size: Extent, width: real, height: real)
    requires size.width > 0.0 && size.height > 0.0 && width > 0.0 && height > 0.0
    requires Scale(height, size.width, width) <= size.height
    ensures var least := LeastZoomed(size, width, height, Full(width, height));
      var most := MostZoomed(size, width, height, Full(width, height));
      most.width > least.width || most == least
  {
    var least := LeastZoomed(size, width, height, Full(width, height));
    var most := MostZoomed(size, width, height, Full(width, height));
    assert least.x == LeastStart(0.0, width, least.width, width) && least.y == 0.0;
    assert least.width == Scale(height, size.width, size.height) && least.height == height;
    assert most.y == MostStart(0.0, height, most.height, height) && most.x == 0.0;
    assert most.height == Scale(size.height, width, size.width) && most.width == width;
    FitsWidth(size, width, height);
    if least.width == width {
      ScaleCancel(height, size.width, size.height);
      ScaleUnique(height, size.height, width, size.width);
    }
  }

  /** The full-width case of `FullPartCropWindow`. */
  lemma FullPartFullWidth(size: Extent, width: real, height: real)
    requires size.width > 0.0 && size.height > 0.0 && width > 0.0 && height > 0.0
    requires !(Scale(height, size.width, width) <= size.height)
    ensures var least := LeastZoomed(size, width, height, Full(width, height));
      var most := MostZoomed(size, width, height, Full(width, height));
      most.width > least.width
  {
    var least := LeastZoomed(size, width, height, Full(width, height));
    var most := MostZoomed(size, width, height, Full(width, height));
    assert least.width == width;
    assert most.width == Scale(size.width, height, size.height);
    ScaleLe(height, size.width, width, size.height);
    ScaleLe(size.width, height, size.height, width);
  }

  /**
   * Without an important part the zoom level changes nothing: the result is
   * the one at zoom level 0.
   */
  lemma CalculateIgnoresZoomWithoutPart(config: ResizeConfiguration, dimensions: ImageDimensions)
    requires ValidInput(config, dimensions, None)
    ensures Calculate(config, dimensions, None) == Calculate(config.(zoomLevel := 0), dimensions, None)
  {
    ExactIgnoresZoomWithoutPart(config, dimensions);
  }

  /** The exact coordinates, before rounding, are those at zoom level 0 too. */
  lemma ExactIgnoresZoomWithoutPart(config: ResizeConfiguration, dimensions: ImageDimensions)
    requires ValidInput(config, dimensions, None)
    ensures ExactCoordinates(config, dimensions, None) == ExactCoordinates(config.(zoomLevel := 0), dimensions, None)
  {
    var w, h := dimensions.size.box.width as real, dimensions.size.box.height as real;
    var unzoomed := config.(zoomLevel := 0);
    assert ImportantArea(dimensions, None) == Full(w, h);
    ZoomedFull(ZoomFactor(config.zoomLevel), w, h);
    ZoomedFull(ZoomFactor(0), w, h);
    var size := ResolvedSize(config, dimensions, None);
    assert ResolvedSize(unzoomed, dimensions, None) == size;
    FullPartCropWindow(size, w, h, ZoomFactor(config.zoomLevel));
    FullPartCropWindow(size, w, h, ZoomFactor(0));
  }

  /** Scaling a value by a ratio of 1 gives it back. */
  lemma ScaleSame(a: real, b: real)
    requires b != 0.0
    ensures Scale(a, b, b) == a && Scale(b, a, b) == a
  {
    ScaleUnique(a, a, b, b);
    ScaleUnique(a, b, a, b);
  }

  /** With neither a size nor an important part, the whole source is kept as it is. */
  lemma CalculateWithoutSizeIsIdentity(mode: ResizeMode, zoomLevel: int, dimensions: ImageDimensions)
    requires dimensions.size.box.width > 0 && dimensions.size.box.height > 0
    ensures var b := dimensions.size.box;
      Calculate(ResizeConfiguration(0.0, 0.0, mode, zoomLevel), dimensions, None)
        == ResizeCoordinates(b, Point(0, 0), b)
  {
    var b := dimensions.size.box;
    var w, h := b.width as real, b.height as real;
    var config := ResizeConfiguration(0.0, 0.0, mode, zoomLevel);
    var full := Full(w, h);
    assert ImportantArea(dimensions, None) == full;
    ZoomedFull(ZoomFactor(zoomLevel), w, h);
    var size := Extent(w, h);
    assert ResolvedSize(config, dimensions, None) == size;
    var least := LeastZoomed(size, w, h, full);
    ScaleSame(h, w);
    ScaleSame(w, h);
    assert least.width == w && least.height == h && least.x == 0.0 && least.y == 0.0;
    FullPartCropWindow(size, w, h, ZoomFactor(zoomLevel));
    var exact := ExactCoordinates(config, dimensions, None);
    assert exact == ScaleWindow(size, w, h, least);
    ScaleSame(0.0, w);
    ScaleSame(0.0, h);
    ScaleSame(w, w);
    ScaleSame(h, h);
    assert exact == Exact(size, 0.0, 0.0, size);
    RoundInteger(b.width);
    RoundInteger(b.height);
    RoundInteger(0);
  }

  /**
   * Without an important part the crop is centred in the scaled image, in
   * every mode and at every zoom level: as much is cut away before the crop as
   * after it, on both axes.
   */
  lemma CentredWithoutPart(config: ResizeConfiguration, dimensions: ImageDimensions)
    requires ValidInput(config, dimensions, None)
    ensures var e := ExactCoordinates(config, dimensions, None);
      && e.startX * 2.0 == e.size.width - e.crop.width
      && e.startY * 2.0 == e.size.height - e.crop.height
  {
    var w, h := dimensions.size.box.width as real, dimensions.size.box.height as real;
    var full := Full(w, h);
    assert ImportantArea(dimensions, None) == full;
    ZoomedFull(ZoomFactor(config.zoomLevel), w, h);
    var size := ResolvedSize(config, dimensions, None);
    FullPartCropWindow(size, w, h, ZoomFactor(config.zoomLevel));
    var least := LeastZoomed(size, w, h, full);
    LeastZoomedInside(size, w, h, full);
    LeastCentred(size, w, h);
    assert ExactCoordinates(config, dimensions, None) == ScaleWindow(size, w, h, least);
    ScaledCentred(least.x, least.width, w, size.width);
    ScaledCentred(least.y, least.height, h, size.height);
  }

  /** The least zoomed window around the whole source sits in its middle. */
  lemma LeastCentred(size: Extent, width: real, height: real)
    requires size.width > 0.0 && size.height > 0.0 && width > 0.0 && height > 0.0
    ensures var r := LeastZoomed(size, width, height, Full(width, height));
      r.x * 2.0 == width - r.width && r.y * 2.0 == height - r.height
  {
    FitsWidth(size, width, height);
  }

  /** Scaling an axis keeps a window centred on it. */
  lemma ScaledCentred(start: real, length: real, full: real, target: real)
    requires length > 0.0 && start * 2.0 == full - length
    ensures Scale(start, target, length) * 2.0 == Scale(full, target, length) - target
  {
    var a, b := Scale(start, target, length), Scale(full, target, length);
    ScaleCancel(start, target, length);
    ScaleCancel(full, target, length);
    calc {
      (a * 2.0) * length;
    ==
      (start * 2.0) * target;
    ==
      full * target - length * target;
    ==
      (b - target) * length;
    }
    MulCancel(a * 2.0, b - target, length);
  }

  // ---------------------------------------------------------------------------
  // The two candidate windows.

  /** `e` has the aspect ratio of `a`. */
  predicate SameAspect(width: real, height: real, a: Area) {
    width * a.height == height * a.width
  }

  /**
   * The least zoomed window is the largest window of the target aspect ratio
   * inside the source: every other such window is at most as wide and as high.
   */
  lemma LeastZoomedIsLargest(size: Extent, width: real, height: real, part: Area, r: Area)
    requires size.width > 0.0 && size.height > 0.0 && width > 0.0 && height > 0.0
    requires Inside(part, width, height) && Inside(r, width, height)
    requires r.width * size.height == r.height * size.width
    ensures var least := LeastZoomed(size, width, height, part);
      r.width <= least.width && r.height <= least.height
  {
    var least := LeastZoomed(size, width, height, part);
    LeastZoomedInside(size, width, height, part);
    if Scale(height, size.width, width) <= size.height {
      assert least.height == height;
      if r.width > least.width {
        MulStrict(least.width, r.width, size.height);
        if r.height <= least.height {
          MulMono(r.height, least.height, size.width);
        }
      }
    } else {
      assert least.width == width;
    }
    NarrowerIsLower(r, least, size);
  }

  /** At zoom factor 0 the interpolation is the least zoomed end, at 1 the other end. */
  lemma LerpEnds(a: Area, b: Area)
    ensures Lerp(a, b, 0.0) == a && Lerp(a, b, 1.0) == b
  {
  }

  /** The size of the least zoomed window does not depend on the important part. */
  lemma LeastZoomedSizeIgnoresPart(size: Extent, width: real, height: real, a: Area, b: Area)
    requires size.width > 0.0 && size.height > 0.0 && width > 0.0 && height > 0.0
    ensures LeastZoomed(size, width, height, a).width == LeastZoomed(size, width, height, b).width
    ensures LeastZoomed(size, width, height, a).height == LeastZoomed(size, width, height, b).height
  {
  }

  /** The important part at zoom factor 0 is the whole source, at 1 the part itself. */
  lemma ZoomedEnds(part: Area, width: real, height: real)
    requires width > 0.0 && height > 0.0 && Inside(part, width, height)
    ensures ZoomedImportantPart(part, 0.0, width, height) == Full(width, height)
    ensures ZoomedImportantPart(part, 1.0, width, height) == part
  {
  }

  /**
   * At zoom level 0 or below, an important part moves the crop but changes
   * neither the scaled size nor the crop size: both are those computed
   * without a part.
   */
  lemma ZoomZeroKeepsSizes(config: ResizeConfiguration, dimensions: ImageDimensions, part: ImportantPart)
    requires ValidInput(config, dimensions, Some(part)) && config.zoomLevel <= 0
    ensures Calculate(config, dimensions, Some(part)).size == Calculate(config, dimensions, None).size
    ensures Calculate(config, dimensions, Some(part)).cropSize == Calculate(config, dimensions, None).cropSize
  {
    var w, h := dimensions.size.box.width as real, dimensions.size.box.height as real;
    var pa := PartArea(part);
    assert ZoomFactor(config.zoomLevel) == 0.0;
    assert ImportantArea(dimensions, Some(part)) == pa;
    assert ImportantArea(dimensions, None) == Full(w, h);
    ZoomedEnds(pa, w, h);
    ZoomedFull(0.0, w, h);
    var size := ResolvedSize(config, dimensions, None);
    assert ResolvedSize(config, dimensions, Some(part)) == size;
    var withPart := CropWindow(size, w, h, pa, 0.0);
    var without := CropWindow(size, w, h, Full(w, h), 0.0);
    LerpEnds(LeastZoomed(size, w, h, pa), LeastZoomed(size, w, h, pa));
    assert withPart == LeastZoomed(size, w, h, pa) by {
      LerpEnds(LeastZoomed(size, w, h, pa), if MostZoomed(size, w, h, pa).width > LeastZoomed(size, w, h, pa).width then LeastZoomed(size, w, h, pa) else MostZoomed(size, w, h, pa));
    }
    FullPartCropWindow(size, w, h, 0.0);
    LeastZoomedSizeIgnoresPart(size, w, h, pa, Full(w, h));
    assert withPart.width == without.width && withPart.height == without.height;
  }

  /**
   * With no size requested and zoom level 100 or more, the output is exactly
   * the important part, cut from the unscaled source.
   */
  lemma NoSizeFullZoomCropsPart(mode: ResizeMode, zoomLevel: int, dimensions: ImageDimensions, part: ImportantPart)
    requires zoomLevel >= 100
    requires ValidInput(ResizeConfiguration(0.0, 0.0, mode, zoomLevel), dimensions, Some(part))
    ensures Calculate(ResizeConfiguration(0.0, 0.0, mode, zoomLevel), dimensions, Some(part))
      == ResizeCoordinates(dimensions.size.box, part.position, part.size)
  {
    var config := ResizeConfiguration(0.0, 0.0, mode, zoomLevel);
    var w, h := dimensions.size.box.width as real, dimensions.size.box.height as real;
    var pa := PartArea(part);
    assert ZoomFactor(zoomLevel) == 1.0;
    assert ImportantArea(dimensions, Some(part)) == pa;
    ZoomedEnds(pa, w, h);
    var size := Extent(pa.width, pa.height);
    assert ResolvedSize(config, dimensions, Some(part)) == size;
    MostIsPart(size, w, h, pa);
    LeastZoomedIsLargest(size, w, h, pa, pa);
    var least := LeastZoomed(size, w, h, pa);
    assert CropWindow(size, w, h, pa, 1.0) == Lerp(least, pa, 1.0);
    LerpEnds(least, pa);
    ScaleSame(w, pa.width);
    ScaleSame(h, pa.height);
    ScaleSame(pa.x, pa.width);
    ScaleSame(pa.y, pa.height);
    assert ExactCoordinates(config, dimensions, Some(part)) == Exact(Extent(w, h), pa.x, pa.y, size);
    RoundInteger(dimensions.size.box.width);
    RoundInteger(dimensions.size.box.height);
    RoundInteger(part.position.x);
    RoundInteger(part.position.y);
    RoundInteger(part.size.width);
    RoundInteger(part.size.height);
  }

  /** Asked for the important part's own size, the most zoomed window is the part itself. */
  lemma MostIsPart(size: Extent, width: real, height: real, part: Area)
    requires width > 0.0 && height > 0.0 && Inside(part, width, height)
    requires size == Extent(part.width, part.height)
    ensures MostZoomed(size, width, height, part) == part
  {
    var most := MostZoomed(size, width, height, part);
    ScaleSame(part.height, part.width);
    assert most.height == Scale(size.height, part.width, size.width);
    assert most.y == MostStart(part.y, part.height, most.height, height);
    if height > part.height {
      ScaleUnique(0.0, 0.0, part.y, height - part.height);
    }
  }

  // ---------------------------------------------------------------------------
  // The mode policy.

  /**
   * One requested side is kept; the other follows the shape's aspect ratio,
   * except that it never drops below 1.
   */
  lemma SingleDimensionKeepsAspect(width: real, height: real, shape: Area)
    requires shape.width > 0.0 && shape.height > 0.0
    requires width > 0.0 || (width == 0.0 && height > 0.0)
    ensures var e := SingleDimension(width, height, shape);
      && (width != 0.0 ==> e.width == width && e.height >= 1.0 && (e.height > 1.0 ==> SameAspect(e.width, e.height, shape)))
      && (width == 0.0 ==> e.height == height && e.width >= 1.0 && (e.width > 1.0 ==> SameAspect(e.width, e.height, shape)))
  {
    if width != 0.0 {
      ScaleCancel(shape.height, width, shape.width);
    } else {
      ScaleCancel(shape.width, height, shape.height);
    }
  }

  /**
   * Crop mode with both sides requested always outputs the requested size,
   * rounded, whatever the source, the important part and the zoom level.
   */
  lemma CropModeKeepsRequest(config: ResizeConfiguration, dimensions: ImageDimensions, part: Option<ImportantPart>)
    requires ValidInput(config, dimensions, part)
    requires config.mode == CropMode && config.width > 0.0 && config.height > 0.0
    ensures Calculate(config, dimensions, part).cropSize == Box(Round(config.width), Round(config.height))
  {
    assert ResolvedSize(config, dimensions, part) == Extent(config.width, config.height);
  }

  /**
   * Proportional mode keeps the requested width for a landscape or square
   * source and the requested height for a portrait one, and follows the
   * source's aspect ratio for the other side.
   */
  lemma ProportionalKeepsLongerSide(width: real, height: real, zoomed: Area)
    requires width > 0.0 && height > 0.0 && zoomed.width > 0.0 && zoomed.height > 0.0
    ensures var e := SizeFor(width, height, ProportionalMode, zoomed);
      && (zoomed.width >= zoomed.height ==> e.width == width)
      && (zoomed.width < zoomed.height ==> e.height == height)
      && (e.width > 1.0 && e.height > 1.0 ==> SameAspect(e.width, e.height, zoomed))
  {
    if zoomed.width >= zoomed.height {
      SingleDimensionKeepsAspect(width, 0.0, zoomed);
    } else {
      SingleDimensionKeepsAspect(0.0, height, zoomed);
    }
  }

  /**
   * Box mode fits the result inside the requested box: one side is the
   * requested one, the other is no larger than requested, and the source's
   * aspect ratio is kept.
   */
  lemma BoxModeFitsInside(width: real, height: real, zoomed: Area)
    requires width >= 1.0 && height >= 1.0 && zoomed.width > 0.0 && zoomed.height > 0.0
    ensures var e := SizeFor(width, height, BoxMode, zoomed);
      && e.width <= width && e.height <= height
      && (e.width == width || e.height == height)
      && (e.width > 1.0 && e.height > 1.0 ==> SameAspect(e.width, e.height, zoomed))
  {
    ScaleLe(zoomed.height, width, zoomed.width, height);
    if Scale(zoomed.height, width, zoomed.width) <= height {
      SingleDimensionKeepsAspect(width, 0.0, zoomed);
    } else {
      SingleDimensionKeepsAspect(0.0, height, zoomed);
      ScaleLe(zoomed.width, height, zoomed.height, width);
    }
  }

  /**
   * Without a requested size, in any mode, the output is the important part
   * grown by the zoom level, at its own size in source pixels, rounded.
   */
  lemma NoRequestKeepsPartSize(config: ResizeConfiguration, dimensions: ImageDimensions, part: Option<ImportantPart>)
    requires ValidInput(config, dimensions, part) && config.width == 0.0 && config.height == 0.0
    ensures var w, h := dimensions.size.box.width as real, dimensions.size.box.height as real;
      var zoomed := ZoomedImportantPart(ImportantArea(dimensions, part), ZoomFactor(config.zoomLevel), w, h);
      Calculate(config, dimensions, part).cropSize == Box(Round(zoomed.width), Round(zoomed.height))
  {
    var w, h := dimensions.size.box.width as real, dimensions.size.box.height as real;
    var zoomed := ZoomedImportantPart(ImportantArea(dimensions, part), ZoomFactor(config.zoomLevel), w, h);
    assert ResolvedSize(config, dimensions, part) == Extent(zoomed.width, zoomed.height);
  }
}

/**
 * The data sets of the calculator's own test. For each data set one lemma
 * states the coordinates the test expects; two step lemmas before it spell
 * out the crop window and the exact, unrounded coordinates, so that each
 * proof only checks a few steps of rational arithmetic.
 */
module CalculatorFixtures {
  import opened Common
  import opened Geometry
  import opened Dimensions
  import opened Rationals
  import opened Calculator
  import opened CalculatorProperties

  /** The expected coordinates in the order the test writes them. */
  function Coordinates(targetWidth: int, targetHeight: int, x: int, y: int, width: int, height: int): ResizeCoordinates {
    ResizeCoordinates(Box(targetWidth, targetHeight), Point(x, y), Box(width, height))
  }

  /** `r` rounds to `n` and is not negative. */
  predicate RoundsNear(r: real, n: int) {
    r >= 0.0 && n as real - 0.5 <= r < n as real + 0.5
  }

  /** Exact coordinates within half a pixel of `c` round to `c`. */
  lemma RoundsTo(e: Exact, c: ResizeCoordinates)
    requires RoundsNear(e.size.width, c.size.width) && RoundsNear(e.size.height, c.size.height)
    requires RoundsNear(e.startX, c.cropStart.x) && RoundsNear(e.startY, c.cropStart.y)
    requires RoundsNear(e.crop.width, c.cropSize.width) && RoundsNear(e.crop.height, c.cropSize.height)
    ensures RoundExact(e) == c
  {
    RoundUnique(e.size.width, c.size.width);
    RoundUnique(e.size.height, c.size.height);
    RoundUnique(e.startX, c.cropStart.x);
    RoundUnique(e.startY, c.cropStart.y);
    RoundUnique(e.crop.width, c.cropSize.width);
    RoundUnique(e.crop.height, c.cropSize.height);
  }

  /** The crop window of "no dimensions". */
  lemma NoDimensionsWindow()
    ensures CropWindow(Extent(100.0, 100.0), 100.0, 100.0, Area(0.0, 0.0, 100.0, 100.0), 0.0) == Area(0.0, 0.0, 100.0, 100.0)
  {
  }

  /** The exact coordinates of "no dimensions", and how they round. */
  lemma NoDimensionsExact()
    ensures ExactCoordinates(ResizeConfiguration(0.0, 0.0, CropMode, 0), DimensionsOf(PlainBox(100, 100)), None) == Exact(Extent(100.0, 100.0), 0.0, 0.0, Extent(100.0, 100.0))
    ensures ExactCoordinates(ResizeConfiguration(0.0, 0.0, CropMode, 50), DimensionsOf(PlainBox(100, 100)), None) == Exact(Extent(100.0, 100.0), 0.0, 0.0, Extent(100.0, 100.0))
    ensures ExactCoordinates(ResizeConfiguration(0.0, 0.0, CropMode, 100), DimensionsOf(PlainBox(100, 100)), None) == Exact(Extent(100.0, 100.0), 0.0, 0.0, Extent(100.0, 100.0))
    ensures RoundExact(Exact(Extent(100.0, 100.0), 0.0, 0.0, Extent(100.0, 100.0))) == Coordinates(100, 100, 0, 0, 100, 100)
  {
    RoundsTo(Exact(Extent(100.0, 100.0), 0.0, 0.0, Extent(100.0, 100.0)), Coordinates(100, 100, 0, 0, 100, 100));
    var dimensions := DimensionsOf(PlainBox(100, 100));
    var part := None;
    assert ImportantArea(dimensions, part) == Area(0.0, 0.0, 100.0, 100.0);
    assert ZoomFactor(0) == 0.0;
    assert ResolvedSize(ResizeConfiguration(0.0, 0.0, CropMode, 0), dimensions, part) == Extent(100.0, 100.0);
    NoDimensionsWindow();
    ExactIgnoresZoomWithoutPart(ResizeConfiguration(0.0, 0.0, CropMode, 50), DimensionsOf(PlainBox(100, 100)));
    ExactIgnoresZoomWithoutPart(ResizeConfiguration(0.0, 0.0, CropMode, 100), DimensionsOf(PlainBox(100, 100)));
  }

  /** "no dimensions", without an important part, at zoom levels 0, 50 and 100. */
  lemma NoDimensions()
    ensures Calculate(ResizeConfiguration(0.0, 0.0, CropMode, 0), DimensionsOf(PlainBox(100, 100)), None) == Coordinates(100, 100, 0, 0, 100, 100)
    ensures Calculate(ResizeConfiguration(0.0, 0.0, CropMode, 50), DimensionsOf(PlainBox(100, 100)), None) == Coordinates(100, 100, 0, 0, 100, 100)
    ensures Calculate(ResizeConfiguration(0.0, 0.0, CropMode, 100), DimensionsOf(PlainBox(100, 100)), None) == Coordinates(100, 100, 0, 0, 100, 100)
  {
    NoDimensionsExact();
  }

  /** The crop window of "same dimensions". */
  lemma SameDimensionsWindow()
    ensures CropWindow(Extent(100.0, 100.0), 100.0, 100.0, Area(0.0, 0.0, 100.0, 100.0), 0.0) == Area(0.0, 0.0, 100.0, 100.0)
  {
  }

  /** The exact coordinates of "same dimensions", and how they round. */
  lemma SameDimensionsExact()
    ensures ExactCoordinates(ResizeConfiguration(100.0, 100.0, CropMode, 0), DimensionsOf(PlainBox(100, 100)), None) == Exact(Extent(100.0, 100.0), 0.0, 0.0, Extent(100.0, 100.0))
    ensures ExactCoordinates(ResizeConfiguration(100.0, 100.0, CropMode, 50), DimensionsOf(PlainBox(100, 100)), None) == Exact(Extent(100.0, 100.0), 0.0, 0.0, Extent(100.0, 100.0))
    ensures ExactCoordinates(ResizeConfiguration(100.0, 100.0, CropMode, 100), DimensionsOf(PlainBox(100, 100)), None) == Exact(Extent(100.0, 100.0), 0.0, 0.0, Extent(100.0, 100.0))
    ensures RoundExact(Exact(Extent(100.0, 100.0), 0.0, 0.0, Extent(100.0, 100.0))) == Coordinates(100, 100, 0, 0, 100, 100)
  {
    RoundsTo(Exact(Extent(100.0, 100.0), 0.0, 0.0, Extent(100.0, 100.0)), Coordinates(100, 100, 0, 0, 100, 100));
    var dimensions := DimensionsOf(PlainBox(100, 100));
    var part := None;
    assert ImportantArea(dimensions, part) == Area(0.0, 0.0, 100.0, 100.0);
    assert ZoomFactor(0) == 0.0;
    assert ResolvedSize(ResizeConfiguration(100.0, 100.0, CropMode, 0), dimensions, part) == Extent(100.0, 100.0);
    SameDimensionsWindow();
    ExactIgnoresZoomWithoutPart(ResizeConfiguration(100.0, 100.0, CropMode, 50), DimensionsOf(PlainBox(100, 100)));
    ExactIgnoresZoomWithoutPart(ResizeConfiguration(100.0, 100.0, CropMode, 100), DimensionsOf(PlainBox(100, 100)));
  }

  /** "same dimensions", without an important part, at zoom levels 0, 50 and 100. */
  lemma SameDimensions()
    ensures Calculate(ResizeConfiguration(100.0, 100.0, CropMode, 0), DimensionsOf(PlainBox(100, 100)), None) == Coordinates(100, 100, 0, 0, 100, 100)
    ensures Calculate(ResizeConfiguration(100.0, 100.0, CropMode, 50), DimensionsOf(PlainBox(100, 100)), None) == Coordinates(100, 100, 0, 0, 100, 100)
    ensures Calculate(ResizeConfiguration(100.0, 100.0, CropMode, 100), DimensionsOf(PlainBox(100, 100)), None) == Coordinates(100, 100, 0, 0, 100, 100)
  {
    SameDimensionsExact();
  }

  /** The crop window of "scale down". */
  lemma ScaleDownWindow()
    ensures CropWindow(Extent(50.0, 50.0), 100.0, 100.0, Area(0.0, 0.0, 100.0, 100.0), 0.0) == Area(0.0, 0.0, 100.0, 100.0)
  {
  }

  /** The exact coordinates of "scale down", and how they round. */
  lemma ScaleDownExact()
    ensures ExactCoordinates(ResizeConfiguration(50.0, 50.0, CropMode, 0), DimensionsOf(PlainBox(100, 100)), None) == Exact(Extent(50.0, 50.0), 0.0, 0.0, Extent(50.0, 50.0))
    ensures ExactCoordinates(ResizeConfiguration(50.0, 50.0, CropMode, 50), DimensionsOf(PlainBox(100, 100)), None) == Exact(Extent(50.0, 50.0), 0.0, 0.0, Extent(50.0, 50.0))
    ensures ExactCoordinates(ResizeConfiguration(50.0, 50.0, CropMode, 100), DimensionsOf(PlainBox(100, 100)), None) == Exact(Extent(50.0, 50.0), 0.0, 0.0, Extent(50.0, 50.0))
    ensures RoundExact(Exact(Extent(50.0, 50.0), 0.0, 0.0, Extent(50.0, 50.0))) == Coordinates(50, 50, 0, 0, 50, 50)
  {
    RoundsTo(Exact(Extent(50.0, 50.0), 0.0, 0.0, Extent(50.0, 50.0)), Coordinates(50, 50, 0, 0, 50, 50));
    var dimensions := DimensionsOf(PlainBox(100, 100));
    var part := None;
    assert ImportantArea(dimensions, part) == Area(0.0, 0.0, 100.0, 100.0);
    assert ZoomFactor(0) == 0.0;
    assert ResolvedSize(ResizeConfiguration(50.0, 50.0, CropMode, 0), dimensions, part) == Extent(50.0, 50.0);
    ScaleDownWindow();
    ExactIgnoresZoomWithoutPart(ResizeConfiguration(50.0, 50.0, CropMode, 50), DimensionsOf(PlainBox(100, 100)));
    ExactIgnoresZoomWithoutPart(ResizeConfiguration(50.0, 50.0, CropMode, 100), DimensionsOf(PlainBox(100, 100)));
  }

  /** "scale down", without an important part, at zoom levels 0, 50 and 100. */
  lemma ScaleDown()
    ensures Calculate(ResizeConfiguration(50.0, 50.0, CropMode, 0), DimensionsOf(PlainBox(100, 100)), None) == Coordinates(50, 50, 0, 0, 50, 50)
    ensures Calculate(ResizeConfiguration(50.0, 50.0, CropMode, 50), DimensionsOf(PlainBox(100, 100)), None) == Coordinates(50, 50, 0, 0, 50, 50)
    ensures Calculate(ResizeConfiguration(50.0, 50.0, CropMode, 100), DimensionsOf(PlainBox(100, 100)), None) == Coordinates(50, 50, 0, 0, 50, 50)
  {
    ScaleDownExact();
  }

  /** The crop window of "scale up". */
  lemma ScaleUpWindow()
    ensures CropWindow(Extent(100.0, 100.0), 50.0, 50.0, Area(0.0, 0.0, 50.0, 50.0), 0.0) == Area(0.0, 0.0, 50.0, 50.0)
  {
  }

  /** The exact coordinates of "scale up", and how they round. */
  lemma ScaleUpExact()
    ensures ExactCoordinates(ResizeConfiguration(100.0, 100.0, CropMode, 0), DimensionsOf(PlainBox(50, 50)), None) == Exact(Extent(100.0, 100.0), 0.0, 0.0, Extent(100.0, 100.0))
    ensures ExactCoordinates(ResizeConfiguration(100.0, 100.0, CropMode, 50), DimensionsOf(PlainBox(50, 50)), None) == Exact(Extent(100.0, 100.0), 0.0, 0.0, Extent(100.0, 100.0))
    ensures ExactCoordinates(ResizeConfiguration(100.0, 100.0, CropMode, 100), DimensionsOf(PlainBox(50, 50)), None) == Exact(Extent(100.0, 100.0), 0.0, 0.0, Extent(100.0, 100.0))
    ensures RoundExact(Exact(Extent(100.0, 100.0), 0.0, 0.0, Extent(100.0, 100.0))) == Coordinates(100, 100, 0, 0, 100, 100)
  {
    RoundsTo(Exact(Extent(100.0, 100.0), 0.0, 0.0, Extent(100.0, 100.0)), Coordinates(100, 100, 0, 0, 100, 100));
    var dimensions := DimensionsOf(PlainBox(50, 50));
    var part := None;
    assert ImportantArea(dimensions, part) == Area(0.0, 0.0, 50.0, 50.0);
    assert ZoomFactor(0) == 0.0;
    assert ResolvedSize(ResizeConfiguration(100.0, 100.0, CropMode, 0), dimensions, part) == Extent(100.0, 100.0);
    ScaleUpWindow();
    ExactIgnoresZoomWithoutPart(ResizeConfiguration(100.0, 100.0, CropMode, 50), DimensionsOf(PlainBox(50, 50)));
    ExactIgnoresZoomWithoutPart(ResizeConfiguration(100.0, 100.0, CropMode, 100), DimensionsOf(PlainBox(50, 50)));
  }

  /** "scale up", without an important part, at zoom levels 0, 50 and 100. */
  lemma ScaleUp()
    ensures Calculate(ResizeConfiguration(100.0, 100.0, CropMode, 0), DimensionsOf(PlainBox(50, 50)), None) == Coordinates(100, 100, 0, 0, 100, 100)
    ensures Calculate(ResizeConfiguration(100.0, 100.0, CropMode, 50), DimensionsOf(PlainBox(50, 50)), None) == Coordinates(100, 100, 0, 0, 100, 100)
    ensures Calculate(ResizeConfiguration(100.0, 100.0, CropMode, 100), DimensionsOf(PlainBox(50, 50)), None) == Coordinates(100, 100, 0, 0, 100, 100)
  {
    ScaleUpExact();
  }

  /** The crop window of "width only". */
  lemma WidthOnlyWindow()
    ensures CropWindow(Extent(100.0, 100.0), 50.0, 50.0, Area(0.0, 0.0, 50.0, 50.0), 0.0) == Area(0.0, 0.0, 50.0, 50.0)
  {
  }

  /** The exact coordinates of "width only", and how they round. */
  lemma WidthOnlyExact()
    ensures ExactCoordinates(ResizeConfiguration(100.0, 0.0, CropMode, 0), DimensionsOf(PlainBox(50, 50)), None) == Exact(Extent(100.0, 100.0), 0.0, 0.0, Extent(100.0, 100.0))
    ensures ExactCoordinates(ResizeConfiguration(100.0, 0.0, CropMode, 50), DimensionsOf(PlainBox(50, 50)), None) == Exact(Extent(100.0, 100.0), 0.0, 0.0, Extent(100.0, 100.0))
    ensures ExactCoordinates(ResizeConfiguration(100.0, 0.0, CropMode, 100), DimensionsOf(PlainBox(50, 50)), None) == Exact(Extent(100.0, 100.0), 0.0, 0.0, Extent(100.0, 100.0))
    ensures RoundExact(Exact(Extent(100.0, 100.0), 0.0, 0.0, Extent(100.0, 100.0))) == Coordinates(100, 100, 0, 0, 100, 100)
  {
    RoundsTo(Exact(Extent(100.0, 100.0), 0.0, 0.0, Extent(100.0, 100.0)), Coordinates(100, 100, 0, 0, 100, 100));
    var dimensions := DimensionsOf(PlainBox(50, 50));
    var part := None;
    assert ImportantArea(dimensions, part) == Area(0.0, 0.0, 50.0, 50.0);
    assert ZoomFactor(0) == 0.0;
    assert ResolvedSize(ResizeConfiguration(100.0, 0.0, CropMode, 0), dimensions, part) == Extent(100.0, 100.0);
    WidthOnlyWindow();
    ExactIgnoresZoomWithoutPart(ResizeConfiguration(100.0, 0.0, CropMode, 50), DimensionsOf(PlainBox(50, 50)));
    ExactIgnoresZoomWithoutPart(ResizeConfiguration(100.0, 0.0, CropMode, 100), DimensionsOf(PlainBox(50, 50)));
  }

  /** "width only", without an important part, at zoom levels 0, 50 and 100. */
  lemma WidthOnly()
    ensures Calculate(ResizeConfiguration(100.0, 0.0, CropMode, 0), DimensionsOf(PlainBox(50, 50)), None) == Coordinates(100, 100, 0, 0, 100, 100)
    ensures Calculate(ResizeConfiguration(100.0, 0.0, CropMode, 50), DimensionsOf(PlainBox(50, 50)), None) == Coordinates(100, 100, 0, 0, 100, 100)
    ensures Calculate(ResizeConfiguration(100.0, 0.0, CropMode, 100), DimensionsOf(PlainBox(50, 50)), None) == Coordinates(100, 100, 0, 0, 100, 100)
  {
    WidthOnlyExact();
  }

  /** The crop window of "height only". */
  lemma HeightOnlyWindow()
    ensures CropWindow(Extent(100.0, 100.0), 50.0, 50.0, Area(0.0, 0.0, 50.0, 50.0), 0.0) == Area(0.0, 0.0, 50.0, 50.0)
  {
  }

  /** The exact coordinates of "height only", and how they round. */
  lemma HeightOnlyExact()
    ensures ExactCoordinates(ResizeConfiguration(0.0, 100.0, CropMode, 0), DimensionsOf(PlainBox(50, 50)), None) == Exact(Extent(100.0, 100.0), 0.0, 0.0, Extent(100.0, 100.0))
    ensures ExactCoordinates(ResizeConfiguration(0.0, 100.0, CropMode, 50), DimensionsOf(PlainBox(50, 50)), None) == Exact(Extent(100.0, 100.0), 0.0, 0.0, Extent(100.0, 100.0))
    ensures ExactCoordinates(ResizeConfiguration(0.0, 100.0, CropMode, 100), DimensionsOf(PlainBox(50, 50)), None) == Exact(Extent(100.0, 100.0), 0.0, 0.0, Extent(100.0, 100.0))
    ensures RoundExact(Exact(Extent(100.0, 100.0), 0.0, 0.0, Extent(100.0, 100.0))) == Coordinates(100, 100, 0, 0, 100, 100)
  {
    RoundsTo(Exact(Extent(100.0, 100.0), 0.0, 0.0, Extent(100.0, 100.0)), Coordinates(100, 100, 0, 0, 100, 100));
    var dimensions := DimensionsOf(PlainBox(50, 50));
    var part := None;
    assert ImportantArea(dimensions, part) == Area(0.0, 0.0, 50.0, 50.0);
    assert ZoomFactor(0) == 0.0;
    assert ResolvedSize(ResizeConfiguration(0.0, 100.0, CropMode, 0), dimensions, part) == Extent(100.0, 100.0);
    HeightOnlyWindow();
    ExactIgnoresZoomWithoutPart(ResizeConfiguration(0.0, 100.0, CropMode, 50), DimensionsOf(PlainBox(50, 50)));
    ExactIgnoresZoomWithoutPart(ResizeConfiguration(0.0, 100.0, CropMode, 100), DimensionsOf(PlainBox(50, 50)));
  }

  /** "height only", without an important part, at zoom levels 0, 50 and 100. */
  lemma HeightOnly()
    ensures Calculate(ResizeConfiguration(0.0, 100.0, CropMode, 0), DimensionsOf(PlainBox(50, 50)), None) == Coordinates(100, 100, 0, 0, 100, 100)
    ensures Calculate(ResizeConfiguration(0.0, 100.0, CropMode, 50), DimensionsOf(PlainBox(50, 50)), None) == Coordinates(100, 100, 0, 0, 100, 100)
    ensures Calculate(ResizeConfiguration(0.0, 100.0, CropMode, 100), DimensionsOf(PlainBox(50, 50)), None) == Coordinates(100, 100, 0, 0, 100, 100)
  {
    HeightOnlyExact();
  }

  /** The crop window of "crop landscape". */
  lemma CropLandscapeWindow()
    ensures CropWindow(Extent(100.0, 50.0), 100.0, 100.0, Area(0.0, 0.0, 100.0, 100.0), 0.0) == Area(0.0, 25.0, 100.0, 50.0)
  {
  }

  /** The exact coordinates of "crop landscape", and how they round. */
  lemma CropLandscapeExact()
    ensures ExactCoordinates(ResizeConfiguration(100.0, 50.0, CropMode, 0), DimensionsOf(PlainBox(100, 100)), None) == Exact(Extent(100.0, 100.0), 0.0, 25.0, Extent(100.0, 50.0))
    ensures ExactCoordinates(ResizeConfiguration(100.0, 50.0, CropMode, 50), DimensionsOf(PlainBox(100, 100)), None) == Exact(Extent(100.0, 100.0), 0.0, 25.0, Extent(100.0, 50.0))
    ensures ExactCoordinates(ResizeConfiguration(100.0, 50.0, CropMode, 100), DimensionsOf(PlainBox(100, 100)), None) == Exact(Extent(100.0, 100.0), 0.0, 25.0, Extent(100.0, 50.0))
    ensures RoundExact(Exact(Extent(100.0, 100.0), 0.0, 25.0, Extent(100.0, 50.0))) == Coordinates(100, 100, 0, 25, 100, 50)
  {
    RoundsTo(Exact(Extent(100.0, 100.0), 0.0, 25.0, Extent(100.0, 50.0)), Coordinates(100, 100, 0, 25, 100, 50));
    var dimensions := DimensionsOf(PlainBox(100, 100));
    var part := None;
    assert ImportantArea(dimensions, part) == Area(0.0, 0.0, 100.0, 100.0);
    assert ZoomFactor(0) == 0.0;
    assert ResolvedSize(ResizeConfiguration(100.0, 50.0, CropMode, 0), dimensions, part) == Extent(100.0, 50.0);
    CropLandscapeWindow();
    ExactIgnoresZoomWithoutPart(ResizeConfiguration(100.0, 50.0, CropMode, 50), DimensionsOf(PlainBox(100, 100)));
    ExactIgnoresZoomWithoutPart(ResizeConfiguration(100.0, 50.0, CropMode, 100), DimensionsOf(PlainBox(100, 100)));
  }

  /** "crop landscape", without an important part, at zoom levels 0, 50 and 100. */
  lemma CropLandscape()
    ensures Calculate(ResizeConfiguration(100.0, 50.0, CropMode, 0), DimensionsOf(PlainBox(100, 100)), None) == Coordinates(100, 100, 0, 25, 100, 50)
    ensures Calculate(ResizeConfiguration(100.0, 50.0, CropMode, 50), DimensionsOf(PlainBox(100, 100)), None) == Coordinates(100, 100, 0, 25, 100, 50)
    ensures Calculate(ResizeConfiguration(100.0, 50.0, CropMode, 100), DimensionsOf(PlainBox(100, 100)), None) == Coordinates(100, 100, 0, 25, 100, 50)
  {
    CropLandscapeExact();
  }

  /** The crop window of "crop portrait". */
  lemma CropPortraitWindow()
    ensures CropWindow(Extent(50.0, 100.0), 100.0, 100.0, Area(0.0, 0.0, 100.0, 100.0), 0.0) == Area(25.0, 0.0, 50.0, 100.0)
  {
  }

  /** The exact coordinates of "crop portrait", and how they round. */
  lemma CropPortraitExact()
    ensures ExactCoordinates(ResizeConfiguration(50.0, 100.0, CropMode, 0), DimensionsOf(PlainBox(100, 100)), None) == Exact(Extent(100.0, 100.0), 25.0, 0.0, Extent(50.0, 100.0))
    ensures ExactCoordinates(ResizeConfiguration(50.0, 100.0, CropMode, 50), DimensionsOf(PlainBox(100, 100)), None) == Exact(Extent(100.0, 100.0), 25.0, 0.0, Extent(50.0, 100.0))
    ensures ExactCoordinates(ResizeConfiguration(50.0, 100.0, CropMode, 100), DimensionsOf(PlainBox(100, 100)), None) == Exact(Extent(100.0, 100.0), 25.0, 0.0, Extent(50.0, 100.0))
    ensures RoundExact(Exact(Extent(100.0, 100.0), 25.0, 0.0, Extent(50.0, 100.0))) == Coordinates(100, 100, 25, 0, 50, 100)
  {
    RoundsTo(Exact(Extent(100.0, 100.0), 25.0, 0.0, Extent(50.0, 100.0)), Coordinates(100, 100, 25, 0, 50, 100));
    var dimensions := DimensionsOf(PlainBox(100, 100));
    var part := None;
    assert ImportantArea(dimensions, part) == Area(0.0, 0.0, 100.0, 100.0);
    assert ZoomFactor(0) == 0.0;
    assert ResolvedSize(ResizeConfiguration(50.0, 100.0, CropMode, 0), dimensions, part) == Extent(50.0, 100.0);
    CropPortraitWindow();
    ExactIgnoresZoomWithoutPart(ResizeConfiguration(50.0, 100.0, CropMode, 50), DimensionsOf(PlainBox(100, 100)));
    ExactIgnoresZoomWithoutPart(ResizeConfiguration(50.0, 100.0, CropMode, 100), DimensionsOf(PlainBox(100, 100)));
  }

  /** "crop portrait", without an important part, at zoom levels 0, 50 and 100. */
  lemma CropPortrait()
    ensures Calculate(ResizeConfiguration(50.0, 100.0, CropMode, 0), DimensionsOf(PlainBox(100, 100)), None) == Coordinates(100, 100, 25, 0, 50, 100)
    ensures Calculate(ResizeConfiguration(50.0, 100.0, CropMode, 50), DimensionsOf(PlainBox(100, 100)), None) == Coordinates(100, 100, 25, 0, 50, 100)
    ensures Calculate(ResizeConfiguration(50.0, 100.0, CropMode, 100), DimensionsOf(PlainBox(100, 100)), None) == Coordinates(100, 100, 25, 0, 50, 100)
  {
    CropPortraitExact();
  }

  /** The crop window of "proportional landscape". */
  lemma ProportionalLandscapeWindow()
    ensures CropWindow(Extent(100.0, 50.0), 100.0, 50.0, Area(0.0, 0.0, 100.0, 50.0), 0.0) == Area(0.0, 0.0, 100.0, 50.0)
  {
  }

  /** The exact coordinates of "proportional landscape", and how they round. */
  lemma ProportionalLandscapeExact()
    ensures ExactCoordinates(ResizeConfiguration(100.0, 10.0, ProportionalMode, 0), DimensionsOf(PlainBox(100, 50)), None) == Exact(Extent(100.0, 50.0), 0.0, 0.0, Extent(100.0, 50.0))
    ensures ExactCoordinates(ResizeConfiguration(100.0, 10.0, ProportionalMode, 50), DimensionsOf(PlainBox(100, 50)), None) == Exact(Extent(100.0, 50.0), 0.0, 0.0, Extent(100.0, 50.0))
    ensures ExactCoordinates(ResizeConfiguration(100.0, 10.0, ProportionalMode, 100), DimensionsOf(PlainBox(100, 50)), None) == Exact(Extent(100.0, 50.0), 0.0, 0.0, Extent(100.0, 50.0))
    ensures RoundExact(Exact(Extent(100.0, 50.0), 0.0, 0.0, Extent(100.0, 50.0))) == Coordinates(100, 50, 0, 0, 100, 50)
  {
    RoundsTo(Exact(Extent(100.0, 50.0), 0.0, 0.0, Extent(100.0, 50.0)), Coordinates(100, 50, 0, 0, 100, 50));
    var dimensions := DimensionsOf(PlainBox(100, 50));
    var part := None;
    assert ImportantArea(dimensions, part) == Area(0.0, 0.0, 100.0, 50.0);
    assert ZoomFactor(0) == 0.0;
    assert ResolvedSize(ResizeConfiguration(100.0, 10.0, ProportionalMode, 0), dimensions, part) == Extent(100.0, 50.0);
    ProportionalLandscapeWindow();
    ExactIgnoresZoomWithoutPart(ResizeConfiguration(100.0, 10.0, ProportionalMode, 50), DimensionsOf(PlainBox(100, 50)));
    ExactIgnoresZoomWithoutPart(ResizeConfiguration(100.0, 10.0, ProportionalMode, 100), DimensionsOf(PlainBox(100, 50)));
  }

  /** "proportional landscape", without an important part, at zoom levels 0, 50 and 100. */
  lemma ProportionalLandscape()
    ensures Calculate(ResizeConfiguration(100.0, 10.0, ProportionalMode, 0), DimensionsOf(PlainBox(100, 50)), None) == Coordinates(100, 50, 0, 0, 100, 50)
    ensures Calculate(ResizeConfiguration(100.0, 10.0, ProportionalMode, 50), DimensionsOf(PlainBox(100, 50)), None) == Coordinates(100, 50, 0, 0, 100, 50)
    ensures Calculate(ResizeConfiguration(100.0, 10.0, ProportionalMode, 100), DimensionsOf(PlainBox(100, 50)), None) == Coordinates(100, 50, 0, 0, 100, 50)
  {
    ProportionalLandscapeExact();
  }

  /** The crop window of "proportional portrait". */
  lemma ProportionalPortraitWindow()
    ensures CropWindow(Extent(50.0, 100.0), 50.0, 100.0, Area(0.0, 0.0, 50.0, 100.0), 0.0) == Area(0.0, 0.0, 50.0, 100.0)
  {
  }

  /** The exact coordinates of "proportional portrait", and how they round. */
  lemma ProportionalPortraitExact()
    ensures ExactCoordinates(ResizeConfiguration(10.0, 100.0, ProportionalMode, 0), DimensionsOf(PlainBox(50, 100)), None) == Exact(Extent(50.0, 100.0), 0.0, 0.0, Extent(50.0, 100.0))
    ensures ExactCoordinates(ResizeConfiguration(10.0, 100.0, ProportionalMode, 50), DimensionsOf(PlainBox(50, 100)), None) == Exact(Extent(50.0, 100.0), 0.0, 0.0, Extent(50.0, 100.0))
    ensures ExactCoordinates(ResizeConfiguration(10.0, 100.0, ProportionalMode, 100), DimensionsOf(PlainBox(50, 100)), None) == Exact(Extent(50.0, 100.0), 0.0, 0.0, Extent(50.0, 100.0))
    ensures RoundExact(Exact(Extent(50.0, 100.0), 0.0, 0.0, Extent(50.0, 100.0))) == Coordinates(50, 100, 0, 0, 50, 100)
  {
    RoundsTo(Exact(Extent(50.0, 100.0), 0.0, 0.0, Extent(50.0, 100.0)), Coordinates(50, 100, 0, 0, 50, 100));
    var dimensions := DimensionsOf(PlainBox(50, 100));
    var part := None;
    assert ImportantArea(dimensions, part) == Area(0.0, 0.0, 50.0, 100.0);
    assert ZoomFactor(0) == 0.0;
    assert ResolvedSize(ResizeConfiguration(10.0, 100.0, ProportionalMode, 0), dimensions, part) == Extent(50.0, 100.0);
    ProportionalPortraitWindow();
    ExactIgnoresZoomWithoutPart(ResizeConfiguration(10.0, 100.0, ProportionalMode, 50), DimensionsOf(PlainBox(50, 100)));
    ExactIgnoresZoomWithoutPart(ResizeConfiguration(10.0, 100.0, ProportionalMode, 100), DimensionsOf(PlainBox(50, 100)));
  }

  /** "proportional portrait", without an important part, at zoom levels 0, 50 and 100. */
  lemma ProportionalPortrait()
    ensures Calculate(ResizeConfiguration(10.0, 100.0, ProportionalMode, 0), DimensionsOf(PlainBox(50, 100)), None) == Coordinates(50, 100, 0, 0, 50, 100)
    ensures Calculate(ResizeConfiguration(10.0, 100.0, ProportionalMode, 50), DimensionsOf(PlainBox(50, 100)), None) == Coordinates(50, 100, 0, 0, 50, 100)
    ensures Calculate(ResizeConfiguration(10.0, 100.0, ProportionalMode, 100), DimensionsOf(PlainBox(50, 100)), None) == Coordinates(50, 100, 0, 0, 50, 100)
  {
    ProportionalPortraitExact();
  }

  /** The crop window of "proportional square". */
  lemma ProportionalSquareWindow()
    ensures CropWindow(Extent(100.0, 100.0), 100.0, 100.0, Area(0.0, 0.0, 100.0, 100.0), 0.0) == Area(0.0, 0.0, 100.0, 100.0)
  {
  }

  /** The exact coordinates of "proportional square", and how they round. */
  lemma ProportionalSquareExact()
    ensures ExactCoordinates(ResizeConfiguration(100.0, 50.0, ProportionalMode, 0), DimensionsOf(PlainBox(100, 100)), None) == Exact(Extent(100.0, 100.0), 0.0, 0.0, Extent(100.0, 100.0))
    ensures ExactCoordinates(ResizeConfiguration(100.0, 50.0, ProportionalMode, 50), DimensionsOf(PlainBox(100, 100)), None) == Exact(Extent(100.0, 100.0), 0.0, 0.0, Extent(100.0, 100.0))
    ensures ExactCoordinates(ResizeConfiguration(100.0, 50.0, ProportionalMode, 100), DimensionsOf(PlainBox(100, 100)), None) == Exact(Extent(100.0, 100.0), 0.0, 0.0, Extent(100.0, 100.0))
    ensures RoundExact(Exact(Extent(100.0, 100.0), 0.0, 0.0, Extent(100.0, 100.0))) == Coordinates(100, 100, 0, 0, 100, 100)
  {
    RoundsTo(Exact(Extent(100.0, 100.0), 0.0, 0.0, Extent(100.0, 100.0)), Coordinates(100, 100, 0, 0, 100, 100));
    var dimensions := DimensionsOf(PlainBox(100, 100));
    var part := None;
    assert ImportantArea(dimensions, part) == Area(0.0, 0.0, 100.0, 100.0);
    assert ZoomFactor(0) == 0.0;
    assert ResolvedSize(ResizeConfiguration(100.0, 50.0, ProportionalMode, 0), dimensions, part) == Extent(100.0, 100.0);
    ProportionalSquareWindow();
    ExactIgnoresZoomWithoutPart(ResizeConfiguration(100.0, 50.0, ProportionalMode, 50), DimensionsOf(PlainBox(100, 100)));
    ExactIgnoresZoomWithoutPart(ResizeConfiguration(100.0, 50.0, ProportionalMode, 100), DimensionsOf(PlainBox(100, 100)));
  }

  /** "proportional square", without an important part, at zoom levels 0, 50 and 100. */
  lemma ProportionalSquare()
    ensures Calculate(ResizeConfiguration(100.0, 50.0, ProportionalMode, 0), DimensionsOf(PlainBox(100, 100)), None) == Coordinates(100, 100, 0, 0, 100, 100)
    ensures Calculate(ResizeConfiguration(100.0, 50.0, ProportionalMode, 50), DimensionsOf(PlainBox(100, 100)), None) == Coordinates(100, 100, 0, 0, 100, 100)
    ensures Calculate(ResizeConfiguration(100.0, 50.0, ProportionalMode, 100), DimensionsOf(PlainBox(100, 100)), None) == Coordinates(100, 100, 0, 0, 100, 100)
  {
    ProportionalSquareExact();
  }

  /** The crop window of "box landscape 1". */
  lemma BoxLandscape1Window()
    ensures CropWindow(Extent(100.0, 50.0), 100.0, 50.0, Area(0.0, 0.0, 100.0, 50.0), 0.0) == Area(0.0, 0.0, 100.0, 50.0)
  {
  }

  /** The exact coordinates of "box landscape 1", and how they round. */
  lemma BoxLandscape1Exact()
    ensures ExactCoordinates(ResizeConfiguration(100.0, 100.0, BoxMode, 0), DimensionsOf(PlainBox(100, 50)), None) == Exact(Extent(100.0, 50.0), 0.0, 0.0, Extent(100.0, 50.0))
    ensures ExactCoordinates(ResizeConfiguration(100.0, 100.0, BoxMode, 50), DimensionsOf(PlainBox(100, 50)), None) == Exact(Extent(100.0, 50.0), 0.0, 0.0, Extent(100.0, 50.0))
    ensures ExactCoordinates(ResizeConfiguration(100.0, 100.0, BoxMode, 100), DimensionsOf(PlainBox(100, 50)), None) == Exact(Extent(100.0, 50.0), 0.0, 0.0, Extent(100.0, 50.0))
    ensures RoundExact(Exact(Extent(100.0, 50.0), 0.0, 0.0, Extent(100.0, 50.0))) == Coordinates(100, 50, 0, 0, 100, 50)
  {
    RoundsTo(Exact(Extent(100.0, 50.0), 0.0, 0.0, Extent(100.0, 50.0)), Coordinates(100, 50, 0, 0, 100, 50));
    var dimensions := DimensionsOf(PlainBox(100, 50));
    var part := None;
    assert ImportantArea(dimensions, part) == Area(0.0, 0.0, 100.0, 50.0);
    assert ZoomFactor(0) == 0.0;
    assert ResolvedSize(ResizeConfiguration(100.0, 100.0, BoxMode, 0), dimensions, part) == Extent(100.0, 50.0);
    BoxLandscape1Window();
    ExactIgnoresZoomWithoutPart(ResizeConfiguration(100.0, 100.0, BoxMode, 50), DimensionsOf(PlainBox(100, 50)));
    ExactIgnoresZoomWithoutPart(ResizeConfiguration(100.0, 100.0, BoxMode, 100), DimensionsOf(PlainBox(100, 50)));
  }

  /** "box landscape 1", without an important part, at zoom levels 0, 50 and 100. */
  lemma BoxLandscape1()
    ensures Calculate(ResizeConfiguration(100.0, 100.0, BoxMode, 0), DimensionsOf(PlainBox(100, 50)), None) == Coordinates(100, 50, 0, 0, 100, 50)
    ensures Calculate(ResizeConfiguration(100.0, 100.0, BoxMode, 50), DimensionsOf(PlainBox(100, 50)), None) == Coordinates(100, 50, 0, 0, 100, 50)
    ensures Calculate(ResizeConfiguration(100.0, 100.0, BoxMode, 100), DimensionsOf(PlainBox(100, 50)), None) == Coordinates(100, 50, 0, 0, 100, 50)
  {
    BoxLandscape1Exact();
  }

  /** The crop window of "box landscape 2". */
  lemma BoxLandscape2Window()
    ensures CropWindow(Extent(20.0, 10.0), 100.0, 50.0, Area(0.0, 0.0, 100.0, 50.0), 0.0) == Area(0.0, 0.0, 100.0, 50.0)
  {
  }

  /** The exact coordinates of "box landscape 2", and how they round. */
  lemma BoxLandscape2Exact()
    ensures ExactCoordinates(ResizeConfiguration(100.0, 10.0, BoxMode, 0), DimensionsOf(PlainBox(100, 50)), None) == Exact(Extent(20.0, 10.0), 0.0, 0.0, Extent(20.0, 10.0))
    ensures ExactCoordinates(ResizeConfiguration(100.0, 10.0, BoxMode, 50), DimensionsOf(PlainBox(100, 50)), None) == Exact(Extent(20.0, 10.0), 0.0, 0.0, Extent(20.0, 10.0))
    ensures ExactCoordinates(ResizeConfiguration(100.0, 10.0, BoxMode, 100), DimensionsOf(PlainBox(100, 50)), None) == Exact(Extent(20.0, 10.0), 0.0, 0.0, Extent(20.0, 10.0))
    ensures RoundExact(Exact(Extent(20.0, 10.0), 0.0, 0.0, Extent(20.0, 10.0))) == Coordinates(20, 10, 0, 0, 20, 10)
  {
    RoundsTo(Exact(Extent(20.0, 10.0), 0.0, 0.0, Extent(20.0, 10.0)), Coordinates(20, 10, 0, 0, 20, 10));
    var dimensions := DimensionsOf(PlainBox(100, 50));
    var part := None;
    assert ImportantArea(dimensions, part) == Area(0.0, 0.0, 100.0, 50.0);
    assert ZoomFactor(0) == 0.0;
    assert ResolvedSize(ResizeConfiguration(100.0, 10.0, BoxMode, 0), dimensions, part) == Extent(20.0, 10.0);
    BoxLandscape2Window();
    ExactIgnoresZoomWithoutPart(ResizeConfiguration(100.0, 10.0, BoxMode, 50), DimensionsOf(PlainBox(100, 50)));
    ExactIgnoresZoomWithoutPart(ResizeConfiguration(100.0, 10.0, BoxMode, 100), DimensionsOf(PlainBox(100, 50)));
  }

  /** "box landscape 2", without an important part, at zoom levels 0, 50 and 100. */
  lemma BoxLandscape2()
    ensures Calculate(ResizeConfiguration(100.0, 10.0, BoxMode, 0), DimensionsOf(PlainBox(100, 50)), None) == Coordinates(20, 10, 0, 0, 20, 10)
    ensures Calculate(ResizeConfiguration(100.0, 10.0, BoxMode, 50), DimensionsOf(PlainBox(100, 50)), None) == Coordinates(20, 10, 0, 0, 20, 10)
    ensures Calculate(ResizeConfiguration(100.0, 10.0, BoxMode, 100), DimensionsOf(PlainBox(100, 50)), None) == Coordinates(20, 10, 0, 0, 20, 10)
  {
    BoxLandscape2Exact();
  }

  /** The crop window of "box portrait 1". */
  lemma BoxPortrait1Window()
    ensures CropWindow(Extent(50.0, 100.0), 50.0, 100.0, Area(0.0, 0.0, 50.0, 100.0), 0.0) == Area(0.0, 0.0, 50.0, 100.0)
  {
  }

  /** The exact coordinates of "box portrait 1", and how they round. */
  lemma BoxPortrait1Exact()
    ensures ExactCoordinates(ResizeConfiguration(100.0, 100.0, BoxMode, 0), DimensionsOf(PlainBox(50, 100)), None) == Exact(Extent(50.0, 100.0), 0.0, 0.0, Extent(50.0, 100.0))
    ensures ExactCoordinates(ResizeConfiguration(100.0, 100.0, BoxMode, 50), DimensionsOf(PlainBox(50, 100)), None) == Exact(Extent(50.0, 100.0), 0.0, 0.0, Extent(50.0, 100.0))
    ensures ExactCoordinates(ResizeConfiguration(100.0, 100.0, BoxMode, 100), DimensionsOf(PlainBox(50, 100)), None) == Exact(Extent(50.0, 100.0), 0.0, 0.0, Extent(50.0, 100.0))
    ensures RoundExact(Exact(Extent(50.0, 100.0), 0.0, 0.0, Extent(50.0, 100.0))) == Coordinates(50, 100, 0, 0, 50, 100)
  {
    RoundsTo(Exact(Extent(50.0, 100.0), 0.0, 0.0, Extent(50.0, 100.0)), Coordinates(50, 100, 0, 0, 50, 100));
    var dimensions := DimensionsOf(PlainBox(50, 100));
    var part := None;
    assert ImportantArea(dimensions, part) == Area(0.0, 0.0, 50.0, 100.0);
    assert ZoomFactor(0) == 0.0;
    assert ResolvedSize(ResizeConfiguration(100.0, 100.0, BoxMode, 0), dimensions, part) == Extent(50.0, 100.0);
    BoxPortrait1Window();
    ExactIgnoresZoomWithoutPart(ResizeConfiguration(100.0, 100.0, BoxMode, 50), DimensionsOf(PlainBox(50, 100)));
    ExactIgnoresZoomWithoutPart(ResizeConfiguration(100.0, 100.0, BoxMode, 100), DimensionsOf(PlainBox(50, 100)));
  }

  /** "box portrait 1", without an important part, at zoom levels 0, 50 and 100. */
  lemma BoxPortrait1()
    ensures Calculate(ResizeConfiguration(100.0, 100.0, BoxMode, 0), DimensionsOf(PlainBox(50, 100)), None) == Coordinates(50, 100, 0, 0, 50, 100)
    ensures Calculate(ResizeConfiguration(100.0, 100.0, BoxMode, 50), DimensionsOf(PlainBox(50, 100)), None) == Coordinates(50, 100, 0, 0, 50, 100)
    ensures Calculate(ResizeConfiguration(100.0, 100.0, BoxMode, 100), DimensionsOf(PlainBox(50, 100)), None) == Coordinates(50, 100, 0, 0, 50, 100)
  {
    BoxPortrait1Exact();
  }

  /** The crop window of "box portrait 2". */
  lemma BoxPortrait2Window()
    ensures CropWindow(Extent(10.0, 20.0), 50.0, 100.0, Area(0.0, 0.0, 50.0, 100.0), 0.0) == Area(0.0, 0.0, 50.0, 100.0)
  {
  }

  /** The exact coordinates of "box portrait 2", and how they round. */
  lemma BoxPortrait2Exact()
    ensures ExactCoordinates(ResizeConfiguration(10.0, 100.0, BoxMode, 0), DimensionsOf(PlainBox(50, 100)), None) == Exact(Extent(10.0, 20.0), 0.0, 0.0, Extent(10.0, 20.0))
    ensures ExactCoordinates(ResizeConfiguration(10.0, 100.0, BoxMode, 50), DimensionsOf(PlainBox(50, 100)), None) == Exact(Extent(10.0, 20.0), 0.0, 0.0, Extent(10.0, 20.0))
    ensures ExactCoordinates(ResizeConfiguration(10.0, 100.0, BoxMode, 100), DimensionsOf(PlainBox(50, 100)), None) == Exact(Extent(10.0, 20.0), 0.0, 0.0, Extent(10.0, 20.0))
    ensures RoundExact(Exact(Extent(10.0, 20.0), 0.0, 0.0, Extent(10.0, 20.0))) == Coordinates(10, 20, 0, 0, 10, 20)
  {
    RoundsTo(Exact(Extent(10.0, 20.0), 0.0, 0.0, Extent(10.0, 20.0)), Coordinates(10, 20, 0, 0, 10, 20));
    var dimensions := DimensionsOf(PlainBox(50, 100));
    var part := None;
    assert ImportantArea(dimensions, part) == Area(0.0, 0.0, 50.0, 100.0);
    assert ZoomFactor(0) == 0.0;
    assert ResolvedSize(ResizeConfiguration(10.0, 100.0, BoxMode, 0), dimensions, part) == Extent(10.0, 20.0);
    BoxPortrait2Window();
    ExactIgnoresZoomWithoutPart(ResizeConfiguration(10.0, 100.0, BoxMode, 50), DimensionsOf(PlainBox(50, 100)));
    ExactIgnoresZoomWithoutPart(ResizeConfiguration(10.0, 100.0, BoxMode, 100), DimensionsOf(PlainBox(50, 100)));
  }

  /** "box portrait 2", without an important part, at zoom levels 0, 50 and 100. */
  lemma BoxPortrait2()
    ensures Calculate(ResizeConfiguration(10.0, 100.0, BoxMode, 0), DimensionsOf(PlainBox(50, 100)), None) == Coordinates(10, 20, 0, 0, 10, 20)
    ensures Calculate(ResizeConfiguration(10.0, 100.0, BoxMode, 50), DimensionsOf(PlainBox(50, 100)), None) == Coordinates(10, 20, 0, 0, 10, 20)
    ensures Calculate(ResizeConfiguration(10.0, 100.0, BoxMode, 100), DimensionsOf(PlainBox(50, 100)), None) == Coordinates(10, 20, 0, 0, 10, 20)
  {
    BoxPortrait2Exact();
  }

  /** The crop window of "float values". */
  lemma FloatValuesWindow()
    ensures CropWindow(Extent(100.4, 100.4), 50.0, 50.0, Area(0.0, 0.0, 50.0, 50.0), 0.0) == Area(0.0, 0.0, 50.0, 50.0)
  {
  }

  /** The exact coordinates of "float values", and how they round. */
  lemma FloatValuesExact()
    ensures ExactCoordinates(ResizeConfiguration(100.4, 100.4, CropMode, 0), DimensionsOf(PlainBox(50, 50)), None) == Exact(Extent(100.4, 100.4), 0.0, 0.0, Extent(100.4, 100.4))
    ensures ExactCoordinates(ResizeConfiguration(100.4, 100.4, CropMode, 50), DimensionsOf(PlainBox(50, 50)), None) == Exact(Extent(100.4, 100.4), 0.0, 0.0, Extent(100.4, 100.4))
    ensures ExactCoordinates(ResizeConfiguration(100.4, 100.4, CropMode, 100), DimensionsOf(PlainBox(50, 50)), None) == Exact(Extent(100.4, 100.4), 0.0, 0.0, Extent(100.4, 100.4))
    ensures RoundExact(Exact(Extent(100.4, 100.4), 0.0, 0.0, Extent(100.4, 100.4))) == Coordinates(100, 100, 0, 0, 100, 100)
  {
    RoundsTo(Exact(Extent(100.4, 100.4), 0.0, 0.0, Extent(100.4, 100.4)), Coordinates(100, 100, 0, 0, 100, 100));
    var dimensions := DimensionsOf(PlainBox(50, 50));
    var part := None;
    assert ImportantArea(dimensions, part) == Area(0.0, 0.0, 50.0, 50.0);
    assert ZoomFactor(0) == 0.0;
    assert ResolvedSize(ResizeConfiguration(100.4, 100.4, CropMode, 0), dimensions, part) == Extent(100.4, 100.4);
    FloatValuesWindow();
    ExactIgnoresZoomWithoutPart(ResizeConfiguration(100.4, 100.4, CropMode, 50), DimensionsOf(PlainBox(50, 50)));
    ExactIgnoresZoomWithoutPart(ResizeConfiguration(100.4, 100.4, CropMode, 100), DimensionsOf(PlainBox(50, 50)));
  }

  /** "float values", without an important part, at zoom levels 0, 50 and 100. */
  lemma FloatValues()
    ensures Calculate(ResizeConfiguration(100.4, 100.4, CropMode, 0), DimensionsOf(PlainBox(50, 50)), None) == Coordinates(100, 100, 0, 0, 100, 100)
    ensures Calculate(ResizeConfiguration(100.4, 100.4, CropMode, 50), DimensionsOf(PlainBox(50, 50)), None) == Coordinates(100, 100, 0, 0, 100, 100)
    ensures Calculate(ResizeConfiguration(100.4, 100.4, CropMode, 100), DimensionsOf(PlainBox(50, 50)), None) == Coordinates(100, 100, 0, 0, 100, 100)
  {
    FloatValuesExact();
  }

  /** The crop window of "no dimensions zoom 0". */
  lemma NoDimensionsZoom0Window()
    ensures CropWindow(Extent(100.0, 100.0), 100.0, 100.0, Area(20.0, 20.0, 60.0, 60.0), 0.0) == Area(0.0, 0.0, 100.0, 100.0)
  {
  }

  /** The exact coordinates of "no dimensions zoom 0", and how they round. */
  lemma NoDimensionsZoom0Exact()
    ensures ExactCoordinates(ResizeConfiguration(0.0, 0.0, CropMode, 0), DimensionsOf(PlainBox(100, 100)), Some(ImportantPart(Point(20, 20), Box(60, 60)))) == Exact(Extent(100.0, 100.0), 0.0, 0.0, Extent(100.0, 100.0))
    ensures RoundExact(Exact(Extent(100.0, 100.0), 0.0, 0.0, Extent(100.0, 100.0))) == Coordinates(100, 100, 0, 0, 100, 100)
  {
    RoundsTo(Exact(Extent(100.0, 100.0), 0.0, 0.0, Extent(100.0, 100.0)), Coordinates(100, 100, 0, 0, 100, 100));
    var dimensions := DimensionsOf(PlainBox(100, 100));
    var part := Some(ImportantPart(Point(20, 20), Box(60, 60)));
    assert ImportantArea(dimensions, part) == Area(20.0, 20.0, 60.0, 60.0);
    assert ZoomFactor(0) == 0.0;
    assert ResolvedSize(ResizeConfiguration(0.0, 0.0, CropMode, 0), dimensions, part) == Extent(100.0, 100.0);
    NoDimensionsZoom0Window();
  }

  /** "no dimensions zoom 0", with an important part. */
  lemma NoDimensionsZoom0()
    ensures Calculate(ResizeConfiguration(0.0, 0.0, CropMode, 0), DimensionsOf(PlainBox(100, 100)), Some(ImportantPart(Point(20, 20), Box(60, 60)))) == Coordinates(100, 100, 0, 0, 100, 100)
  {
    NoDimensionsZoom0Exact();
  }

  /** The crop window of "no dimensions zoom 50". */
  lemma NoDimensionsZoom50Window()
    ensures CropWindow(Extent(80.0, 80.0), 100.0, 100.0, Area(20.0, 20.0, 60.0, 60.0), 0.5) == Area(10.0, 10.0, 80.0, 80.0)
  {
  }

  /** The exact coordinates of "no dimensions zoom 50", and how they round. */
  lemma NoDimensionsZoom50Exact()
    ensures ExactCoordinates(ResizeConfiguration(0.0, 0.0, CropMode, 50), DimensionsOf(PlainBox(100, 100)), Some(ImportantPart(Point(20, 20), Box(60, 60)))) == Exact(Extent(100.0, 100.0), 10.0, 10.0, Extent(80.0, 80.0))
    ensures RoundExact(Exact(Extent(100.0, 100.0), 10.0, 10.0, Extent(80.0, 80.0))) == Coordinates(100, 100, 10, 10, 80, 80)
  {
    RoundsTo(Exact(Extent(100.0, 100.0), 10.0, 10.0, Extent(80.0, 80.0)), Coordinates(100, 100, 10, 10, 80, 80));
    var dimensions := DimensionsOf(PlainBox(100, 100));
    var part := Some(ImportantPart(Point(20, 20), Box(60, 60)));
    assert ImportantArea(dimensions, part) == Area(20.0, 20.0, 60.0, 60.0);
    assert ZoomFactor(50) == 0.5;
    assert ResolvedSize(ResizeConfiguration(0.0, 0.0, CropMode, 50), dimensions, part) == Extent(80.0, 80.0);
    NoDimensionsZoom50Window();
  }

  /** "no dimensions zoom 50", with an important part. */
  lemma NoDimensionsZoom50()
    ensures Calculate(ResizeConfiguration(0.0, 0.0, CropMode, 50), DimensionsOf(PlainBox(100, 100)), Some(ImportantPart(Point(20, 20), Box(60, 60)))) == Coordinates(100, 100, 10, 10, 80, 80)
  {
    NoDimensionsZoom50Exact();
  }

  /** The crop window of "no dimensions zoom 100". */
  lemma NoDimensionsZoom100Window()
    ensures CropWindow(Extent(60.0, 60.0), 100.0, 100.0, Area(20.0, 20.0, 60.0, 60.0), 1.0) == Area(20.0, 20.0, 60.0, 60.0)
  {
  }

  /** The exact coordinates of "no dimensions zoom 100", and how they round. */
  lemma NoDimensionsZoom100Exact()
    ensures ExactCoordinates(ResizeConfiguration(0.0, 0.0, CropMode, 100), DimensionsOf(PlainBox(100, 100)), Some(ImportantPart(Point(20, 20), Box(60, 60)))) == Exact(Extent(100.0, 100.0), 20.0, 20.0, Extent(60.0, 60.0))
    ensures RoundExact(Exact(Extent(100.0, 100.0), 20.0, 20.0, Extent(60.0, 60.0))) == Coordinates(100, 100, 20, 20, 60, 60)
  {
    RoundsTo(Exact(Extent(100.0, 100.0), 20.0, 20.0, Extent(60.0, 60.0)), Coordinates(100, 100, 20, 20, 60, 60));
    var dimensions := DimensionsOf(PlainBox(100, 100));
    var part := Some(ImportantPart(Point(20, 20), Box(60, 60)));
    assert ImportantArea(dimensions, part) == Area(20.0, 20.0, 60.0, 60.0);
    assert ZoomFactor(100) == 1.0;
    assert ResolvedSize(ResizeConfiguration(0.0, 0.0, CropMode, 100), dimensions, part) == Extent(60.0, 60.0);
    NoDimensionsZoom100Window();
  }

  /** "no dimensions zoom 100", with an important part. */
  lemma NoDimensionsZoom100()
    ensures Calculate(ResizeConfiguration(0.0, 0.0, CropMode, 100), DimensionsOf(PlainBox(100, 100)), Some(ImportantPart(Point(20, 20), Box(60, 60)))) == Coordinates(100, 100, 20, 20, 60, 60)
  {
    NoDimensionsZoom100Exact();
  }

  /** The crop window of "width only zoom 0". */
  lemma WidthOnlyZoom0Window()
    ensures CropWindow(Extent(100.0, 100.0), 100.0, 100.0, Area(20.0, 20.0, 60.0, 60.0), 0.0) == Area(0.0, 0.0, 100.0, 100.0)
  {
  }

  /** The exact coordinates of "width only zoom 0", and how they round. */
  lemma WidthOnlyZoom0Exact()
    ensures ExactCoordinates(ResizeConfiguration(100.0, 0.0, CropMode, 0), DimensionsOf(PlainBox(100, 100)), Some(ImportantPart(Point(20, 20), Box(60, 60)))) == Exact(Extent(100.0, 100.0), 0.0, 0.0, Extent(100.0, 100.0))
    ensures RoundExact(Exact(Extent(100.0, 100.0), 0.0, 0.0, Extent(100.0, 100.0))) == Coordinates(100, 100, 0, 0, 100, 100)
  {
    RoundsTo(Exact(Extent(100.0, 100.0), 0.0, 0.0, Extent(100.0, 100.0)), Coordinates(100, 100, 0, 0, 100, 100));
    var dimensions := DimensionsOf(PlainBox(100, 100));
    var part := Some(ImportantPart(Point(20, 20), Box(60, 60)));
    assert ImportantArea(dimensions, part) == Area(20.0, 20.0, 60.0, 60.0);
    assert ZoomFactor(0) == 0.0;
    assert ResolvedSize(ResizeConfiguration(100.0, 0.0, CropMode, 0), dimensions, part) == Extent(100.0, 100.0);
    WidthOnlyZoom0Window();
  }

  /** "width only zoom 0", with an important part. */
  lemma WidthOnlyZoom0()
    ensures Calculate(ResizeConfiguration(100.0, 0.0, CropMode, 0), DimensionsOf(PlainBox(100, 100)), Some(ImportantPart(Point(20, 20), Box(60, 60)))) == Coordinates(100, 100, 0, 0, 100, 100)
  {
    WidthOnlyZoom0Exact();
  }

  /** The crop window of "width only zoom 50". */
  lemma WidthOnlyZoom50Window()
    ensures CropWindow(Extent(100.0, 100.0), 100.0, 100.0, Area(20.0, 20.0, 60.0, 60.0), 0.5) == Area(10.0, 10.0, 80.0, 80.0)
  {
  }

  /** The exact coordinates of "width only zoom 50", and how they round. */
  lemma WidthOnlyZoom50Exact()
    ensures ExactCoordinates(ResizeConfiguration(100.0, 0.0, CropMode, 50), DimensionsOf(PlainBox(100, 100)), Some(ImportantPart(Point(20, 20), Box(60, 60)))) == Exact(Extent(125.0, 125.0), 12.5, 12.5, Extent(100.0, 100.0))
    ensures RoundExact(Exact(Extent(125.0, 125.0), 12.5, 12.5, Extent(100.0, 100.0))) == Coordinates(125, 125, 13, 13, 100, 100)
  {
    RoundsTo(Exact(Extent(125.0, 125.0), 12.5, 12.5, Extent(100.0, 100.0)), Coordinates(125, 125, 13, 13, 100, 100));
    var dimensions := DimensionsOf(PlainBox(100, 100));
    var part := Some(ImportantPart(Point(20, 20), Box(60, 60)));
    assert ImportantArea(dimensions, part) == Area(20.0, 20.0, 60.0, 60.0);
    assert ZoomFactor(50) == 0.5;
    assert ResolvedSize(ResizeConfiguration(100.0, 0.0, CropMode, 50), dimensions, part) == Extent(100.0, 100.0);
    WidthOnlyZoom50Window();
  }

  /** "width only zoom 50", with an important part. */
  lemma WidthOnlyZoom50()
    ensures Calculate(ResizeConfiguration(100.0, 0.0, CropMode, 50), DimensionsOf(PlainBox(100, 100)), Some(ImportantPart(Point(20, 20), Box(60, 60)))) == Coordinates(125, 125, 13, 13, 100, 100)
  {
    WidthOnlyZoom50Exact();
  }

  /** The crop window of "width only zoom 100". */
  lemma WidthOnlyZoom100Window()
    ensures CropWindow(Extent(100.0, 100.0), 100.0, 100.0, Area(20.0, 20.0, 60.0, 60.0), 1.0) == Area(20.0, 20.0, 60.0, 60.0)
  {
  }

  /** The exact coordinates of "width only zoom 100", and how they round. */
  lemma WidthOnlyZoom100Exact()
    ensures ValidInput(ResizeConfiguration(100.0, 0.0, CropMode, 100), DimensionsOf(PlainBox(100, 100)), Some(ImportantPart(Point(20, 20), Box(60, 60))))
    ensures ExactCoordinates(ResizeConfiguration(100.0, 0.0, CropMode, 100), DimensionsOf(PlainBox(100, 100)), Some(ImportantPart(Point(20, 20), Box(60, 60)))) == Exact(Extent((500.0 / 3.0), (500.0 / 3.0)), (100.0 / 3.0), (100.0 / 3.0), Extent(100.0, 100.0))
    ensures RoundExact(Exact(Extent((500.0 / 3.0), (500.0 / 3.0)), (100.0 / 3.0), (100.0 / 3.0), Extent(100.0, 100.0))) == Coordinates(167, 167, 33, 33, 100, 100)
  {
    RoundsTo(Exact(Extent((500.0 / 3.0), (500.0 / 3.0)), (100.0 / 3.0), (100.0 / 3.0), Extent(100.0, 100.0)), Coordinates(167, 167, 33, 33, 100, 100));
    var dimensions := DimensionsOf(PlainBox(100, 100));
    var part := Some(ImportantPart(Point(20, 20), Box(60, 60)));
    assert ImportantArea(dimensions, part) == Area(20.0, 20.0, 60.0, 60.0);
    assert ZoomFactor(100) == 1.0;
    assert ResolvedSize(ResizeConfiguration(100.0, 0.0, CropMode, 100), dimensions, part) == Extent(100.0, 100.0);
    WidthOnlyZoom100Window();
  }

  /** "width only zoom 100", with an important part. */
  lemma WidthOnlyZoom100()
    ensures Calculate(ResizeConfiguration(100.0, 0.0, CropMode, 100), DimensionsOf(PlainBox(100, 100)), Some(ImportantPart(Point(20, 20), Box(60, 60)))) == Coordinates(167, 167, 33, 33, 100, 100)
  {
    WidthOnlyZoom100Exact();
  }

  /** The crop window of "same dimensions zoom 0". */
  lemma SameDimensionsZoom0Window()
    ensures CropWindow(Extent(100.0, 100.0), 100.0, 100.0, Area(25.0, 25.0, 50.0, 50.0), 0.0) == Area(0.0, 0.0, 100.0, 100.0)
  {
  }

  /** The exact coordinates of "same dimensions zoom 0", and how they round. */
  lemma SameDimensionsZoom0Exact()
    ensures ExactCoordinates(ResizeConfiguration(100.0, 100.0, CropMode, 0), DimensionsOf(PlainBox(100, 100)), Some(ImportantPart(Point(25, 25), Box(50, 50)))) == Exact(Extent(100.0, 100.0), 0.0, 0.0, Extent(100.0, 100.0))
    ensures RoundExact(Exact(Extent(100.0, 100.0), 0.0, 0.0, Extent(100.0, 100.0))) == Coordinates(100, 100, 0, 0, 100, 100)
  {
    RoundsTo(Exact(Extent(100.0, 100.0), 0.0, 0.0, Extent(100.0, 100.0)), Coordinates(100, 100, 0, 0, 100, 100));
    var dimensions := DimensionsOf(PlainBox(100, 100));
    var part := Some(ImportantPart(Point(25, 25), Box(50, 50)));
    assert ImportantArea(dimensions, part) == Area(25.0, 25.0, 50.0, 50.0);
    assert ZoomFactor(0) == 0.0;
    assert ResolvedSize(ResizeConfiguration(100.0, 100.0, CropMode, 0), dimensions, part) == Extent(100.0, 100.0);
    SameDimensionsZoom0Window();
  }

  /** "same dimensions zoom 0", with an important part. */
  lemma SameDimensionsZoom0()
    ensures Calculate(ResizeConfiguration(100.0, 100.0, CropMode, 0), DimensionsOf(PlainBox(100, 100)), Some(ImportantPart(Point(25, 25), Box(50, 50)))) == Coordinates(100, 100, 0, 0, 100, 100)
  {
    SameDimensionsZoom0Exact();
  }

  /** The crop window of "same dimensions zoom 50". */
  lemma SameDimensionsZoom50Window()
    ensures CropWindow(Extent(100.0, 100.0), 100.0, 100.0, Area(25.0, 25.0, 50.0, 50.0), 0.5) == Area(12.5, 12.5, 75.0, 75.0)
  {
  }

  /** The exact coordinates of "same dimensions zoom 50", and how they round. */
  lemma SameDimensionsZoom50Exact()
    ensures ExactCoordinates(ResizeConfiguration(100.0, 100.0, CropMode, 50), DimensionsOf(PlainBox(100, 100)), Some(ImportantPart(Point(25, 25), Box(50, 50)))) == Exact(Extent((400.0 / 3.0), (400.0 / 3.0)), (50.0 / 3.0), (50.0 / 3.0), Extent(100.0, 100.0))
    ensures RoundExact(Exact(Extent((400.0 / 3.0), (400.0 / 3.0)), (50.0 / 3.0), (50.0 / 3.0), Extent(100.0, 100.0))) == Coordinates(133, 133, 17, 17, 100, 100)
  {
    RoundsTo(Exact(Extent((400.0 / 3.0), (400.0 / 3.0)), (50.0 / 3.0), (50.0 / 3.0), Extent(100.0, 100.0)), Coordinates(133, 133, 17, 17, 100, 100));
    var dimensions := DimensionsOf(PlainBox(100, 100));
    var part := Some(ImportantPart(Point(25, 25), Box(50, 50)));
    assert ImportantArea(dimensions, part) == Area(25.0, 25.0, 50.0, 50.0);
    assert ZoomFactor(50) == 0.5;
    assert ResolvedSize(ResizeConfiguration(100.0, 100.0, CropMode, 50), dimensions, part) == Extent(100.0, 100.0);
    SameDimensionsZoom50Window();
  }

  /** "same dimensions zoom 50", with an important part. */
  lemma SameDimensionsZoom50()
    ensures Calculate(ResizeConfiguration(100.0, 100.0, CropMode, 50), DimensionsOf(PlainBox(100, 100)), Some(ImportantPart(Point(25, 25), Box(50, 50)))) == Coordinates(133, 133, 17, 17, 100, 100)
  {
    SameDimensionsZoom50Exact();
  }

  /** The crop window of "same dimensions zoom 100". */
  lemma SameDimensionsZoom100Window()
    ensures CropWindow(Extent(100.0, 100.0), 100.0, 100.0, Area(25.0, 25.0, 50.0, 50.0), 1.0) == Area(25.0, 25.0, 50.0, 50.0)
  {
  }

  /** The exact coordinates of "same dimensions zoom 100", and how they round. */
  lemma SameDimensionsZoom100Exact()
    ensures ExactCoordinates(ResizeConfiguration(100.0, 100.0, CropMode, 100), DimensionsOf(PlainBox(100, 100)), Some(ImportantPart(Point(25, 25), Box(50, 50)))) == Exact(Extent(200.0, 200.0), 50.0, 50.0, Extent(100.0, 100.0))
    ensures RoundExact(Exact(Extent(200.0, 200.0), 50.0, 50.0, Extent(100.0, 100.0))) == Coordinates(200, 200, 50, 50, 100, 100)
  {
    RoundsTo(Exact(Extent(200.0, 200.0), 50.0, 50.0, Extent(100.0, 100.0)), Coordinates(200, 200, 50, 50, 100, 100));
    var dimensions := DimensionsOf(PlainBox(100, 100));
    var part := Some(ImportantPart(Point(25, 25), Box(50, 50)));
    assert ImportantArea(dimensions, part) == Area(25.0, 25.0, 50.0, 50.0);
    assert ZoomFactor(100) == 1.0;
    assert ResolvedSize(ResizeConfiguration(100.0, 100.0, CropMode, 100), dimensions, part) == Extent(100.0, 100.0);
    SameDimensionsZoom100Window();
  }

  /** "same dimensions zoom 100", with an important part. */
  lemma SameDimensionsZoom100()
    ensures Calculate(ResizeConfiguration(100.0, 100.0, CropMode, 100), DimensionsOf(PlainBox(100, 100)), Some(ImportantPart(Point(25, 25), Box(50, 50)))) == Coordinates(200, 200, 50, 50, 100, 100)
  {
    SameDimensionsZoom100Exact();
  }

  /** The crop window of "landscape to portrait zoom 0". */
  lemma LandscapeToPortraitZoom0Window()
    ensures CropWindow(Extent(100.0, 200.0), 200.0, 100.0, Area(140.0, 40.0, 20.0, 20.0), 0.0) == Area((350.0 / 3.0), 0.0, 50.0, 100.0)
  {
  }

  /** The exact coordinates of "landscape to portrait zoom 0", and how they round. */
  lemma LandscapeToPortraitZoom0Exact()
    ensures ExactCoordinates(ResizeConfiguration(100.0, 200.0, CropMode, 0), DimensionsOf(PlainBox(200, 100)), Some(ImportantPart(Point(140, 40), Box(20, 20)))) == Exact(Extent(400.0, 200.0), (700.0 / 3.0), 0.0, Extent(100.0, 200.0))
    ensures RoundExact(Exact(Extent(400.0, 200.0), (700.0 / 3.0), 0.0, Extent(100.0, 200.0))) == Coordinates(400, 200, 233, 0, 100, 200)
  {
    RoundsTo(Exact(Extent(400.0, 200.0), (700.0 / 3.0), 0.0, Extent(100.0, 200.0)), Coordinates(400, 200, 233, 0, 100, 200));
    var dimensions := DimensionsOf(PlainBox(200, 100));
    var part := Some(ImportantPart(Point(140, 40), Box(20, 20)));
    assert ImportantArea(dimensions, part) == Area(140.0, 40.0, 20.0, 20.0);
    assert ZoomFactor(0) == 0.0;
    assert ResolvedSize(ResizeConfiguration(100.0, 200.0, CropMode, 0), dimensions, part) == Extent(100.0, 200.0);
    LandscapeToPortraitZoom0Window();
  }

  /** "landscape to portrait zoom 0", with an important part. */
  lemma LandscapeToPortraitZoom0()
    ensures Calculate(ResizeConfiguration(100.0, 200.0, CropMode, 0), DimensionsOf(PlainBox(200, 100)), Some(ImportantPart(Point(140, 40), Box(20, 20)))) == Coordinates(400, 200, 233, 0, 100, 200)
  {
    LandscapeToPortraitZoom0Exact();
  }

  /** The crop window of "landscape to portrait zoom 50". */
  lemma LandscapeToPortraitZoom50Window()
    ensures CropWindow(Extent(100.0, 200.0), 200.0, 100.0, Area(140.0, 40.0, 20.0, 20.0), 0.5) == Area((385.0 / 3.0), 15.0, 35.0, 70.0)
  {
  }

  /** The exact coordinates of "landscape to portrait zoom 50", and how they round. */
  lemma LandscapeToPortraitZoom50Exact()
    ensures ExactCoordinates(ResizeConfiguration(100.0, 200.0, CropMode, 50), DimensionsOf(PlainBox(200, 100)), Some(ImportantPart(Point(140, 40), Box(20, 20)))) == Exact(Extent((4000.0 / 7.0), (2000.0 / 7.0)), (1100.0 / 3.0), (300.0 / 7.0), Extent(100.0, 200.0))
    ensures RoundExact(Exact(Extent((4000.0 / 7.0), (2000.0 / 7.0)), (1100.0 / 3.0), (300.0 / 7.0), Extent(100.0, 200.0))) == Coordinates(571, 286, 367, 43, 100, 200)
  {
    RoundsTo(Exact(Extent((4000.0 / 7.0), (2000.0 / 7.0)), (1100.0 / 3.0), (300.0 / 7.0), Extent(100.0, 200.0)), Coordinates(571, 286, 367, 43, 100, 200));
    var dimensions := DimensionsOf(PlainBox(200, 100));
    var part := Some(ImportantPart(Point(140, 40), Box(20, 20)));
    assert ImportantArea(dimensions, part) == Area(140.0, 40.0, 20.0, 20.0);
    assert ZoomFactor(50) == 0.5;
    assert ResolvedSize(ResizeConfiguration(100.0, 200.0, CropMode, 50), dimensions, part) == Extent(100.0, 200.0);
    LandscapeToPortraitZoom50Window();
  }

  /** "landscape to portrait zoom 50", with an important part. */
  lemma LandscapeToPortraitZoom50()
    ensures Calculate(ResizeConfiguration(100.0, 200.0, CropMode, 50), DimensionsOf(PlainBox(200, 100)), Some(ImportantPart(Point(140, 40), Box(20, 20)))) == Coordinates(571, 286, 367, 43, 100, 200)
  {
    LandscapeToPortraitZoom50Exact();
  }

  /** The crop window of "landscape to portrait zoom 100". */
  lemma LandscapeToPortraitZoom100Window()
    ensures CropWindow(Extent(100.0, 200.0), 200.0, 100.0, Area(140.0, 40.0, 20.0, 20.0), 1.0) == Area(140.0, 30.0, 20.0, 40.0)
  {
  }

  /** The exact coordinates of "landscape to portrait zoom 100", and how they round. */
  lemma LandscapeToPortraitZoom100Exact()
    ensures ExactCoordinates(ResizeConfiguration(100.0, 200.0, CropMode, 100), DimensionsOf(PlainBox(200, 100)), Some(ImportantPart(Point(140, 40), Box(20, 20)))) == Exact(Extent(1000.0, 500.0), 700.0, 150.0, Extent(100.0, 200.0))
    ensures RoundExact(Exact(Extent(1000.0, 500.0), 700.0, 150.0, Extent(100.0, 200.0))) == Coordinates(1000, 500, 700, 150, 100, 200)
  {
    RoundsTo(Exact(Extent(1000.0, 500.0), 700.0, 150.0, Extent(100.0, 200.0)), Coordinates(1000, 500, 700, 150, 100, 200));
    var dimensions := DimensionsOf(PlainBox(200, 100));
    var part := Some(ImportantPart(Point(140, 40), Box(20, 20)));
    assert ImportantArea(dimensions, part) == Area(140.0, 40.0, 20.0, 20.0);
    assert ZoomFactor(100) == 1.0;
    assert ResolvedSize(ResizeConfiguration(100.0, 200.0, CropMode, 100), dimensions, part) == Extent(100.0, 200.0);
    LandscapeToPortraitZoom100Window();
  }

  /** "landscape to portrait zoom 100", with an important part. */
  lemma LandscapeToPortraitZoom100()
    ensures Calculate(ResizeConfiguration(100.0, 200.0, CropMode, 100), DimensionsOf(PlainBox(200, 100)), Some(ImportantPart(Point(140, 40), Box(20, 20)))) == Coordinates(1000, 500, 700, 150, 100, 200)
  {
    LandscapeToPortraitZoom100Exact();
  }
}

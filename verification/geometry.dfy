/**
 * Value objects of the geometry: Imagine's `Box` and `Point`, the important
 * part of an image, the resize configuration and the coordinates the
 * calculator produces.
 */
module Geometry {

  /** Imagine's `Box`: a width and a height in pixels. */
  datatype Box = Box(width: int, height: int)

  /** Imagine's `Point`: a position in pixels. */
  datatype Point = Point(x: int, y: int)

  /** The part of an image that should stay visible: a position and a size in source pixels. */
  datatype ImportantPart = ImportantPart(position: Point, size: Box)

  /** The three resize modes of `ResizeConfiguration`. */
  datatype ResizeMode = CropMode | ProportionalMode | BoxMode

  /**
   * What the caller asks for. A width or height of 0 means "not set", as PHP's
   * truthiness test reads it; sizes are exact rationals so that fractional
   * requests (100.4) can be expressed.
   */
  datatype ResizeConfiguration = ResizeConfiguration(width: real, height: real, mode: ResizeMode, zoomLevel: int)

  /** A configuration that only sets width, height and mode (zoom level 0). */
  function Configuration(width: real, height: real, mode: ResizeMode): ResizeConfiguration {
    ResizeConfiguration(width, height, mode, 0)
  }

  /**
   * The calculator's result: the size the whole source is scaled to, the crop
   * start inside that scaled image, and the crop size, which is the size of the
   * output.
   */
  datatype ResizeCoordinates = ResizeCoordinates(size: Box, cropStart: Point, cropSize: Box)
}

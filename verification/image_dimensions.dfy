/** `ImageDimensions`: an immutable size with an EXIF orientation and two flags. */
module Dimensions {
  import opened Common
  import opened Geometry

  /**
   * The size object handed to the constructor. Besides the box itself it records
   * which of the two marker interfaces of the SVG backend its class implements.
   */
  datatype SizeBox = SizeBox(box: Box, isRelativeBox: bool, isUndefinedBox: bool)

  /** A plain Imagine box, which implements neither marker interface. */
  function PlainBox(width: int, height: int): SizeBox {
    SizeBox(Box(width, height), false, false)
  }

  const ORIENTATION_NORMAL: int := 1
  const ORIENTATION_MIN: int := 1
  const ORIENTATION_MAX: int := 8

  datatype ImageDimensions = ImageDimensions(size: SizeBox, orientation: int, relative: bool, undefined: bool) {

    /** What the constructor guarantees of every instance. */
    predicate Valid() {
      ORIENTATION_MIN <= orientation <= ORIENTATION_MAX
    }

    function GetSize(): SizeBox { size }
    function GetOrientation(): int { orientation }
    function IsRelative(): bool { relative }
    function IsUndefined(): bool { undefined }
  }

  /**
   * The constructor: rejects an orientation outside 1..8 and fills an absent
   * flag from the kind of the size box.
   */
  function NewImageDimensions(size: SizeBox, relative: Option<bool>, undefined: Option<bool>, orientation: int)
    : (r: Result<ImageDimensions>)
    ensures r.Success? <==> ORIENTATION_MIN <= orientation <= ORIENTATION_MAX
    ensures r.Success? ==> r.value.Valid()
  {
    if orientation < ORIENTATION_MIN || orientation > ORIENTATION_MAX then
      Failure(InvalidArgument("Orientation must be one of the ImageDimensionsInterface::ORIENTATION_* constants"))
    else
      Success(ImageDimensions(
        size,
        orientation,
        if relative.None? then size.isRelativeBox else relative.value,
        if undefined.None? then size.isUndefinedBox else undefined.value))
  }

  /** `new ImageDimensions($size)`: every optional argument left at its default. */
  function DimensionsOf(size: SizeBox): (d: ImageDimensions)
    ensures d.Valid()
    ensures NewImageDimensions(size, None, None, ORIENTATION_NORMAL) == Success(d)
  {
    ImageDimensions(size, ORIENTATION_NORMAL, size.isRelativeBox, size.isUndefinedBox)
  }

  /** The getters return what the constructor received; an absent flag follows the box kind. */
  lemma GettersReturnConstructorArguments(size: SizeBox, relative: Option<bool>, undefined: Option<bool>, orientation: int)
    requires ORIENTATION_MIN <= orientation <= ORIENTATION_MAX
    ensures var r := NewImageDimensions(size, relative, undefined, orientation);
      && r.Success?
      && r.value.GetSize() == size
      && r.value.GetOrientation() == orientation
      && (relative.Some? ==> r.value.IsRelative() == relative.value)
      && (relative.None? ==> r.value.IsRelative() == size.isRelativeBox)
      && (undefined.Some? ==> r.value.IsUndefined() == undefined.value)
      && (undefined.None? ==> r.value.IsUndefined() == size.isUndefinedBox)
  {
  }

  /** With defaults only, the orientation is normal and both flags come from the box kind. */
  lemma DefaultsFollowTheBox(size: SizeBox)
    ensures DimensionsOf(size).GetOrientation() == ORIENTATION_NORMAL
    ensures DimensionsOf(size).IsRelative() == size.isRelativeBox
    ensures DimensionsOf(size).IsUndefined() == size.isUndefinedBox
    ensures DimensionsOf(size).GetSize() == size
  {
  }

  /** Explicitly supplied flags win over the box kind. */
  lemma ExplicitFlagsWin(size: SizeBox, relative: bool, undefined: bool)
    ensures NewImageDimensions(size, Some(relative), Some(undefined), ORIENTATION_NORMAL)
      == Success(ImageDimensions(size, ORIENTATION_NORMAL, relative, undefined))
  {
  }
}

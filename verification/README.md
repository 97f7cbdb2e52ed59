# contao/image: resizing, deferred resizing and picture generation in Dafny

This project models the core of the contao/image PHP library and proves
properties of that model. The core covers:

- **`ResizeCalculator::calculate`**: from a resize configuration (width, height,
  mode `crop` / `proportional` / `box`, zoom level), the source's
  `ImageDimensions` and an optional important part, it computes the
  `ResizeCoordinates`: the scaled size, the crop start and the crop size.
  The arithmetic runs over exact rationals, and PHP's `round` (half away from
  zero) is applied at the end. Every data set of the calculator's test is
  proved as a lemma, next to general properties of the calculation.
- **`ImageDimensions`**: an immutable value. It rejects an orientation outside
  1..8. An absent `relative` or `undefined` flag is taken from the kind of the
  size box.
- **`ResizeOptions`**: a mutable settings object with fluent setters. A
  relative target path is rejected.
- **`Resizer`**: computes the coordinates and derives the cache path
  `cacheDir/<h>/<filename>-<8 hex digits>.<extension>` from the `md5` of
  path, modification time and coordinates. It creates the target directory
  when it is missing, picks the SVG backend for `svg`/`svgz` files, and drives
  the Imagine backend through open, resize, crop and save.
- **`DeferredResizer`**: resizes in two phases. The first phase writes a
  `.config` descriptor beside the cache path and returns a deferred image
  that already has its final dimensions. `resizeDeferredImage` later renders
  the image from the descriptor and removes the descriptor. An explicit
  target path renders at once.
- **`PictureGenerator`**: builds the attributes of a `<picture>` element. For
  each configuration item it produces:
  - one srcset entry per pixel density, with `x` or `w` descriptors, with
    entries that share a path removed;
  - `src`;
  - `width`/`height` when the dimensions are known;
  - `sizes` (defaulting to `100vw` for width descriptors);
  - `media`.

State that the source changes in place is modelled as classes:
- `ResizeOptions`;
- the filesystem;
- the Imagine backends;
- `Resizer`, `DeferredResizer` and `PictureGenerator`.

Everything else is datatypes and functions. The loops of `generate`,
`generateSource` and `removeDuplicateScrsetItems` are methods with
invariants. Each is proved against the function that specifies it
(`PictureOf`, `SourceOf`, `KeepFirst`), and the lemmas beside those
functions state what the output means.

The source of `ResizeCalculator`, `ResizeOptions` and `DeferredResizer`
(src/ResizeCalculator.php, src/ResizeOptions.php, src/DeferredResizer.php)
is not part of this model's sources. These three are modelled from their
tests: tests/ResizeCalculatorTest.php, tests/ResizeOptionsTest.php and
tests/DeferredResizerTest.php. The rows below cite those tests.

Files:
- `common.dfy`: `Option`, `Result`, errors.
- `geometry.dfy`: `Box`, `Point`, `ImportantPart`, `ResizeConfiguration`,
  `ResizeCoordinates`.
- `image_dimensions.dfy`.
- `rationals.dfy`: lemmas about rational arithmetic.
- `resize_calculator.dfy`, `resize_calculator_properties.dfy`,
  `resize_calculator_fixtures.dfy`.
- `resize_options.dfy`.
- `strings.dfy`: PHP string and path functions.
- `storage.dfy`: the filesystem and the Imagine backend.
- `resizer.dfy`.
- `deferred_resizer.dfy`.
- `unique.dfy`: `array_unique`-style filtering.
- `picture_generator.dfy`.

## Model

| member | source | states |
|---|---|---|
| Dimensions.NewImageDimensions | src/ImageDimensions.php:41-61 | construction succeeds exactly when the orientation is in 1..8, and every constructed value keeps that range |
| Dimensions.DimensionsOf | src/ImageDimensions.php:41-61 | `new ImageDimensions($size)` with every default succeeds and gives a valid value |
| Dimensions.GettersReturnConstructorArguments | src/ImageDimensions.php:41-93 | the getters return the size and orientation given; a given flag is returned as is, an absent one follows the size box's kind |
| Dimensions.DefaultsFollowTheBox | src/ImageDimensions.php:49-55 | with defaults only, the orientation is normal and `isRelative`/`isUndefined` follow the box kind |
| Dimensions.ExplicitFlagsWin | src/ImageDimensions.php:49-60 | explicitly passed flags override the box kind |
| Calculator.Round | tests/ResizeCalculatorTest.php:262-272 | PHP `round`: the result is within half a unit, halves rounding away from zero |
| Calculator.RoundUnique | tests/ResizeCalculatorTest.php:262-272 | a non-negative value in [n - 0.5, n + 0.5) rounds to n |
| Calculator.ZoomFactor | tests/ResizeCalculatorTest.php:294-297 | the zoom level becomes a factor clamped to 0..1 |
| Calculator.ZoomedImportantPart | tests/ResizeCalculatorTest.php:284-314 | the important part grown toward the whole image stays inside the image |
| Calculator.SingleDimension | tests/ResizeCalculatorTest.php:196-217 | filling in the missing side always gives a positive size |
| Calculator.ResolvedSize | tests/ResizeCalculatorTest.php:47-87 | the output size after the mode policy is positive on every valid input |
| Calculator.SizeFor | tests/ResizeCalculatorTest.php:97-272 | each resize mode yields a positive size |
| Calculator.CropWindowInside | tests/ResizeCalculatorTest.php:284-314 | the crop window chosen for any zoom factor lies inside the source |
| Calculator.CandidatesShape | tests/ResizeCalculatorTest.php:284-314 | both candidate windows have the target aspect ratio; the least zoomed one lies inside the source, the most zoomed one too whenever it fits |
| Calculator.LeastZoomedInside | tests/ResizeCalculatorTest.php:163-184 | the least zoomed window lies inside the source and has the target aspect ratio |
| Calculator.MostZoomedShape | tests/ResizeCalculatorTest.php:423-455 | the most zoomed window is at least as wide and as high as the important part, has the target aspect ratio, and lies inside the source whenever it fits |
| Calculator.ScaleWindow | tests/ResizeCalculatorTest.php:47-87 | the crop lies inside the scaled image, and the crop size is the requested size |
| Calculator.ExactCoordinates | tests/ResizeCalculatorTest.php:47-87 | before rounding, the crop size is the resolved size and the crop lies inside the scaled image |
| CalculatorProperties.CalculateIgnoresZoomWithoutPart | tests/ResizeCalculatorTest.php:72-86 | without an important part, every zoom level gives the coordinates of zoom level 0 |
| CalculatorProperties.CentredWithoutPart | tests/ResizeCalculatorTest.php:163-184 | without an important part the crop is centred in the scaled image on both axes, in every mode and at every zoom level, before rounding |
| CalculatorProperties.ExactIgnoresZoomWithoutPart | tests/ResizeCalculatorTest.php:72-86 | the same for the unrounded coordinates |
| CalculatorProperties.CalculateWithoutSizeIsIdentity | tests/ResizeCalculatorTest.php:97-107 | with no size and no important part, the result is the source size, uncropped |
| CalculatorProperties.LeastZoomedIsLargest | tests/ResizeCalculatorTest.php:163-184 | every window of the target aspect ratio inside the source is at most as wide and as high as the least zoomed one |
| CalculatorProperties.LeastZoomedSizeIgnoresPart | tests/ResizeCalculatorTest.php:284-314 | the size of the least zoomed window does not depend on the important part |
| CalculatorProperties.ZoomedEnds | tests/ResizeCalculatorTest.php:324-356 | the zoomed part at factor 0 is the whole image, at factor 1 the important part |
| CalculatorProperties.ZoomZeroKeepsSizes | tests/ResizeCalculatorTest.php:324-334 | at zoom level 0 an important part changes only the crop position, not the sizes |
| CalculatorProperties.NoSizeFullZoomCropsPart | tests/ResizeCalculatorTest.php:346-356 | with no size and zoom 100, the output is exactly the important part of the unscaled image |
| CalculatorProperties.MostIsPart | tests/ResizeCalculatorTest.php:390-422 | asked for the part's own size, the most zoomed window is the part |
| CalculatorProperties.FullPartCropWindow | tests/ResizeCalculatorTest.php:47-87 | when the important part is the whole source, every zoom factor gives the least zoomed window |
| CalculatorProperties.SingleDimensionKeepsAspect | tests/ResizeCalculatorTest.php:141-162 | one given side is kept; the other follows the aspect ratio and is at least 1 |
| CalculatorProperties.CropModeKeepsRequest | tests/ResizeCalculatorTest.php:163-184 | in crop mode with both sides requested, the output is the requested size, rounded, for every source, important part and zoom level |
| CalculatorProperties.ProportionalKeepsLongerSide | tests/ResizeCalculatorTest.php:185-217 | proportional mode keeps the requested width for landscape/square sources and the height for portrait ones, at the source's aspect ratio |
| CalculatorProperties.BoxModeFitsInside | tests/ResizeCalculatorTest.php:218-261 | box mode fits inside the requested box, touching one side, at the source's aspect ratio |
| CalculatorProperties.NoRequestKeepsPartSize | tests/ResizeCalculatorTest.php:324-356 | with no size requested, in any mode, the output is the important part grown by the zoom level, at its own size, rounded |
| CalculatorFixtures.NoDimensions | tests/ResizeCalculatorTest.php:97-107 | the "No dimensions" data set at zoom 0, 50 and 100 |
| CalculatorFixtures.SameDimensions | tests/ResizeCalculatorTest.php:108-118 | the "Same dimensions" data set at zoom 0, 50 and 100 |
| CalculatorFixtures.ScaleDown | tests/ResizeCalculatorTest.php:119-129 | the "Scale down" data set at zoom 0, 50 and 100 |
| CalculatorFixtures.ScaleUp | tests/ResizeCalculatorTest.php:130-140 | the "Scale up" data set at zoom 0, 50 and 100 |
| CalculatorFixtures.WidthOnly | tests/ResizeCalculatorTest.php:141-151 | the "Width only" data set at zoom 0, 50 and 100 |
| CalculatorFixtures.HeightOnly | tests/ResizeCalculatorTest.php:152-162 | the "Height only" data set at zoom 0, 50 and 100 |
| CalculatorFixtures.CropLandscape | tests/ResizeCalculatorTest.php:163-173 | the "Crop landscape" data set at zoom 0, 50 and 100 |
| CalculatorFixtures.CropPortrait | tests/ResizeCalculatorTest.php:174-184 | the "Crop portrait" data set at zoom 0, 50 and 100 |
| CalculatorFixtures.ProportionalLandscape | tests/ResizeCalculatorTest.php:185-195 | the "Mode proportional landscape" data set at zoom 0, 50 and 100 |
| CalculatorFixtures.ProportionalPortrait | tests/ResizeCalculatorTest.php:196-206 | the "Mode proportional portrait" data set at zoom 0, 50 and 100 |
| CalculatorFixtures.ProportionalSquare | tests/ResizeCalculatorTest.php:207-217 | the "Mode proportional square" data set at zoom 0, 50 and 100 |
| CalculatorFixtures.BoxLandscape1 | tests/ResizeCalculatorTest.php:218-228 | the "Mode box landscape 1" data set at zoom 0, 50 and 100 |
| CalculatorFixtures.BoxLandscape2 | tests/ResizeCalculatorTest.php:229-239 | the "Mode box landscape 2" data set at zoom 0, 50 and 100 |
| CalculatorFixtures.BoxPortrait1 | tests/ResizeCalculatorTest.php:240-250 | the "Mode box portrait 1" data set at zoom 0, 50 and 100 |
| CalculatorFixtures.BoxPortrait2 | tests/ResizeCalculatorTest.php:251-261 | the "Mode box portrait 2" data set at zoom 0, 50 and 100 |
| CalculatorFixtures.FloatValues | tests/ResizeCalculatorTest.php:262-272 | the "Float values" data set: 100.4 rounds to 100, at zoom 0, 50 and 100 |
| CalculatorFixtures.NoDimensionsZoom0 | tests/ResizeCalculatorTest.php:324-334 | the "No dimensions zoom 0" data set with its important part |
| CalculatorFixtures.NoDimensionsZoom50 | tests/ResizeCalculatorTest.php:335-345 | the "No dimensions zoom 50" data set |
| CalculatorFixtures.NoDimensionsZoom100 | tests/ResizeCalculatorTest.php:346-356 | the "No dimensions zoom 100" data set |
| CalculatorFixtures.WidthOnlyZoom0 | tests/ResizeCalculatorTest.php:357-367 | the "Width only zoom 0" data set |
| CalculatorFixtures.WidthOnlyZoom50 | tests/ResizeCalculatorTest.php:368-378 | the "Width only zoom 50" data set |
| CalculatorFixtures.WidthOnlyZoom100 | tests/ResizeCalculatorTest.php:379-389 | the "Width only zoom 100" data set |
| CalculatorFixtures.SameDimensionsZoom0 | tests/ResizeCalculatorTest.php:390-400 | the "Same dimensions zoom 0" data set |
| CalculatorFixtures.SameDimensionsZoom50 | tests/ResizeCalculatorTest.php:401-411 | the "Same dimensions zoom 50" data set |
| CalculatorFixtures.SameDimensionsZoom100 | tests/ResizeCalculatorTest.php:412-422 | the "Same dimensions zoom 100" data set |
| CalculatorFixtures.LandscapeToPortraitZoom0 | tests/ResizeCalculatorTest.php:423-433 | the "Landscape to portrait zoom 0" data set |
| CalculatorFixtures.LandscapeToPortraitZoom50 | tests/ResizeCalculatorTest.php:434-444 | the "Landscape to portrait zoom 50" data set |
| CalculatorFixtures.LandscapeToPortraitZoom100 | tests/ResizeCalculatorTest.php:445-455 | the "Landscape to portrait zoom 100" data set |
| Options.ResizeOptions.constructor | tests/ResizeOptionsTest.php:22-24 | the defaults: no Imagine options, no target path, both flags off |
| Options.ResizeOptions.SetImagineOptions | tests/ResizeOptionsTest.php:20-27 | replaces the Imagine options, changes nothing else, returns the same object |
| Options.ResizeOptions.SetTargetPath | tests/ResizeOptionsTest.php:29-44 | accepts exactly `null` or an absolute path and stores it; otherwise an invalid-argument error, with the object unchanged |
| Options.ResizeOptions.SetBypassCache | tests/ResizeOptionsTest.php:46-53 | sets the flag, changes nothing else, returns the same object |
| Options.ResizeOptions.SetForceReEncoding | tests/ResizeOptionsTest.php:55-62 | sets the flag, changes nothing else, returns the same object |
| Options.ResizeOptions.Clone | src/PictureGenerator.php:38 | a fresh object with the same four settings |
| Options.TargetPathScenario | tests/ResizeOptionsTest.php:29-44 | default `null`; `/target/path` read back; `null` clears; `invalid/relative/path` refused |
| Options.SettersScenario | tests/ResizeOptionsTest.php:20-62 | default empty options and false flags; each setter's value read back and the same object returned |
| PhpStrings.LastIndexOf | src/Resizer.php:140 | the index of the last occurrence, absent exactly when the character does not occur |
| PhpStrings.Substr | src/Resizer.php:134-138 | `substr`: within bounds, the slice of the given length |
| PhpStrings.SubstrFrom | src/Resizer.php:144 | `substr` from a start: the rest of the string after it |
| PhpStrings.DirnameBasenameOfJoin | src/Resizer.php:101-102 | `dirname`/`basename` split `dir/name` back into its parts |
| PhpStrings.PathinfoOfJoin | src/Resizer.php:140-145 | `pathinfo` splits `dir/stem.ext` back into directory, file name and extension |
| PhpStrings.ImplodeExplode | src/Resizer.php:134 | imploding the pieces of an explode restores the string |
| PhpStrings.ExplodeImplode | src/Resizer.php:134 | exploding an implode of separator-free parts gives the parts back |
| PhpStrings.IntToStringRoundTrip | src/Resizer.php:136 | the decimal form of an integer reads back as that integer |
| Storage.FileSystem.Mkdir | src/Resizer.php:101-103 | the directory exists afterwards; files are unchanged; the call is logged |
| Storage.FileSystem.DumpFile | src/Resizer.php:115-119 | the file holds the content; its directory exists |
| Storage.FileSystem.Remove | tests/DeferredResizerTest.php:130 | the file is gone; nothing else changes |
| Storage.Imagine.Open | src/Resizer.php:116 | the call is logged and the image at the path is loaded, unedited |
| Storage.Imagine.Resize | src/Resizer.php:117 | the call is logged and a resize edit is appended |
| Storage.Imagine.Crop | src/Resizer.php:118 | the call is logged and a crop edit is appended |
| Storage.Imagine.Save | src/Resizer.php:119 | the call is logged and the target file holds the edited image |
| Resizing.HashKeyParts | src/Resizer.php:134-138 | the hash key splits back into path, modification time and coordinates when path and coordinates hold no bar character |
| Resizing.HashKeyInjective | src/Resizer.php:134-138 | different path, modification time or coordinates give different hash keys |
| Resizing.CreateTargetPathParts | src/Resizer.php:140-145 | the relative path is the first hash digit, a slash, the file name, a dash, the other eight digits, a dot and the extension |
| Resizing.DigestPrefix | src/Resizer.php:134-138 | the nine digest digits split after the first, and the last eight hold no slash |
| Resizing.TargetPathShape | src/Resizer.php:97-98 | the full cache path has directory `cacheDir/<d>`, file name `<filename>-<8 digits>` and the source's extension |
| Resizing.SvgChoiceByExtension | src/Resizer.php:105-113 | the SVG backend is chosen exactly for `svg`/`svgz` extensions, in any letter case |
| Resizing.RenderedDimensions | src/Resizer.php:121 | the returned image's dimensions are valid and have the crop size |
| Resizing.Resizer.constructor | src/Resizer.php:64-78 | the resizer holds the given cache directory, backends, filesystem and helpers |
| Resizing.Resizer.Run | src/Resizer.php:115-119 | the backend receives open, resize, crop, save in order; the target file holds the edited image |
| Resizing.Resizer.Render | src/Resizer.php:101-119 | the directory is created only when nothing is at its path; the backend chosen by extension renders; the other backend is untouched |
| Resizing.Resizer.Resize | src/Resizer.php:89-122 | the image is rendered at the given target or else the cache path, and returned with the crop size |
| Resizing.SameInputsSamePath | src/Resizer.php:97-98 | equal cache directory, digest, modification time and coordinates give the same cache path |
| Resizing.DefaultTargetPathShape | src/Resizer.php:132-146 | the default cache path has the documented directory, file name and extension |
| DeferredResizing.ConfigPath | tests/DeferredResizerTest.php:121-122 | the descriptor's path is never the target's own |
| DeferredResizing.MakeRelative | tests/DeferredResizerTest.php:124 | a path made relative, put back under its base, is the path again |
| DeferredResizing.MakeRelativeOfJoin | tests/DeferredResizerTest.php:124 | `base/rel` made relative to `base` is `rel` |
| DeferredResizing.RenderedFileDimensions | tests/DeferredResizerTest.php:127 | the file written for some coordinates reads back with the dimensions the resize reported |
| DeferredResizing.DeferredResizer.Resize | tests/DeferredResizerTest.php:107-141 | without a target path, only the descriptor is written, no backend runs, and a deferred image with the final dimensions is returned; with one, the image is rendered there at once |
| DeferredResizing.DeferredResizer.ExecuteResize | tests/DeferredResizerTest.php:107-141 | the same, once the coordinates are known |
| DeferredResizing.DeferredResizer.ResizeDeferredImage | tests/DeferredResizerTest.php:124-130 | a pending target is rendered from its descriptor, the descriptor removed, and the finished image returned; with no descriptor waiting it fails and changes nothing |
| DeferredResizing.HalfSizeCoordinates | tests/DeferredResizerTest.php:70-74 | the coordinates the test's calculator returns are what the calculation gives for a 100×100 crop of the 200×200 image |
| DeferredResizing.DummyPathParts | tests/DeferredResizerTest.php:94-96 | `rootDir/dummy.jpg` has file name `dummy` and extension `jpg` |
| DeferredResizing.DummyTarget | tests/DeferredResizerTest.php:120 | the deferred path matches `/<hex>/dummy-<8 hex>.jpg`, differs from the source and is relative to the root |
| DeferredResizing.DummyTargetIsNotSource | tests/DeferredResizerTest.php:120-121 | the cache path of the source is not the source |
| DeferredResizing.FreshResizer | tests/DeferredResizerTest.php:76-85 | a resizer over a fresh cache holding only the source |
| DeferredResizing.ScenarioResizeOptions | tests/DeferredResizerTest.php:110-115 | options with the scenario's Imagine options and nothing else |
| DeferredResizing.DeferScenario | tests/DeferredResizerTest.php:107-122 | first phase: a deferred image of 100×100 at the cache path; its descriptor records source, time, coordinates and options; no file at the path |
| DeferredResizing.TwoPhaseScenario | tests/DeferredResizerTest.php:107-130 | both phases: the path shape, file absent and descriptor present after deferring; after resolving, the same path and dimensions, not deferred, with the file present and the descriptor gone |
| DeferredResizing.ExplicitTargetScenario | tests/DeferredResizerTest.php:132-141 | an explicit target gives a finished 100×100 image at that path, and the file exists |
| Unique.KeepFirst | src/PictureGenerator.php:149 | keeping the first of each key never lengthens the list, and keeps a non-empty list non-empty |
| Unique.FirstIndex | src/PictureGenerator.php:149 | the position of the first occurrence of a value: it holds the value, and no earlier position does |
| Unique.KeptIndices | src/PictureGenerator.php:192-211 | the positions kept: exactly the first of every key, in increasing order |
| Unique.LastIsFirstOfKey | src/PictureGenerator.php:200-204 | the last element is the first of its key exactly when no earlier element has that key |
| Unique.KeepFirstSelects | src/PictureGenerator.php:192-211 | the kept list is the input at the kept positions, in order |
| Unique.KeepFirstDistinct | src/PictureGenerator.php:192-211 | no two kept elements share a key |
| Unique.KeepFirstKeys | src/PictureGenerator.php:192-211 | every key of the input is still present |
| Unique.KeepFirstHead | src/PictureGenerator.php:96 | the first element is always kept, first |
| Unique.KeepFirstOfDistinct | src/PictureGenerator.php:149 | a list without repeated keys is kept whole |
| Unique.KeepFirstIdempotent | src/PictureGenerator.php:149 | filtering twice is filtering once |
| PictureGeneration.Trim | src/PictureGenerator.php:131 | `trim` never lengthens its input |
| PictureGeneration.TrimStripsEnds | src/PictureGenerator.php:131 | `trim`: the result is a slice of the input with only trim characters cut from its two ends, and it neither starts nor ends with one; a string with any other character stays non-empty |
| PictureGeneration.NonZero | src/PictureGenerator.php:143 | `array_filter`: a value is in the result exactly when it is a non-zero value of the input |
| PictureGeneration.NonZeroFilters | src/PictureGenerator.php:143 | `array_filter` decides element by element: a zero is dropped, any other value kept, and filtering a concatenation concatenates the filtered parts, so order and repeats are kept |
| PictureGeneration.NonZeroKeepsOrder | src/PictureGenerator.php:143 | values that first occur in the filtered list in one order first occur in the input in the same order |
| PictureGeneration.WidthText | src/PictureGenerator.php:179 | the `w` descriptor ends in `w` |
| PictureGeneration.WidthTextRoundTrip | src/PictureGenerator.php:179 | the `w` descriptor without its `w` reads back as the width |
| PictureGeneration.PictureGenerator.constructor | src/PictureGenerator.php:28-31 | the generator holds the given resizer and has no options yet |
| PictureGeneration.PictureGenerator.ParseDensities | src/PictureGenerator.php:125-152 | the parsed densities are never empty |
| PictureGeneration.PictureGenerator.SrcsetOf | src/PictureGenerator.php:89-93 | the srcset is never empty |
| PictureGeneration.PictureGenerator.Generate | src/PictureGenerator.php:36-48 | works on a fresh copy of the options with the target path cleared; leaves the caller's options unchanged; returns the main source and one source per size item, in order |
| PictureGeneration.PictureGenerator.GenerateSource | src/PictureGenerator.php:58-115 | the source equals `SourceOf` on the current options |
| PictureGeneration.PictureGenerator.GenerateSrcsetItems | src/PictureGenerator.php:89-91 | the loop yields one srcset item per density, in the order of the densities |
| PictureGeneration.PictureGenerator.RemoveDuplicateSrcsetItems | src/PictureGenerator.php:192-211 | the result keeps the first item of every path, in order |
| PictureGeneration.ParseDensitiesShape | src/PictureGenerator.php:125-152 | the densities start with 1, hold no zero and no repeat, and are exactly 1 plus the non-zero densities of the entries; after the 1 they come in the order of their first occurrence among the entries |
| PictureGeneration.DensitiesGate | src/PictureGenerator.php:60-78 | the first density is 1; densities other than 1 only when the densities string is set and a width or height is set |
| PictureGeneration.SourceSrc | src/PictureGenerator.php:95-96 | `src` is the first srcset image: the image resized with the item's configuration at density 1 |
| PictureGeneration.SourceSrcsetPaths | src/PictureGenerator.php:89-93 | no two srcset entries share a path, and every path produced for some density is present |
| PictureGeneration.SourceDescriptors | src/PictureGenerator.php:83-87 | no descriptor for a single density; otherwise `<width>w` with a sizes attribute and the ratio to the 1x width without one |
| PictureGeneration.SourceAttributes | src/PictureGenerator.php:98-112 | `width`/`height` exactly when the dimensions are neither relative nor undefined; `sizes` is own, `100vw`, or absent; `media` exactly when set |

## Left out

- The ResizeCalculator, ResizeOptions and DeferredResizer classes' own source
  files are not part of this model. Their behaviour is modelled from their
  tests.
- The calculation is this model's reconstruction: least and most zoomed
  windows, linear interpolation by zoom level, and a fall-back to the least
  zoomed window when the most zoomed one is wider. It was chosen so that
  every data set of tests/ResizeCalculatorTest.php holds, and each of them is
  proved as a lemma. Nothing beyond those data sets is claimed for the PHP
  class itself; the general properties are properties of the reconstruction.
- Calculator.SizeFor: a requested width or height of 0 stands for PHP's unset
  (`null`) value. Negative requests are outside the modelled inputs.
- CalculatorProperties.BoxModeFitsInside: only stated for requested sides of
  at least 1. Below that, the floor of 1 on the derived side can exceed the
  request.
- PHP's `md5`, `filemtime` and the string form of `ResizeCoordinates` are
  parameters of the resizer. They are not computed. Properties of the cache
  path assume a 32-digit lower-case hexadecimal digest.
- Resizing.Resizer.constructor: takes a non-empty cache directory and two
  distinct backend objects, although PHP accepts one object in both roles.
  The distinctness is needed to state that a resize leaves the backend it
  does not use untouched. The constructor does not take the Contao framework
  argument, which `resize` does not use.
- PhpStrings.Basename and PhpStrings.Dirname: only for paths without trailing
  or repeated slashes. PHP drops trailing slashes first (`basename("/a/b/")`
  is `b`) and collapses repeated ones in `dirname`; the model does not. The
  paths the resizers build never have either.
- PictureGeneration.NonZero: its own contract states membership only. Order
  and repeats are stated by `NonZeroFilters` and `NonZeroKeepsOrder`.
- A path is absolute when it starts with `/`. Windows drive paths are not
  modelled.
- `Filesystem::mkdir` is one entry in a set of directories. Parent
  directories, permissions and the umask are not modelled.
- Concurrency is not modelled: a race between two resizes, or between
  deferring and resolving, cannot be expressed.
- Pixel data and Imagine failures are not modelled. An image file records its
  source and its edits, and a written file's size is the size of its last
  edit. The bypass-cache and force-re-encoding flags are stored but have no
  effect in the model.
- DeferredResizing.DeferredResizer.ResizeDeferredImage: renders with the
  backend it is given. The descriptor's Imagine options are recorded but not
  applied. With no descriptor waiting it fails, also for a target that was
  resolved before; how the PHP class treats an already resolved target is not
  part of this model (DeferredResizer.php is not part of this model).
- DeferredResizing.MakeRelative: `Path::makeRelative` only for paths under the
  base directory. The `../` forms are not modelled.
- DeferredResizing.DeferScenario: resizes to the fixed coordinates `HalfSize()`
  that the test's calculator returns. `HalfSizeCoordinates` proves that the
  calculation gives the same coordinates for a 100×100 crop.
- The picture generator's resizer is a pure function of the image, the
  resize configuration and the option values. Its filesystem effects are
  those of `Resizer.Resize` and are not repeated there.
- PHP's `(int)` and `(float)` casts of a densities entry are parameters of the
  generator.
- `array_unique` compares the densities as strings. The model compares them
  as exact numbers, so two floats with the same string form but different
  values stay apart.
- Dividing a `w` entry by a 1x width of 0 gives `false` in PHP. The model
  reads it as 0, so `array_filter` drops it.
- The `x` descriptor keeps the two widths whose ratio `sprintf('%.3F')` and
  `rtrim` would print, not the printed text. The `w` descriptor is modelled as
  text.
- PictureGeneration.PictureGenerator.GenerateSource: the descriptor type
  and the final attribute array are computed by functions
  (`DescriptorTypeFor`, `Attributes`) rather than statement by statement.

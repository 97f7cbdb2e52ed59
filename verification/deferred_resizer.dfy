/**
 * `DeferredResizer`: the resizer split into two phases per target path.
 * `resize` computes the coordinates and the cache path, but instead of running
 * the backend it writes a `.config` descriptor beside the target and returns a
 * deferred image; `resizeDeferredImage` later runs the backend from the
 * descriptor, removes it and returns the finished image at the same path.
 * An explicit target path skips the deferral.
 */
module DeferredResizing {
  import opened Common
  import opened Geometry
  import opened Dimensions
  import opened Calculator
  import opened PhpStrings
  import opened Storage
  import opened Options
  import opened Resizing

  /** Where the descriptor of a deferred target is kept. */
  function ConfigPath(target: string): (p: string)
    ensures p != target
  {
    target + ".config"
  }

  /** `Path::makeRelative` for a path under `base`: what follows `base` and a slash. */
  function MakeRelative(path: string, base: string): (r: Option<string>)
    ensures r.Some? ==> path == base + "/" + r.value
  {
    if |base| < |path| && path[..|base|] == base && path[|base|] == '/' then
      assert path == path[..|base|] + "/" + path[|base| + 1..];
      Some(path[|base| + 1..])
    else
      None
  }

  /** A path under `base` is made relative to it, and prefixing `base` gives it back. */
  lemma MakeRelativeOfJoin(base: string, relative: string)
    ensures MakeRelative(base + "/" + relative, base) == Some(relative)
  {
    var path := base + "/" + relative;
    assert path[..|base|] == base && path[|base|] == '/';
    assert path[|base| + 1..] == relative;
  }

  /** The dimensions the backend can read from an image file, when its edits record a size. */
  function FileDimensions(data: ImageData): Option<ImageDimensions> {
    match RecordedSize(data)
    case None => None
    case Some(size) => Some(DimensionsOf(PlainBox(size.width, size.height)))
  }

  /** The file the backend writes for `coordinates` reads back with the dimensions a resize reports. */
  lemma RenderedFileDimensions(source: string, coordinates: ResizeCoordinates)
    ensures FileDimensions(ImageData(source, EditsFor(coordinates))) == Some(RenderedDimensions(coordinates))
  {
  }

  class DeferredResizer {
    const resizer: Resizer

    constructor(resizer: Resizer)
      ensures this.resizer == resizer
    {
      this.resizer := resizer;
    }

    /** The absolute target of a path given relative to the cache directory. */
    function TargetOf(relativePath: string): string
      reads this
    {
      resizer.cacheDir + "/" + relativePath
    }

    /** A descriptor is waiting at the sidecar of `target`. */
    predicate Pending(target: string)
      reads this, resizer.filesystem
    {
      ConfigPath(target) in resizer.filesystem.files && resizer.filesystem.files[ConfigPath(target)].ConfigFile?
    }

    /** An image file is at `target`, and its dimensions can be read from it. */
    predicate Resolved(target: string)
      reads this, resizer.filesystem
    {
      target in resizer.filesystem.files
      && resizer.filesystem.files[target].ImageFile?
      && FileDimensions(resizer.filesystem.files[target].data).Some?
    }

    /** A resize to `coordinates` with an explicit target path renders the image there at once. */
    twostate predicate RenderedAt(image: Image, coordinates: ResizeCoordinates, target: string, result: Image)
      reads this, resizer, resizer.filesystem, resizer.imagine, resizer.imagineSvg
    {
      && resizer.Performed(image.path, coordinates, target)
      && result == Image(target, RenderedDimensions(coordinates), None, false)
    }

    /**
     * A resize to `coordinates` without a target path writes only the descriptor
     * beside the cache path, touches no backend, and returns a deferred image
     * with the final dimensions.
     */
    twostate predicate DeferredAt(image: Image, coordinates: ResizeCoordinates, imagineOptions: map<string, OptionValue>, result: Image)
      reads this, resizer, resizer.filesystem, resizer.imagine, resizer.imagineSvg
    {
      var target := resizer.DefaultTargetPath(image.path, coordinates);
      var descriptor := DeferredConfig(image.path, resizer.filemtime(image.path), coordinates, imagineOptions);
      && resizer.filesystem.files == old(resizer.filesystem.files)[ConfigPath(target) := ConfigFile(descriptor)]
      && resizer.filesystem.dirs == old(resizer.filesystem.dirs) + {Dirname(ConfigPath(target))}
      && resizer.filesystem.created == old(resizer.filesystem.created)
      && unchanged(resizer.imagine, resizer.imagineSvg)
      && result == Image(target, RenderedDimensions(coordinates), None, true)
    }

    /** `resize`: computes the coordinates and resizes to them, deferring unless a target path is given. */
    method Resize(image: Image, config: ResizeConfiguration, options: ResizeOptions) returns (result: Image)
      requires resizer.Valid() && ValidInput(config, image.dimensions, image.importantPart)
      modifies resizer.filesystem, resizer.imagine, resizer.imagineSvg
      ensures var coordinates := Calculate(config, image.dimensions, image.importantPart);
        options.targetPath.Some? ==> RenderedAt(image, coordinates, options.targetPath.value, result)
      ensures var coordinates := Calculate(config, image.dimensions, image.importantPart);
        options.targetPath.None? ==> DeferredAt(image, coordinates, options.imagineOptions, result)
    {
      var coordinates := Calculate(config, image.dimensions, image.importantPart);
      result := ExecuteResize(image, coordinates, options);
    }

    /** The part of `resize` after the coordinates are known. */
    method ExecuteResize(image: Image, coordinates: ResizeCoordinates, options: ResizeOptions) returns (result: Image)
      requires resizer.Valid()
      modifies resizer.filesystem, resizer.imagine, resizer.imagineSvg
      ensures options.targetPath.Some? ==> RenderedAt(image, coordinates, options.targetPath.value, result)
      ensures options.targetPath.None? ==> DeferredAt(image, coordinates, options.imagineOptions, result)
    {
      if options.targetPath.Some? {
        resizer.Render(image.path, coordinates, options.targetPath.value);
        result := Image(options.targetPath.value, RenderedDimensions(coordinates), None, false);
        return;
      }
      var target := resizer.DefaultTargetPath(image.path, coordinates);
      var descriptor := DeferredConfig(image.path, resizer.filemtime(image.path), coordinates, options.imagineOptions);
      resizer.filesystem.DumpFile(ConfigPath(target), ConfigFile(descriptor));
      result := Image(target, RenderedDimensions(coordinates), None, true);
    }

    /**
     * `resizeDeferredImage`: with a descriptor waiting, runs `imagine` as it
     * describes, removes the descriptor and returns the finished image; with no
     * descriptor waiting, fails and changes nothing.
     */
    method ResizeDeferredImage(relativePath: string, imagine: Imagine) returns (r: Result<Image>)
      modifies resizer.filesystem, imagine
      ensures var target := TargetOf(relativePath);
        old(Pending(target)) ==>
          var descriptor := old(resizer.filesystem.files[ConfigPath(target)].config);
          var data := ImageData(descriptor.source, EditsFor(descriptor.coordinates));
          && imagine.calls == old(imagine.calls) + CallsFor(descriptor.source, descriptor.coordinates, target)
          && resizer.filesystem.files == old(resizer.filesystem.files)[target := ImageFile(data)] - {ConfigPath(target)}
          && resizer.filesystem.dirs == old(resizer.filesystem.dirs)
          && r == Success(Image(target, RenderedDimensions(descriptor.coordinates), None, false))
      ensures var target := TargetOf(relativePath);
        !old(Pending(target)) ==>
          && unchanged(resizer.filesystem, imagine)
          && r == Failure(MissingDeferredConfig(relativePath))
      ensures var target := TargetOf(relativePath);
        r.Success? ==> r.value.path == target && !r.value.deferred && Resolved(target) && !Pending(target)
    {
      var target := TargetOf(relativePath);
      var fs := resizer.filesystem;
      if ConfigPath(target) in fs.files && fs.files[ConfigPath(target)].ConfigFile? {
        var descriptor := fs.files[ConfigPath(target)].config;
        resizer.Run(imagine, descriptor.source, descriptor.coordinates, target);
        fs.Remove(ConfigPath(target));
        RenderedFileDimensions(descriptor.source, descriptor.coordinates);
        r := Success(Image(target, RenderedDimensions(descriptor.coordinates), None, false));
      } else {
        r := Failure(MissingDeferredConfig(relativePath));
      }
    }
  }

  /** The crop window of a 200×200 image cropped to 100×100. */
  lemma HalfSizeWindow()
    ensures CropWindow(Extent(100.0, 100.0), 200.0, 200.0, Area(0.0, 0.0, 200.0, 200.0), 0.0) == Area(0.0, 0.0, 200.0, 200.0)
  {
  }

  /** The coordinates of a 200×200 image cropped to 100×100: scaled by half, nothing cut away. */
  lemma HalfSizeCoordinates()
    ensures Calculate(ResizeConfiguration(100.0, 100.0, CropMode, 0), DimensionsOf(PlainBox(200, 200)), None) == HalfSize()
  {
    var e := Exact(Extent(100.0, 100.0), 0.0, 0.0, Extent(100.0, 100.0));
    RoundUnique(100.0, 100);
    RoundUnique(0.0, 0);
    assert RoundExact(e) == ResizeCoordinates(Box(100, 100), Point(0, 0), Box(100, 100));
    var config := ResizeConfiguration(100.0, 100.0, CropMode, 0);
    var dimensions := DimensionsOf(PlainBox(200, 200));
    assert ImportantArea(dimensions, None) == Area(0.0, 0.0, 200.0, 200.0);
    assert ZoomFactor(0) == 0.0;
    assert ResolvedSize(config, dimensions, None) == Extent(100.0, 100.0);
    HalfSizeWindow();
    assert ExactCoordinates(config, dimensions, None) == e;
  }

  /** The source path of the scenario below splits into the root, the stem `dummy` and the extension `jpg`. */
  lemma DummyPathParts(rootDir: string)
    requires rootDir != []
    ensures Filename(rootDir + "/dummy.jpg") == "dummy"
    ensures ExtensionOf(rootDir + "/dummy.jpg") == "jpg"
  {
    assert rootDir + "/dummy.jpg" == rootDir + "/" + "dummy" + "." + "jpg";
    PathinfoOfJoin(rootDir, "dummy", "jpg");
  }

  /** The coordinates both scenarios below resize to: a 100×100 image with nothing cut away. */
  function HalfSize(): ResizeCoordinates {
    ResizeCoordinates(Box(100, 100), Point(0, 0), Box(100, 100))
  }

  /** A resizer over a fresh cache at `rootDir` holding only `source`, whose digests are all `digest`. */
  method FreshResizer(rootDir: string, digest: string, source: string) returns (deferredResizer: DeferredResizer)
    requires IsAbsolutePath(rootDir)
    ensures fresh(deferredResizer.resizer.filesystem) && fresh(deferredResizer.resizer.imagine) && fresh(deferredResizer.resizer.imagineSvg)
    ensures deferredResizer.resizer.Valid() && deferredResizer.resizer.cacheDir == rootDir
    ensures forall key :: deferredResizer.resizer.md5(key) == digest
    ensures forall path :: deferredResizer.resizer.filemtime(path) == 0
    ensures deferredResizer.resizer.filesystem.files == map[source := OtherFile]
  {
    var fs := new FileSystem(map[source := OtherFile], {rootDir});
    var raster := new Imagine(RasterBackend);
    var svg := new Imagine(SvgBackend);
    var resizer := new Resizer(rootDir, raster, svg, fs, _ => digest, _ => 0, _ => "100,100,0,0,100,100");
    deferredResizer := new DeferredResizer(resizer);
  }

  /** The cache path of `rootDir/dummy.jpg` for a digest: its shape, and that it is neither the source nor outside `rootDir`. */
  lemma DummyTarget(rootDir: string, digest: string)
    requires IsAbsolutePath(rootDir) && IsDigest(digest)
    ensures var target := DummyTargetPath(rootDir, digest);
      && Dirname(target) == rootDir + "/" + digest[..1]
      && Filename(target) == "dummy" + "-" + digest[1..9]
      && ExtensionOf(target) == "jpg"
      && target != rootDir + "/dummy.jpg"
      && MakeRelative(target, rootDir) == Some(CreateTargetPath(rootDir + "/dummy.jpg", Substr(digest, 0, 9)))
  {
    var source := rootDir + "/dummy.jpg";
    var relative := CreateTargetPath(source, Substr(digest, 0, 9));
    TargetPathShape(rootDir, source, digest);
    DummyPathParts(rootDir);
    var target := rootDir + "/" + relative;
    assert target != source by {
      assert Filename(target) != Filename(source);
    }
    MakeRelativeOfJoin(rootDir, relative);
  }

  /** The cache path once the digest of its hash key is known. */
  lemma DefaultTargetPathOfDigest(r: Resizer, path: string, coordinates: ResizeCoordinates, digest: string)
    requires r.md5(HashKey(path, r.filemtime(path), r.coordinatesString(coordinates))) == digest
    ensures r.DefaultTargetPath(path, coordinates) == r.cacheDir + "/" + CreateTargetPath(path, Substr(digest, 0, 9))
  {
  }

  /** The cache path of `rootDir/dummy.jpg` is not that file itself. */
  lemma DummyTargetIsNotSource(rootDir: string, digest: string)
    requires IsAbsolutePath(rootDir) && IsDigest(digest)
    ensures DummyTargetPath(rootDir, digest) != rootDir + "/dummy.jpg"
  {
    DummyTarget(rootDir, digest);
  }

  /** The cache path of `rootDir/dummy.jpg` when every digest is `digest`. */
  function DummyTargetPath(rootDir: string, digest: string): string {
    rootDir + "/" + CreateTargetPath(rootDir + "/dummy.jpg", Substr(digest, 0, 9))
  }

  /** The Imagine options the scenario passes. */
  function ScenarioOptions(): map<string, OptionValue> {
    map["jpeg_quality" := IntOption(95), "interlace" := StringOption("plane"), "jpeg_sampling_factors" := IntListOption([2, 1, 1])]
  }

  /** Fresh resize options carrying the scenario's Imagine options and nothing else. */
  method ScenarioResizeOptions() returns (options: ResizeOptions)
    ensures fresh(options) && options.Value() == OptionsValue(ScenarioOptions(), None, false, false)
  {
    options := new ResizeOptions();
    var _ := options.SetImagineOptions(ScenarioOptions());
  }

  /**
   * The first phase on a 200×200 JPEG under `rootDir` resized to `HalfSize()`
   * (the coordinates of a 100×100 crop, see `HalfSizeCoordinates`), in a fresh
   * cache holding only that source: a deferred image with the final
   * dimensions at the cache path, and only its descriptor written.
   */
  method DeferScenario(rootDir: string, digest: string) returns (deferredResizer: DeferredResizer, deferred: Image)
    requires IsAbsolutePath(rootDir) && IsDigest(digest)
    ensures fresh(deferredResizer.resizer.filesystem) && deferredResizer.resizer.cacheDir == rootDir
    ensures deferred == Image(DummyTargetPath(rootDir, digest), DimensionsOf(PlainBox(100, 100)), None, true)
    ensures var files := deferredResizer.resizer.filesystem.files;
      && ConfigPath(deferred.path) in files
      && files[ConfigPath(deferred.path)] == ConfigFile(DeferredConfig(rootDir + "/dummy.jpg", 0, HalfSize(), ScenarioOptions()))
    ensures deferred.path !in deferredResizer.resizer.filesystem.files
  {
    var image := Image(rootDir + "/dummy.jpg", DimensionsOf(PlainBox(200, 200)), None, false);
    var options := ScenarioResizeOptions();
    deferredResizer := FreshResizer(rootDir, digest, image.path);
    deferred := deferredResizer.ExecuteResize(image, HalfSize(), options);
    DefaultTargetPathOfDigest(deferredResizer.resizer, image.path, HalfSize(), digest);
    DummyTargetIsNotSource(rootDir, digest);
  }

  /**
   * Both phases. Deferring gives an image with the final dimensions at a cache
   * path of the documented shape, with a descriptor beside it but no file;
   * resolving it by its path relative to `rootDir` writes the file, removes the
   * descriptor and returns the same path and dimensions, not deferred.
   */
  method TwoPhaseScenario(rootDir: string, digest: string)
    returns (deferred: Image, resolved: Result<Image>,
             fileAfterDefer: bool, configAfterDefer: bool, fileAfterResolve: bool, configAfterResolve: bool)
    requires IsAbsolutePath(rootDir) && IsDigest(digest)
    ensures deferred.deferred && deferred.dimensions == DimensionsOf(PlainBox(100, 100))
    ensures Dirname(deferred.path) == rootDir + "/" + digest[..1]
    ensures Filename(deferred.path) == "dummy" + "-" + digest[1..9]
    ensures ExtensionOf(deferred.path) == "jpg"
    ensures !fileAfterDefer && configAfterDefer
    ensures resolved == Success(Image(deferred.path, DimensionsOf(PlainBox(100, 100)), None, false))
    ensures fileAfterResolve && !configAfterResolve
  {
    var deferredResizer;
    deferredResizer, deferred := DeferScenario(rootDir, digest);
    DummyTarget(rootDir, digest);
    var fs := deferredResizer.resizer.filesystem;
    fileAfterDefer := deferred.path in fs.files;
    configAfterDefer := ConfigPath(deferred.path) in fs.files;

    var relativePath := MakeRelative(deferred.path, rootDir);
    assert deferredResizer.TargetOf(relativePath.value) == deferred.path;
    assert deferredResizer.Pending(deferred.path);
    var gd := new Imagine(RasterBackend);
    resolved := deferredResizer.ResizeDeferredImage(relativePath.value, gd);
    fileAfterResolve := deferred.path in fs.files;
    configAfterResolve := ConfigPath(deferred.path) in fs.files;
  }

  /**
   * An explicit target path skips the deferral: the same image resized with
   * `rootDir/target-path.jpg` as its target is written there at once and
   * returned as a finished image.
   */
  method ExplicitTargetScenario(rootDir: string, digest: string) returns (direct: Image, directFile: bool)
    requires IsAbsolutePath(rootDir) && IsDigest(digest)
    ensures direct == Image(rootDir + "/target-path.jpg", DimensionsOf(PlainBox(100, 100)), None, false)
    ensures directFile
  {
    var image := Image(rootDir + "/dummy.jpg", DimensionsOf(PlainBox(200, 200)), None, false);
    var deferredResizer := FreshResizer(rootDir, digest, image.path);
    var fs := deferredResizer.resizer.filesystem;

    var targetOptions := new ResizeOptions();
    assert IsAbsolutePath(rootDir + "/target-path.jpg");
    var accepted := targetOptions.SetTargetPath(Some(rootDir + "/target-path.jpg"));
    assert targetOptions.targetPath == Some(rootDir + "/target-path.jpg");
    direct := deferredResizer.ExecuteResize(image, HalfSize(), targetOptions);
    directFile := direct.path in fs.files;
  }
}

/**
 * `Resizer`: derives a content-addressed cache path for a resized image,
 * creates its directory when missing, picks the SVG or the raster backend by
 * the source's extension, and drives the backend through
 * open, resize, crop and save.
 */
module Resizing {
  import opened Common
  import opened Geometry
  import opened Dimensions
  import opened Calculator
  import opened PhpStrings
  import opened Storage

  /** An image: its path, its dimensions, its important part, and whether its file is still to be produced. */
  datatype Image = Image(path: string, dimensions: ImageDimensions, importantPart: Option<ImportantPart>, deferred: bool)

  predicate IsHexDigit(c: char) {
    '0' <= c <= '9' || 'a' <= c <= 'f'
  }

  /** What `md5` returns: 32 lower-case hexadecimal digits. */
  predicate IsDigest(h: string) {
    |h| == 32 && forall i :: 0 <= i < |h| ==> IsHexDigit(h[i])
  }

  /** The string the digest is taken of: path, modification time and coordinates, joined by `|`. */
  function HashKey(path: string, mtime: int, coordinates: string): string {
    Implode('|', [path, IntToString(mtime), coordinates])
  }

  /** The decimal form of an integer has no `|` in it. */
  lemma IntToStringHasNoBar(n: int)
    ensures '|' !in IntToString(n)
  {
    var s := NatToString(if n < 0 then -n else n);
    assert forall k :: 0 <= k < |s| ==> s[k] != '|';
    if n < 0 {
      assert IntToString(n) == "-" + s;
    }
  }

  /** A key splits back into its three parts when the path and the coordinates hold no `|`. */
  lemma HashKeyParts(path: string, mtime: int, coordinates: string)
    requires '|' !in path && '|' !in coordinates
    ensures Explode('|', HashKey(path, mtime, coordinates)) == [path, IntToString(mtime), coordinates]
  {
    IntToStringHasNoBar(mtime);
    ExplodeImplode('|', [path, IntToString(mtime), coordinates]);
  }

  /** Different sources, modification times or coordinates give different keys. */
  lemma HashKeyInjective(path1: string, mtime1: int, coordinates1: string, path2: string, mtime2: int, coordinates2: string)
    requires '|' !in path1 && '|' !in coordinates1 && '|' !in path2 && '|' !in coordinates2
    requires HashKey(path1, mtime1, coordinates1) == HashKey(path2, mtime2, coordinates2)
    ensures path1 == path2 && mtime1 == mtime2 && coordinates1 == coordinates2
  {
    HashKeyParts(path1, mtime1, coordinates1);
    HashKeyParts(path2, mtime2, coordinates2);
    IntToStringRoundTrip(mtime1);
    IntToStringRoundTrip(mtime2);
  }

  /**
   * `createTargetPath`: the first digit of `hash` as a directory, then the
   * source's file name, a dash, the other eight digits and the source's
   * extension (empty when it has none).
   */
  function CreateTargetPath(path: string, hash: string): string {
    Substr(hash, 0, 1) + "/" + Filename(path) + "-" + SubstrFrom(hash, 1) + "." + Extension(path).GetOr("")
  }

  /** With a nine-digit hash, the relative target path is the first digit, a slash, and the file name with the rest. */
  lemma CreateTargetPathParts(path: string, hash: string)
    requires |hash| == 9
    ensures CreateTargetPath(path, hash) == hash[..1] + "/" + Filename(path) + "-" + hash[1..] + "." + Extension(path).GetOr("")
  {
    assert Substr(hash, 0, 1) == hash[..1];
    var rest := SubstrFrom(hash, 1);
    assert hash == hash[..1] + rest;
    assert rest == hash[1..];
  }

  /** Regrouping the pieces of a target path as directory, slash, stem, dot and extension. */
  lemma RegroupTargetPath(root: string, shard: string, name: string, digits: string, ext: string)
    ensures root + "/" + (shard + "/" + name + "-" + digits + "." + ext)
      == (root + "/" + shard) + "/" + (name + "-" + digits) + "." + ext
  {
  }

  /** The first nine digits of a digest, split after the first, and the last eight hold no slash. */
  lemma DigestPrefix(digest: string)
    requires IsDigest(digest)
    ensures var hash := Substr(digest, 0, 9);
      |hash| == 9 && hash[..1] == digest[..1] && hash[1..] == digest[1..9]
    ensures '/' !in digest[1..9]
  {
    assert Substr(digest, 0, 9) == digest[..9];
    forall i | 0 <= i < 8 ensures digest[1..9][i] != '/' {
      assert IsHexDigit(digest[i + 1]);
    }
  }

  /**
   * The full target path splits back into the cache directory plus the first
   * digest digit, the source's file name with the other eight digits, and the
   * source's extension.
   */
  lemma {:induction false} TargetPathShape(cacheDir: string, path: string, digest: string)
    requires cacheDir != [] && IsDigest(digest)
    ensures var target := cacheDir + "/" + CreateTargetPath(path, Substr(digest, 0, 9));
      && Dirname(target) == cacheDir + "/" + digest[..1]
      && Filename(target) == Filename(path) + "-" + digest[1..9]
      && Extension(target) == Some(Extension(path).GetOr(""))
  {
    var hash := Substr(digest, 0, 9);
    DigestPrefix(digest);
    CreateTargetPathParts(path, hash);
    var ext := Extension(path).GetOr("");
    RegroupTargetPath(cacheDir, digest[..1], Filename(path), digest[1..9], ext);
    NotInJoin(Filename(path), '-', digest[1..9], '/');
    PathinfoOfJoin(cacheDir + "/" + digest[..1], Filename(path) + "-" + digest[1..9], ext);
  }

  /** `pathinfo(..., PATHINFO_EXTENSION)`: the extension, or the empty string without one. */
  function ExtensionOf(path: string): string {
    Extension(path).GetOr("")
  }

  /** The SVG backend handles `svg` and `svgz` files, in any letter case. */
  predicate IsSvgPath(path: string) {
    ToLower(ExtensionOf(path)) == "svg" || ToLower(ExtensionOf(path)) == "svgz"
  }

  /** The backend choice depends on the extension alone, whatever its letter case. */
  lemma {:induction false} SvgChoiceByExtension(dir: string, stem: string, ext: string)
    requires dir != [] && '/' !in stem && '/' !in ext && '.' !in ext
    ensures IsSvgPath(dir + "/" + stem + "." + ext) <==> ToLower(ext) in {"svg", "svgz"}
  {
    PathinfoOfJoin(dir, stem, ext);
  }

  /** The dimensions of an image file the backend wrote: the crop size. */
  function RenderedDimensions(coordinates: ResizeCoordinates): (d: ImageDimensions)
    ensures d.Valid() && d.GetSize().box == coordinates.cropSize
  {
    DimensionsOf(PlainBox(coordinates.cropSize.width, coordinates.cropSize.height))
  }

  /** The edits the backend applies for `coordinates`: resize to the scaled size, then crop. */
  function EditsFor(coordinates: ResizeCoordinates): seq<Edit> {
    [ResizeTo(coordinates.size), CropTo(coordinates.cropStart, coordinates.cropSize)]
  }

  /** The backend calls for one resize, in the order the resizer makes them. */
  function CallsFor(source: string, coordinates: ResizeCoordinates, target: string): seq<Call> {
    [OpenCall(source), ResizeCall(coordinates.size), CropCall(coordinates.cropStart, coordinates.cropSize), SaveCall(target)]
  }

  class Resizer {
    /** The absolute directory of the image cache. */
    const cacheDir: string
    const imagine: Imagine
    const imagineSvg: Imagine
    const filesystem: FileSystem
    /** PHP's `md5`, `filemtime` and the string form of the coordinates, which the model does not compute. */
    const md5: string -> string
    const filemtime: string -> int
    const coordinatesString: ResizeCoordinates -> string

    predicate Valid()
      reads this
    {
      && cacheDir != []
      && imagine != imagineSvg
      && imagine.kind == RasterBackend
      && imagineSvg.kind == SvgBackend
    }

    constructor(cacheDir: string, imagine: Imagine, imagineSvg: Imagine, filesystem: FileSystem,
                md5: string -> string, filemtime: string -> int, coordinatesString: ResizeCoordinates -> string)
      requires cacheDir != [] && imagine != imagineSvg
      requires imagine.kind == RasterBackend && imagineSvg.kind == SvgBackend
      ensures Valid()
      ensures this.cacheDir == cacheDir && this.imagine == imagine && this.imagineSvg == imagineSvg
      ensures this.filesystem == filesystem
      ensures this.md5 == md5 && this.filemtime == filemtime && this.coordinatesString == coordinatesString
    {
      this.cacheDir := cacheDir;
      this.imagine := imagine;
      this.imagineSvg := imagineSvg;
      this.filesystem := filesystem;
      this.md5 := md5;
      this.filemtime := filemtime;
      this.coordinatesString := coordinatesString;
    }

    /** The nine digest digits that name the cached file of `path` resized to `coordinates`. */
    function Hash(path: string, coordinates: ResizeCoordinates): string
      reads this
    {
      Substr(md5(HashKey(path, filemtime(path), coordinatesString(coordinates))), 0, 9)
    }

    /** Where the resized image goes when the caller names no target. */
    function DefaultTargetPath(path: string, coordinates: ResizeCoordinates): string
      reads this
    {
      cacheDir + "/" + CreateTargetPath(path, Hash(path, coordinates))
    }

    /** The backend for a source path. */
    function Backend(path: string): Imagine
      reads this
    {
      if IsSvgPath(path) then imagineSvg else imagine
    }

    /** The backend the resizer does not use for `path`. */
    function OtherBackend(path: string): Imagine
      reads this
    {
      if IsSvgPath(path) then imagine else imagineSvg
    }

    /**
     * What one resize of `source` to `coordinates` at `target` does: the chosen
     * backend gets the four calls in order and holds the edited image, the other
     * backend is untouched, the target file holds the edited image, and the
     * target's directory is created only when nothing was at its path.
     */
    twostate predicate Performed(source: string, coordinates: ResizeCoordinates, target: string)
      reads this, filesystem, imagine, imagineSvg
    {
      var backend := Backend(source);
      var dir := Dirname(target);
      && backend.calls == old(backend.calls) + CallsFor(source, coordinates, target)
      && backend.current == Some(ImageData(source, EditsFor(coordinates)))
      && unchanged(OtherBackend(source))
      && filesystem.files == old(filesystem.files)[target := ImageFile(ImageData(source, EditsFor(coordinates)))]
      && filesystem.dirs == (if old(filesystem.Exists(dir)) then old(filesystem.dirs) else old(filesystem.dirs) + {dir})
      && filesystem.created == (if old(filesystem.Exists(dir)) then old(filesystem.created) else old(filesystem.created) + [dir])
    }

    /** Creates the directory of `target` when nothing is at its path, then runs the backend chain. */
    method Render(source: string, coordinates: ResizeCoordinates, target: string)
      requires Valid()
      modifies filesystem, imagine, imagineSvg
      ensures Performed(source, coordinates, target)
    {
      var dir := Dirname(target);
      if !filesystem.Exists(dir) {
        filesystem.Mkdir(dir);
      }
      if IsSvgPath(source) {
        Run(imagineSvg, source, coordinates, target);
      } else {
        Run(imagine, source, coordinates, target);
      }
    }

    /** Opens, resizes, crops and saves on one backend. */
    method Run(backend: Imagine, source: string, coordinates: ResizeCoordinates, target: string)
      modifies backend, filesystem
      ensures backend.calls == old(backend.calls) + CallsFor(source, coordinates, target)
      ensures backend.current == Some(ImageData(source, EditsFor(coordinates)))
      ensures filesystem.files == old(filesystem.files)[target := ImageFile(ImageData(source, EditsFor(coordinates)))]
      ensures filesystem.dirs == old(filesystem.dirs) && filesystem.created == old(filesystem.created)
    {
      backend.Open(source);
      backend.Resize(coordinates.size);
      backend.Crop(coordinates.cropStart, coordinates.cropSize);
      assert [] + [ResizeTo(coordinates.size)] + [CropTo(coordinates.cropStart, coordinates.cropSize)] == EditsFor(coordinates);
      backend.Save(target, filesystem);
    }

    /**
     * `resize`: computes the coordinates, uses `targetPath` or else the cache
     * path, renders the image there and returns it.
     */
    method Resize(image: Image, config: ResizeConfiguration, targetPath: Option<string>) returns (result: Image)
      requires Valid() && ValidInput(config, image.dimensions, image.importantPart)
      modifies filesystem, imagine, imagineSvg
      ensures var coordinates := Calculate(config, image.dimensions, image.importantPart);
        var target := if targetPath.Some? then targetPath.value else DefaultTargetPath(image.path, coordinates);
        && Performed(image.path, coordinates, target)
        && result == Image(target, RenderedDimensions(coordinates), None, false)
    {
      var coordinates := Calculate(config, image.dimensions, image.importantPart);
      var target := if targetPath.Some? then targetPath.value else DefaultTargetPath(image.path, coordinates);
      Render(image.path, coordinates, target);
      result := Image(target, RenderedDimensions(coordinates), None, false);
    }
  }

  /** Equal sources, modification times and coordinates give equal cache paths, in any resizer with the same settings. */
  lemma SameInputsSamePath(r1: Resizer, r2: Resizer, path: string, coordinates: ResizeCoordinates)
    requires r1.cacheDir == r2.cacheDir && r1.md5 == r2.md5
    requires r1.filemtime(path) == r2.filemtime(path)
    requires r1.coordinatesString(coordinates) == r2.coordinatesString(coordinates)
    ensures r1.DefaultTargetPath(path, coordinates) == r2.DefaultTargetPath(path, coordinates)
  {
  }

  /** Given a well-formed digest, the cache path has the documented shape. */
  lemma DefaultTargetPathShape(r: Resizer, path: string, coordinates: ResizeCoordinates)
    requires r.cacheDir != []
    requires IsDigest(r.md5(HashKey(path, r.filemtime(path), r.coordinatesString(coordinates))))
    ensures var digest := r.md5(HashKey(path, r.filemtime(path), r.coordinatesString(coordinates)));
      var target := r.DefaultTargetPath(path, coordinates);
      && Dirname(target) == r.cacheDir + "/" + digest[..1]
      && Filename(target) == Filename(path) + "-" + digest[1..9]
      && ExtensionOf(target) == ExtensionOf(path)
  {
    var digest := r.md5(HashKey(path, r.filemtime(path), r.coordinatesString(coordinates)));
    TargetPathShape(r.cacheDir, path, digest);
  }
}

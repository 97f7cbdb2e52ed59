/**
 * `ResizeOptions`: a mutable settings object with fluent setters. A target
 * path must be absolute; a relative one is rejected.
 */
module Options {
  import opened Common

  /** A value in the Imagine options array (`jpeg_quality => 95`, `jpeg_sampling_factors => [2, 1, 1]`). */
  datatype OptionValue =
    | IntOption(number: int)
    | StringOption(text: string)
    | IntListOption(numbers: seq<int>)

  /** A snapshot of the four settings, as the resizers read them. */
  datatype OptionsValue = OptionsValue(
    imagineOptions: map<string, OptionValue>,
    targetPath: Option<string>,
    bypassCache: bool,
    forceReEncoding: bool)

  /** An absolute path starts at the root. */
  predicate IsAbsolutePath(path: string) {
    |path| > 0 && path[0] == '/'
  }

  /** What `setTargetPath` accepts: `null` or an absolute path. */
  predicate AcceptableTargetPath(path: Option<string>) {
    path.None? || IsAbsolutePath(path.value)
  }

  class ResizeOptions {
    var imagineOptions: map<string, OptionValue>
    var targetPath: Option<string>
    var bypassCache: bool
    var forceReEncoding: bool

    /** The four settings as one value. */
    function Value(): OptionsValue
      reads this
    {
      OptionsValue(imagineOptions, targetPath, bypassCache, forceReEncoding)
    }

    /** A stored target path is always absolute. */
    predicate Valid()
      reads this
    {
      AcceptableTargetPath(targetPath)
    }

    /** The defaults: no Imagine options, no target path, both flags off. */
    constructor()
      ensures Valid()
      ensures Value() == OptionsValue(map[], None, false, false)
    {
      imagineOptions := map[];
      targetPath := None;
      bypassCache := false;
      forceReEncoding := false;
    }

    function GetImagineOptions(): map<string, OptionValue>
      reads this
    {
      imagineOptions
    }

    function GetTargetPath(): Option<string>
      reads this
    {
      targetPath
    }

    function GetBypassCache(): bool
      reads this
    {
      bypassCache
    }

    function GetForceReEncoding(): bool
      reads this
    {
      forceReEncoding
    }

    /** Replaces the Imagine options and returns the object itself. */
    method SetImagineOptions(options: map<string, OptionValue>) returns (self: ResizeOptions)
      requires Valid()
      modifies this
      ensures self == this && Valid()
      ensures Value() == old(Value()).(imagineOptions := options)
    {
      imagineOptions := options;
      self := this;
    }

    /**
     * Stores `null` or an absolute path and returns the object itself; a
     * relative path is an invalid argument and leaves the object as it was.
     */
    method SetTargetPath(path: Option<string>) returns (r: Result<ResizeOptions>)
      requires Valid()
      modifies this
      ensures Valid()
      ensures r.Success? <==> AcceptableTargetPath(path)
      ensures r.Success? ==> r.value == this && Value() == old(Value()).(targetPath := path)
      ensures r.Failure? ==> r.error.InvalidArgument? && Value() == old(Value())
    {
      if path.Some? && !IsAbsolutePath(path.value) {
        return Failure(InvalidArgument("\"" + path.value + "\" is not an absolute target path"));
      }
      targetPath := path;
      r := Success(this);
    }

    /** Sets the bypass-cache flag and returns the object itself. */
    method SetBypassCache(value: bool) returns (self: ResizeOptions)
      requires Valid()
      modifies this
      ensures self == this && Valid()
      ensures Value() == old(Value()).(bypassCache := value)
    {
      bypassCache := value;
      self := this;
    }

    /** Sets the force-re-encoding flag and returns the object itself. */
    method SetForceReEncoding(value: bool) returns (self: ResizeOptions)
      requires Valid()
      modifies this
      ensures self == this && Valid()
      ensures Value() == old(Value()).(forceReEncoding := value)
    {
      forceReEncoding := value;
      self := this;
    }

    /** PHP `clone`: a new object with the same four settings. */
    method Clone() returns (copy: ResizeOptions)
      requires Valid()
      ensures fresh(copy) && copy.Valid()
      ensures copy.Value() == Value()
    {
      copy := new ResizeOptions();
      copy.imagineOptions := imagineOptions;
      copy.targetPath := targetPath;
      copy.bypassCache := bypassCache;
      copy.forceReEncoding := forceReEncoding;
    }
  }

  /**
   * The target-path scenario: the default is `null`, `/target/path` is stored
   * and read back, `null` clears it, and `invalid/relative/path` is refused.
   */
  method TargetPathScenario() returns (initial: Option<string>, stored: Option<string>, cleared: Option<string>, refused: bool)
    ensures initial == None
    ensures stored == Some("/target/path")
    ensures cleared == None
    ensures refused
  {
    var options := new ResizeOptions();
    initial := options.GetTargetPath();
    var r := options.SetTargetPath(Some("/target/path"));
    assert r == Success(options);
    stored := options.GetTargetPath();
    r := options.SetTargetPath(None);
    cleared := options.GetTargetPath();
    r := options.SetTargetPath(Some("invalid/relative/path"));
    refused := r.Failure?;
  }

  /**
   * The other three settings: the defaults are an empty array and `false`, and
   * each setter returns the object with the new value in place.
   */
  method SettersScenario() returns (defaults: OptionsValue, quality: map<string, OptionValue>, bypass: bool, reEncode: bool, sameObject: bool)
    ensures defaults == OptionsValue(map[], None, false, false)
    ensures quality == map["jpeg_quality" := IntOption(95)]
    ensures bypass && reEncode && sameObject
  {
    var options := new ResizeOptions();
    defaults := options.Value();
    var a := options.SetImagineOptions(map["jpeg_quality" := IntOption(95)]);
    quality := options.GetImagineOptions();
    var b := options.SetBypassCache(true);
    bypass := options.GetBypassCache();
    var c := options.SetForceReEncoding(true);
    reEncode := options.GetForceReEncoding();
    sameObject := a == options && b == options && c == options;
  }
}

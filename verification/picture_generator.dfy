/**
 * `PictureGenerator`: builds the attributes of a `<picture>` element from one
 * image and a picture configuration. Every configuration item becomes a
 * source: a srcset of resized images, one per pixel density, a `src`, and the
 * optional `width`/`height`, `sizes` and `media` attributes.
 */
module PictureGeneration {
  import opened Common
  import opened Geometry
  import opened Dimensions
  import opened Calculator
  import opened PhpStrings
  import opened Options
  import opened Resizing
  import opened Unique

  /** One configuration item: how to resize, the `sizes` and `media` attributes, and the densities string (`"1x, 2x"`, `"200w, 400w"`). */
  datatype PictureConfigurationItem = PictureConfigurationItem(resizeConfig: ResizeConfiguration, sizes: string, densities: string, media: string)

  /** The main item (for the `img` element) and the items of the `source` elements. */
  datatype PictureConfiguration = PictureConfiguration(size: PictureConfigurationItem, sizeItems: seq<PictureConfigurationItem>)

  /** Which descriptor the items of one srcset carry: none, `x` or `w`. */
  datatype DescriptorType = NoDescriptorType | DensityType | WidthType

  /**
   * The descriptor of one srcset item. A pixel-density descriptor is kept as
   * the two widths whose ratio it prints; a width descriptor is its text.
   */
  datatype Descriptor =
    | NoDescriptor
    | DensityDescriptor(width: int, width1x: int)
    | WidthDescriptor(text: string)

  /** One srcset entry: a resized image and its descriptor. */
  datatype SrcsetItem = SrcsetItem(image: Image, descriptor: Descriptor)

  /** The attributes of one source; an absent attribute is `None`. */
  datatype Source = Source(srcset: seq<SrcsetItem>, src: Image, size: Option<Box>, sizes: Option<string>, media: Option<string>)

  /** What `generate` returns: the `img` attributes and those of each `source`, in order. */
  datatype Picture = Picture(img: Source, sources: seq<Source>)

  /** PHP's truthiness of a string: only `""` and `"0"` are false. */
  predicate Truthy(s: string) {
    s != "" && s != "0"
  }

  /** The characters PHP's `trim` strips by default: space, tab, newline, carriage return, NUL and vertical tab. */
  predicate IsTrimmed(c: char) {
    c == ' ' || c == '\t' || c == '\n' || c == '\r' || c as int == 0 || c as int == 11
  }

  /** `r` is `s[i..j]`, and everything of `s` outside `i..j` is a trim character. */
  predicate StripsEnds(s: string, r: string, i: int, j: int) {
    && 0 <= i <= j <= |s| && r == s[i..j]
    && (forall k :: 0 <= k < i ==> IsTrimmed(s[k]))
    && (forall k :: j <= k < |s| ==> IsTrimmed(s[k]))
  }

  /** PHP `trim`: strips those characters from both ends. */
  function Trim(s: string): (r: string)
    ensures |r| <= |s|
    decreases |s|
  {
    if |s| == 0 then s
    else if IsTrimmed(s[0]) then Trim(s[1..])
    else if IsTrimmed(s[|s| - 1]) then Trim(s[..|s| - 1])
    else s
  }

  /**
   * `Trim` strips trim characters from the ends and only from the ends: the
   * result is a slice of the input, what remains starts and ends with another
   * character, and a string holding any other character stays non-empty.
   */
  lemma TrimStripsEnds(s: string)
    ensures exists i, j :: StripsEnds(s, Trim(s), i, j)
    ensures var r := Trim(s); |r| > 0 ==> !IsTrimmed(r[0]) && !IsTrimmed(r[|r| - 1])
    ensures forall k :: 0 <= k < |s| && !IsTrimmed(s[k]) ==> |Trim(s)| > 0
  {
    TrimIsSlice(s);
    TrimKeepsInnerEnds(s);
    var i, j :| StripsEnds(s, Trim(s), i, j);
    forall k | 0 <= k < |s| && !IsTrimmed(s[k]) ensures |Trim(s)| > 0 {
      assert i <= k < j;
    }
  }

  /** What `Trim` returns is the input with trim characters cut from its two ends. */
  lemma {:induction false} TrimIsSlice(s: string)
    ensures exists i, j :: StripsEnds(s, Trim(s), i, j)
    decreases |s|
  {
    if |s| == 0 {
      assert Trim(s) == s;
      assert StripsEnds(s, s, 0, 0);
    } else if IsTrimmed(s[0]) {
      var t := s[1..];
      assert Trim(s) == Trim(t);
      TrimIsSlice(t);
      var i, j :| StripsEnds(t, Trim(t), i, j);
      assert t[i..j] == s[i + 1..j + 1];
      assert forall k :: 1 <= k < i + 1 ==> s[k] == t[k - 1];
      assert StripsEnds(s, Trim(s), i + 1, j + 1);
    } else if IsTrimmed(s[|s| - 1]) {
      var t := s[..|s| - 1];
      assert Trim(s) == Trim(t);
      TrimIsSlice(t);
      var i, j :| StripsEnds(t, Trim(t), i, j);
      assert StripsEnds(s, Trim(s), i, j);
    } else {
      assert Trim(s) == s;
      assert StripsEnds(s, s, 0, |s|);
    }
  }

  /** What `Trim` leaves neither starts nor ends with a trim character. */
  lemma {:induction false} TrimKeepsInnerEnds(s: string)
    ensures var r := Trim(s); |r| > 0 ==> !IsTrimmed(r[0]) && !IsTrimmed(r[|r| - 1])
    decreases |s|
  {
    if |s| == 0 {
    } else if IsTrimmed(s[0]) {
      TrimKeepsInnerEnds(s[1..]);
    } else if IsTrimmed(s[|s| - 1]) {
      TrimKeepsInnerEnds(s[..|s| - 1]);
    }
  }

  /** `substr($s, -1)`: the last character, when there is one. */
  function LastChar(s: string): Option<char> {
    if |s| == 0 then None else Some(s[|s| - 1])
  }

  /** PHP `array_filter` on numbers: drops the zeros. */
  function NonZero(ds: seq<real>): (r: seq<real>)
    ensures forall d :: d in r <==> d in ds && d != 0.0
  {
    if |ds| == 0 then []
    else
      var rest := NonZero(ds[1..]);
      assert forall d :: d in ds <==> d == ds[0] || d in ds[1..];
      if ds[0] == 0.0 then rest else [ds[0]] + rest
  }

  /**
   * `array_filter` decides element by element: the empty list stays empty, a
   * single value is kept unless it is zero, and the filter of a concatenation
   * is the concatenation of the filters, so order and repeats are kept.
   */
  lemma {:induction false} NonZeroFilters(a: seq<real>, b: seq<real>, d: real)
    ensures NonZero([]) == []
    ensures NonZero([d]) == if d == 0.0 then [] else [d]
    ensures NonZero(a + b) == NonZero(a) + NonZero(b)
    decreases |a|
  {
    assert [d][1..] == [];
    if |a| == 0 {
      assert a + b == b;
    } else {
      assert (a + b)[1..] == a[1..] + b;
      NonZeroFilters(a[1..], b, d);
    }
  }

  /** Values the filter keeps in one order first occur in that order in its input. */
  lemma {:induction false} NonZeroKeepsOrder(ds: seq<real>, x: real, y: real)
    requires x in NonZero(ds) && y in NonZero(ds)
    requires FirstIndex(NonZero(ds), x) < FirstIndex(NonZero(ds), y)
    ensures x in ds && y in ds && FirstIndex(ds, x) < FirstIndex(ds, y)
    decreases |ds|
  {
    var rest := NonZero(ds[1..]);
    if ds[0] == 0.0 {
      NonZeroKeepsOrder(ds[1..], x, y);
    } else {
      var nz := NonZero(ds);
      assert nz[0] == ds[0] && nz[1..] == rest;
      if x != ds[0] {
        NonZeroKeepsOrder(ds[1..], x, y);
      }
    }
  }

  /** The key `array_unique` compares densities by: the density itself. */
  function DensityKey(d: real): real {
    d
  }

  /** The key the srcset filter compares items by: the path of the image. */
  function PathOf(item: SrcsetItem): string {
    item.image.path
  }

  /** The width of the image the backend produced. */
  function WidthOf(image: Image): int {
    image.dimensions.GetSize().box.width
  }

  /** A `w` descriptor: the width followed by `w`. */
  function WidthText(width: int): (text: string)
    ensures |text| > 0 && text[|text| - 1] == 'w'
  {
    IntToString(width) + "w"
  }

  /** A `w` descriptor reads back as the width it was written from. */
  lemma WidthTextRoundTrip(width: int)
    ensures ParseInt(WidthText(width)[..|WidthText(width)| - 1]) == width
  {
    assert WidthText(width)[..|WidthText(width)| - 1] == IntToString(width);
    IntToStringRoundTrip(width);
  }

  /** Whether the densities string is used at all: it is set and the resize configuration has a width or a height. */
  predicate UsesDensities(item: PictureConfigurationItem) {
    Truthy(item.densities) && (item.resizeConfig.width != 0.0 || item.resizeConfig.height != 0.0)
  }

  /** The `sizes` attribute: the item's own, or `100vw` when it has none and width descriptors are asked for. */
  function SizesAttribute(item: PictureConfigurationItem): string {
    if UsesDensities(item) && !Truthy(item.sizes) && 'w' in item.densities then "100vw" else item.sizes
  }

  /** With more than one density, `w` descriptors when there is a `sizes` attribute and `x` descriptors otherwise. */
  function DescriptorTypeFor(densities: seq<real>, sizes: string): DescriptorType {
    if |densities| > 1 then (if Truthy(sizes) then WidthType else DensityType) else NoDescriptorType
  }

  /** The configuration for one density: both requested sides scaled by it and rounded. */
  function ScaledConfig(config: ResizeConfiguration, density: real): ResizeConfiguration {
    config.(width := Round(config.width * density) as real, height := Round(config.height * density) as real)
  }

  /** The `width`/`height` attributes: the size of `src`, unless its dimensions are relative or undefined. */
  function SizeAttribute(src: Image): Option<Box> {
    if !src.dimensions.IsRelative() && !src.dimensions.IsUndefined() then Some(src.dimensions.GetSize().box) else None
  }

  /** A string attribute is written only when it is truthy. */
  function OptionalAttribute(value: string): Option<string> {
    if Truthy(value) then Some(value) else None
  }

  /** The attributes of a source with the given srcset: `src` is its first image. */
  function Attributes(srcset: seq<SrcsetItem>, sizes: string, media: string): Source
    requires |srcset| > 0
  {
    Source(srcset, srcset[0].image, SizeAttribute(srcset[0].image), OptionalAttribute(sizes), OptionalAttribute(media))
  }

  class PictureGenerator {
    /**
     * The resizer: the image the resizer returns for an image, a resize
     * configuration and the options it is given.
     */
    const resizer: (Image, ResizeConfiguration, OptionsValue) -> Image
    /** PHP's `(int)` cast of a string. */
    const toInt: string -> int
    /** PHP's `(float)` cast of a string. */
    const toFloat: string -> real
    /** The options of the current `generate` call: a copy of the caller's without a target path. */
    var resizeOptions: ResizeOptions?

    constructor(resizer: (Image, ResizeConfiguration, OptionsValue) -> Image, toInt: string -> int, toFloat: string -> real)
      ensures this.resizer == resizer && this.toInt == toInt && this.toFloat == toFloat
      ensures resizeOptions == null
    {
      this.resizer := resizer;
      this.toInt := toInt;
      this.toFloat := toFloat;
      resizeOptions := null;
    }

    /**
     * The scaling factor one entry of the densities string stands for: a width
     * (`400w`) divided by the 1x width, or a factor (`2x`, read as a float).
     * Dividing by a 1x width of zero yields PHP's `false`, read here as zero.
     */
    function DensityOf(entry: string, width1x: int): real {
      if LastChar(Trim(entry)) == Some('w') then
        if width1x == 0 then 0.0 else toInt(entry) as real / width1x as real
      else
        toFloat(entry)
    }

    /** The densities the entries of a densities string stand for, in order. */
    function EntryDensities(densities: string, width1x: int): (r: seq<real>) {
      var entries := Explode(',', densities);
      seq(|entries|, i requires 0 <= i < |entries| => DensityOf(entries[i], width1x))
    }

    /** `parseDensities`: 1 first, then every non-zero density of the list, each value once. */
    function ParseDensities(densities: string, width1x: int): (r: seq<real>)
      ensures |r| > 0
    {
      KeepFirst([1.0] + NonZero(EntryDensities(densities, width1x)), DensityKey)
    }

    /** The densities of an item: only 1 unless the densities string is used. */
    function Densities(item: PictureConfigurationItem, width1x: int): seq<real> {
      if UsesDensities(item) then ParseDensities(item.densities, width1x) else [1.0]
    }

    /** The width of the image resized with the item's own configuration. */
    function Width1x(image: Image, item: PictureConfigurationItem, options: OptionsValue): int {
      WidthOf(resizer(image, item.resizeConfig, options))
    }

    /** `generateSrcsetItem`: the image resized for one density, with the descriptor of the given type. */
    function SrcsetItemFor(image: Image, item: PictureConfigurationItem, density: real, descriptorType: DescriptorType, width1x: int, options: OptionsValue): SrcsetItem {
      var resized := resizer(image, ScaledConfig(item.resizeConfig, density), options);
      SrcsetItem(resized,
        match descriptorType
        case NoDescriptorType => NoDescriptor
        case DensityType => DensityDescriptor(WidthOf(resized), width1x)
        case WidthType => WidthDescriptor(WidthText(WidthOf(resized))))
    }

    /** The srcset items of all densities, in order and before duplicates are removed. */
    function SrcsetItems(image: Image, item: PictureConfigurationItem, densities: seq<real>, descriptorType: DescriptorType, width1x: int, options: OptionsValue): seq<SrcsetItem> {
      seq(|densities|, i requires 0 <= i < |densities| => SrcsetItemFor(image, item, densities[i], descriptorType, width1x, options))
    }

    /** The srcset of one configuration item: an item per density, each path once. */
    function SrcsetOf(image: Image, item: PictureConfigurationItem, options: OptionsValue): (srcset: seq<SrcsetItem>)
      ensures |srcset| > 0
    {
      var width1x := Width1x(image, item, options);
      var densities := Densities(item, width1x);
      KeepFirst(SrcsetItems(image, item, densities, DescriptorTypeFor(densities, SizesAttribute(item)), width1x, options), PathOf)
    }

    /** The source of one configuration item, as `generateSource` builds it. */
    function SourceOf(image: Image, item: PictureConfigurationItem, options: OptionsValue): Source {
      Attributes(SrcsetOf(image, item, options), SizesAttribute(item), item.media)
    }

    /** The picture of a configuration: the main item's source and one source per size item. */
    function PictureOf(image: Image, config: PictureConfiguration, options: OptionsValue): Picture {
      Picture(SourceOf(image, config.size, options),
        seq(|config.sizeItems|, i requires 0 <= i < |config.sizeItems| => SourceOf(image, config.sizeItems[i], options)))
    }

    /**
     * `generate`: works on a copy of the caller's options with the target path
     * cleared, leaves the caller's options as they were, and builds one source
     * per size item, in order, and the main source from the main item.
     */
    method Generate(image: Image, config: PictureConfiguration, options: ResizeOptions) returns (picture: Picture)
      requires options.Valid()
      modifies this
      ensures fresh(resizeOptions)
      ensures resizeOptions.Value() == old(options.Value()).(targetPath := None)
      ensures options.Value() == old(options.Value())
      ensures picture == PictureOf(image, config, resizeOptions.Value())
    {
      var copy := options.Clone();
      var _ := copy.SetTargetPath(None);
      resizeOptions := copy;
      var copied := copy.Value();
      var sources: seq<Source> := [];
      for i := 0 to |config.sizeItems|
        invariant resizeOptions == copy && copy.Value() == copied
        invariant |sources| == i
        invariant forall k :: 0 <= k < i ==> sources[k] == SourceOf(image, config.sizeItems[k], copied)
      {
        var source := GenerateSource(image, config.sizeItems[i]);
        sources := sources + [source];
      }
      var main := GenerateSource(image, config.size);
      picture := Picture(main, sources);
      assert picture == PictureOf(image, config, copied);
    }

    /** `generateSource`: the srcset over the densities, duplicates removed, and the attributes. */
    method GenerateSource(image: Image, item: PictureConfigurationItem) returns (source: Source)
      requires resizeOptions != null
      ensures source == SourceOf(image, item, resizeOptions.Value())
    {
      var options := resizeOptions.Value();
      var densities := [1.0];
      var sizesAttribute := item.sizes;
      var width1x := Width1x(image, item, options);
      if Truthy(item.densities) && (item.resizeConfig.width != 0.0 || item.resizeConfig.height != 0.0) {
        if !Truthy(sizesAttribute) && 'w' in item.densities {
          sizesAttribute := "100vw";
        }
        densities := ParseDensities(item.densities, width1x);
      }
      assert densities == Densities(item, width1x) && sizesAttribute == SizesAttribute(item);
      var descriptorType := DescriptorTypeFor(densities, sizesAttribute);
      var srcset := GenerateSrcsetItems(image, item, densities, descriptorType, width1x, options);
      srcset := RemoveDuplicateSrcsetItems(srcset);
      source := Attributes(srcset, sizesAttribute, item.media);
    }

    /** The loop of `generateSource` over the densities: one srcset item per density, in order. */
    method GenerateSrcsetItems(image: Image, item: PictureConfigurationItem, densities: seq<real>, descriptorType: DescriptorType, width1x: int, options: OptionsValue)
      returns (srcset: seq<SrcsetItem>)
      ensures srcset == SrcsetItems(image, item, densities, descriptorType, width1x, options)
    {
      srcset := [];
      for i := 0 to |densities|
        invariant |srcset| == i
        invariant forall k :: 0 <= k < i ==> srcset[k] == SrcsetItemFor(image, item, densities[k], descriptorType, width1x, options)
      {
        srcset := srcset + [SrcsetItemFor(image, item, densities[i], descriptorType, width1x, options)];
      }
    }

    /** `removeDuplicateScrsetItems`: keeps the first item of each path, remembering the paths already used. */
    method RemoveDuplicateSrcsetItems(srcset: seq<SrcsetItem>) returns (result: seq<SrcsetItem>)
      ensures result == KeepFirst(srcset, PathOf)
    {
      var usedPaths: set<string> := {};
      result := [];
      for i := 0 to |srcset|
        invariant result == KeepFirst(srcset[..i], PathOf)
        invariant usedPaths == Keys(srcset[..i], PathOf)
      {
        var key := srcset[i].image.path;
        assert srcset[..i + 1][..i] == srcset[..i];
        assert Keys(srcset[..i + 1], PathOf) == usedPaths + {key} by {
          var next := srcset[..i + 1];
          forall p | p in Keys(next, PathOf)
            ensures p in usedPaths + {key}
          {
            var j :| 0 <= j < |next| && PathOf(next[j]) == p;
            if j < i {
              assert next[j] == srcset[..i][j];
            }
          }
          forall p | p in usedPaths
            ensures p in Keys(next, PathOf)
          {
            var j :| 0 <= j < i && PathOf(srcset[..i][j]) == p;
            assert next[j] == srcset[..i][j];
          }
          assert PathOf(next[i]) == key;
        }
        if key !in usedPaths {
          usedPaths := usedPaths + {key};
          result := result + [srcset[i]];
        }
      }
      assert srcset[..|srcset|] == srcset;
    }
  }

  /**
   * The parsed densities start with 1, hold no zero and no value twice, and
   * are exactly 1 and the non-zero densities of the entries; after the 1,
   * they come in the order in which they first occur among the entries.
   */
  lemma ParseDensitiesShape(g: PictureGenerator, densities: string, width1x: int)
    ensures var r := g.ParseDensities(densities, width1x);
      && r[0] == 1.0
      && (forall k :: 0 <= k < |r| ==> r[k] != 0.0)
      && (forall a, b :: 0 <= a < b < |r| ==> r[a] != r[b])
      && (forall d :: d in r <==> d == 1.0 || (d in g.EntryDensities(densities, width1x) && d != 0.0))
    ensures var r := g.ParseDensities(densities, width1x);
      var entries := g.EntryDensities(densities, width1x);
      forall a, b :: 0 < a < b < |r| ==>
        r[a] in entries && r[b] in entries && FirstIndex(entries, r[a]) < FirstIndex(entries, r[b])
  {
    ParseDensitiesMembers(g, densities, width1x);
    ParseDensitiesOrder(g, densities, width1x);
  }

  /** The values of the parsed densities: see `ParseDensitiesShape`. */
  lemma ParseDensitiesMembers(g: PictureGenerator, densities: string, width1x: int)
    ensures var r := g.ParseDensities(densities, width1x);
      && r[0] == 1.0
      && (forall k :: 0 <= k < |r| ==> r[k] != 0.0)
      && (forall a, b :: 0 <= a < b < |r| ==> r[a] != r[b])
      && (forall d :: d in r <==> d == 1.0 || (d in g.EntryDensities(densities, width1x) && d != 0.0))
  {
    var all := [1.0] + NonZero(g.EntryDensities(densities, width1x));
    var r := KeepFirst(all, DensityKey);
    KeepFirstHead(all, DensityKey);
    KeepFirstDistinct(all, DensityKey);
    KeepFirstKeys(all, DensityKey);
    assert forall d :: d in r <==> d in Keys(r, DensityKey) by {
      forall d | d in Keys(r, DensityKey)
        ensures d in r
      {
        var i :| 0 <= i < |r| && DensityKey(r[i]) == d;
      }
    }
    assert forall d :: d in all <==> d in Keys(all, DensityKey) by {
      forall d | d in Keys(all, DensityKey)
        ensures d in all
      {
        var i :| 0 <= i < |all| && DensityKey(all[i]) == d;
      }
    }
    assert forall d :: d in all <==> d == 1.0 || d in NonZero(g.EntryDensities(densities, width1x));
    forall k | 0 <= k < |r|
      ensures r[k] != 0.0
    {
      assert r[k] in r;
    }
  }

  /** The order of the parsed densities: see `ParseDensitiesShape`. */
  lemma ParseDensitiesOrder(g: PictureGenerator, densities: string, width1x: int)
    ensures var r := g.ParseDensities(densities, width1x);
      var entries := g.EntryDensities(densities, width1x);
      forall a, b :: 0 < a < b < |r| ==>
        r[a] in entries && r[b] in entries && FirstIndex(entries, r[a]) < FirstIndex(entries, r[b])
  {
    var entries := g.EntryDensities(densities, width1x);
    var nz := NonZero(entries);
    var all := [1.0] + nz;
    var r := KeepFirst(all, DensityKey);
    ParseDensitiesMembers(g, densities, width1x);
    KeepFirstSelects(all, DensityKey);
    var idx := KeptIndices(all, DensityKey);
    assert all[1..] == nz;
    forall a, b | 0 < a < b < |r|
      ensures r[a] in entries && r[b] in entries && FirstIndex(entries, r[a]) < FirstIndex(entries, r[b])
    {
      assert FirstOfKey(all, DensityKey, idx[a]) && FirstOfKey(all, DensityKey, idx[b]);
      FirstIndexOfFirst(all, idx[a]);
      FirstIndexOfFirst(all, idx[b]);
      assert r[a] != r[0] && r[b] != r[0];
      assert r[a] in nz && r[b] in nz;
      NonZeroKeepsOrder(entries, r[a], r[b]);
    }
  }

  /**
   * Densities other than 1 appear only when the densities string is used;
   * the first density is always 1.
   */
  lemma DensitiesGate(g: PictureGenerator, item: PictureConfigurationItem, width1x: int)
    ensures g.Densities(item, width1x)[0] == 1.0
    ensures !UsesDensities(item) ==> g.Densities(item, width1x) == [1.0]
    ensures |g.Densities(item, width1x)| > 1 ==> Truthy(item.densities) && (item.resizeConfig.width != 0.0 || item.resizeConfig.height != 0.0)
  {
    ParseDensitiesShape(g, item.densities, width1x);
  }

  /**
   * `src` is the image resized for density 1, i.e. with the item's own
   * configuration rounded, and it is the first srcset entry.
   */
  lemma SourceSrc(g: PictureGenerator, image: Image, item: PictureConfigurationItem, options: OptionsValue)
    ensures var source := g.SourceOf(image, item, options);
      && source.src == source.srcset[0].image
      && source.src == g.resizer(image, ScaledConfig(item.resizeConfig, 1.0), options)
  {
    var width1x := g.Width1x(image, item, options);
    var densities := g.Densities(item, width1x);
    DensitiesGate(g, item, width1x);
    var items := g.SrcsetItems(image, item, densities, DescriptorTypeFor(densities, SizesAttribute(item)), width1x, options);
    KeepFirstHead(items, PathOf);
  }

  /**
   * The srcset is duplicate-free: no two entries share a path, and every path
   * produced for some density is still there.
   */
  lemma SourceSrcsetPaths(g: PictureGenerator, image: Image, item: PictureConfigurationItem, options: OptionsValue)
    ensures var source := g.SourceOf(image, item, options);
      forall a, b :: 0 <= a < b < |source.srcset| ==> source.srcset[a].image.path != source.srcset[b].image.path
    ensures var width1x := g.Width1x(image, item, options);
      var densities := g.Densities(item, width1x);
      var items := g.SrcsetItems(image, item, densities, DescriptorTypeFor(densities, SizesAttribute(item)), width1x, options);
      Keys(g.SourceOf(image, item, options).srcset, PathOf) == Keys(items, PathOf)
  {
    var width1x := g.Width1x(image, item, options);
    var densities := g.Densities(item, width1x);
    var items := g.SrcsetItems(image, item, densities, DescriptorTypeFor(densities, SizesAttribute(item)), width1x, options);
    KeepFirstDistinct(items, PathOf);
    KeepFirstKeys(items, PathOf);
  }

  /**
   * The descriptors: none with a single density; with several, the width
   * followed by `w` when the source has a `sizes` attribute and the width
   * ratio to the 1x width otherwise.
   */
  lemma SourceDescriptors(g: PictureGenerator, image: Image, item: PictureConfigurationItem, options: OptionsValue)
    ensures var source := g.SourceOf(image, item, options);
      var width1x := g.Width1x(image, item, options);
      var densities := g.Densities(item, width1x);
      forall k :: 0 <= k < |source.srcset| ==>
        var entry := source.srcset[k];
        && (|densities| <= 1 ==> entry.descriptor == NoDescriptor)
        && (|densities| > 1 && source.sizes.Some? ==> entry.descriptor == WidthDescriptor(WidthText(WidthOf(entry.image))))
        && (|densities| > 1 && source.sizes.None? ==> entry.descriptor == DensityDescriptor(WidthOf(entry.image), width1x))
  {
    var width1x := g.Width1x(image, item, options);
    var densities := g.Densities(item, width1x);
    var items := g.SrcsetItems(image, item, densities, DescriptorTypeFor(densities, SizesAttribute(item)), width1x, options);
    KeepFirstSelects(items, PathOf);
    var kept := KeptIndices(items, PathOf);
    forall k | 0 <= k < |kept|
      ensures 0 <= kept[k] < |items|
    {
      assert FirstOfKey(items, PathOf, kept[k]);
    }
  }

  /**
   * The remaining attributes: `width`/`height` are the size of `src` exactly
   * when its dimensions are neither relative nor undefined; `sizes` is the
   * item's own when set, `100vw` when it is not and the densities string is
   * used and mentions `w`, and absent otherwise; `media` is there only when set.
   */
  lemma SourceAttributes(g: PictureGenerator, image: Image, item: PictureConfigurationItem, options: OptionsValue)
    ensures var source := g.SourceOf(image, item, options);
      && (source.size.Some? <==> !source.src.dimensions.IsRelative() && !source.src.dimensions.IsUndefined())
      && (source.size.Some? ==> source.size.value == source.src.dimensions.GetSize().box)
    ensures var source := g.SourceOf(image, item, options);
      && (Truthy(item.sizes) ==> source.sizes == Some(item.sizes))
      && (!Truthy(item.sizes) && UsesDensities(item) && 'w' in item.densities ==> source.sizes == Some("100vw"))
      && (!Truthy(item.sizes) && !(UsesDensities(item) && 'w' in item.densities) ==> source.sizes == None)
    ensures var source := g.SourceOf(image, item, options);
      && (source.media.Some? <==> Truthy(item.media))
      && (source.media.Some? ==> source.media.value == item.media)
  {
  }
}

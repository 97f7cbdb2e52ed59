/**
 * The two effectful collaborators of the resizers: the filesystem (Symfony's
 * `Filesystem`: `exists`, `mkdir`, `dumpFile`, `remove`) and an Imagine
 * backend (`open`, `resize`, `crop`, `save`). Pixels are not modelled: an
 * image file records its source and the edits applied to it.
 */
module Storage {
  import opened Common
  import opened Geometry
  import opened PhpStrings
  import opened Options

  /** One edit of the Imagine pipeline. */
  datatype Edit = ResizeTo(size: Box) | CropTo(start: Point, size: Box)

  /** An image as a backend holds it: where it was opened from and what was done to it since. */
  datatype ImageData = ImageData(source: string, edits: seq<Edit>)

  /** The size an image file has after its edits: the size of the last one, when there is one. */
  function RecordedSize(data: ImageData): Option<Box> {
    if |data.edits| == 0 then None
    else match data.edits[|data.edits| - 1]
      case ResizeTo(size) => Some(size)
      case CropTo(_, size) => Some(size)
  }

  /** What the deferred resizer records for a target it has not produced yet. */
  datatype DeferredConfig = DeferredConfig(source: string, mtime: int, coordinates: ResizeCoordinates, imagineOptions: map<string, OptionValue>)

  /** The content of a file, as far as the model distinguishes it. */
  datatype FileContent =
    | ImageFile(data: ImageData)
    | ConfigFile(config: DeferredConfig)
    | OtherFile

  class FileSystem {
    var files: map<string, FileContent>
    var dirs: set<string>
    /** Every directory `mkdir` was asked to create, in order. */
    var created: seq<string>

    constructor(files: map<string, FileContent>, dirs: set<string>)
      ensures this.files == files && this.dirs == dirs && created == []
    {
      this.files := files;
      this.dirs := dirs;
      created := [];
    }

    /** `exists`: a file or a directory is at `path`. */
    predicate Exists(path: string)
      reads this
    {
      path in files || path in dirs
    }

    /** `mkdir`: the directory exists afterwards. */
    method Mkdir(path: string)
      modifies this
      ensures dirs == old(dirs) + {path}
      ensures files == old(files)
      ensures created == old(created) + [path]
    {
      dirs := dirs + {path};
      created := created + [path];
    }

    /** `dumpFile`: writes `content` to `path`, creating its directory when needed. */
    method DumpFile(path: string, content: FileContent)
      modifies this
      ensures files == old(files)[path := content]
      ensures dirs == old(dirs) + {Dirname(path)}
      ensures created == old(created)
    {
      files := files[path := content];
      dirs := dirs + {Dirname(path)};
    }

    /** `remove`: the file is gone afterwards. */
    method Remove(path: string)
      modifies this
      ensures files == old(files) - {path}
      ensures dirs == old(dirs)
      ensures created == old(created)
    {
      files := files - {path};
    }
  }

  /** The two kinds of Imagine instance the resizer holds. */
  datatype BackendKind = RasterBackend | SvgBackend

  /** A call made on a backend, in the order it was made. */
  datatype Call =
    | OpenCall(path: string)
    | ResizeCall(size: Box)
    | CropCall(start: Point, size: Box)
    | SaveCall(path: string)

  /** An Imagine instance together with the image it currently holds. */
  class Imagine {
    const kind: BackendKind
    var calls: seq<Call>
    var current: Option<ImageData>

    constructor(kind: BackendKind)
      ensures this.kind == kind && calls == [] && current == None
    {
      this.kind := kind;
      calls := [];
      current := None;
    }

    /** `open`: loads the image at `path`. */
    method Open(path: string)
      modifies this
      ensures calls == old(calls) + [OpenCall(path)]
      ensures current == Some(ImageData(path, []))
    {
      calls := calls + [OpenCall(path)];
      current := Some(ImageData(path, []));
    }

    /** `resize`: scales the loaded image to `size`. */
    method Resize(size: Box)
      requires current.Some?
      modifies this
      ensures calls == old(calls) + [ResizeCall(size)]
      ensures current == Some(old(current.value).(edits := old(current.value.edits) + [ResizeTo(size)]))
    {
      calls := calls + [ResizeCall(size)];
      current := Some(current.value.(edits := current.value.edits + [ResizeTo(size)]));
    }

    /** `crop`: keeps the `size` rectangle starting at `start`. */
    method Crop(start: Point, size: Box)
      requires current.Some?
      modifies this
      ensures calls == old(calls) + [CropCall(start, size)]
      ensures current == Some(old(current.value).(edits := old(current.value.edits) + [CropTo(start, size)]))
    {
      calls := calls + [CropCall(start, size)];
      current := Some(current.value.(edits := current.value.edits + [CropTo(start, size)]));
    }

    /** `save`: writes the loaded image to `path`. */
    method Save(path: string, fs: FileSystem)
      requires current.Some?
      modifies this, fs
      ensures calls == old(calls) + [SaveCall(path)]
      ensures current == old(current)
      ensures fs.files == old(fs.files)[path := ImageFile(old(current.value))]
      ensures fs.dirs == old(fs.dirs) && fs.created == old(fs.created)
    {
      calls := calls + [SaveCall(path)];
      fs.files := fs.files[path := ImageFile(current.value)];
    }
  }
}

/** The part of the local file system the downloader and the image tool
    touch: regular files with their bytes and times, and directories. Failures
    of the operating system are scripted by `IoFaults`. */
module Fs {
  import opened Wrappers

  /** `filetime::FileTime`: seconds since the Unix epoch and nanoseconds. */
  datatype FileTime = FileTime(seconds: int, nanos: nat)

  /** A `PathBuf` built from a base string by `push`ing components. */
  datatype Path = Path(root: string, parts: seq<string>)

  function Push(p: Path, name: string): (q: Path)
    ensures q.root == p.root && q.parts == p.parts + [name]
  {
    Path(p.root, p.parts + [name])
  }

  /** `Path::parent` of a pushed path: the path without its last component.
      The base string itself is treated as opaque and has no parent here. */
  function Parent(p: Path): (q: Option<Path>)
    ensures q.Some? <==> p.parts != []
    ensures q.Some? ==> Push(q.value, p.parts[|p.parts| - 1]) == p
  {
    if p.parts == [] then None else Some(Path(p.root, p.parts[..|p.parts| - 1]))
  }

  /** The directory and every directory above it, down to the base. */
  function Ancestors(dir: Path): (s: set<Path>)
    ensures dir in s
  {
    assert dir.parts[..|dir.parts|] == dir.parts;
    set k | 0 <= k <= |dir.parts| :: Path(dir.root, dir.parts[..k])
  }

  /** A file's parent directory is missing and has to be created first. */
  predicate NeedsDir(dirs: set<Path>, path: Path) {
    Parent(path).Some? && Parent(path).value !in dirs
  }

  /** The directories after "create the parent unless it exists", given
      whether `create_dir_all` fails. */
  function DirsAfter(dirs: set<Path>, path: Path, faults: IoFaults): set<Path> {
    if NeedsDir(dirs, path) && !faults.createDir then dirs + Ancestors(Parent(path).value) else dirs
  }

  datatype FileEntry = FileEntry(bytes: seq<bv8>, atime: FileTime, mtime: FileTime)

  /** Which operating-system calls fail in one run of an operation. */
  datatype IoFaults = IoFaults(
    createDir: bool,   // create_dir_all
    metadata: bool,    // fs::metadata fails with a kind other than NotFound
    createFile: bool,  // File::create
    write: bool,       // write_all
    setTimes: bool)    // filetime::set_file_times

  const NoFaults := IoFaults(false, false, false, false, false)

  class FileSystem {
    var files: map<Path, FileEntry>
    var dirs: set<Path>

    constructor (files: map<Path, FileEntry>, dirs: set<Path>)
      ensures this.files == files && this.dirs == dirs
    {
      this.files := files;
      this.dirs := dirs;
    }

    /** `fs::create_dir_all`: the directory and all its ancestors exist afterwards,
        unless the call fails, in which case nothing changes. */
    method CreateDirAll(dir: Path, fails: bool) returns (ok: bool)
      modifies this
      ensures ok == !fails
      ensures dirs == if ok then old(dirs) + Ancestors(dir) else old(dirs)
      ensures files == old(files)
    {
      ok := !fails;
      if ok {
        dirs := dirs + Ancestors(dir);
      }
    }

    /** `File::create`: an empty file (a new one, or the old one truncated). */
    method CreateFile(path: Path, fails: bool, now: FileTime) returns (ok: bool)
      modifies this
      ensures ok == !fails
      ensures files == if ok then old(files)[path := FileEntry([], now, now)] else old(files)
      ensures dirs == old(dirs)
    {
      ok := !fails;
      if ok {
        files := files[path := FileEntry([], now, now)];
      }
    }

    /** `write_all` on a freshly created file. */
    method WriteAll(path: Path, bytes: seq<bv8>, fails: bool, now: FileTime) returns (ok: bool)
      requires path in files
      modifies this
      ensures ok == !fails
      ensures files == if ok then old(files)[path := FileEntry(bytes, now, now)] else old(files)
      ensures dirs == old(dirs)
    {
      ok := !fails;
      if ok {
        files := files[path := FileEntry(bytes, now, now)];
      }
    }

    /** `filetime::set_file_times(path, atime, mtime)`. */
    method SetFileTimes(path: Path, atime: FileTime, mtime: FileTime, fails: bool) returns (ok: bool)
      requires path in files
      modifies this
      ensures ok == !fails
      ensures files == if ok then old(files)[path := FileEntry(old(files)[path].bytes, atime, mtime)]
                       else old(files)
      ensures dirs == old(dirs)
    {
      ok := !fails;
      if ok {
        files := files[path := FileEntry(files[path].bytes, atime, mtime)];
      }
    }
  }
}

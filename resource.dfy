/** `KidsnoteResourceSdk::download_image` (lib/kidsnote-sdk/src/resource/mod.rs):
    skip a file whose size already matches, otherwise fetch it with up to three
    send attempts, write the body and stamp the file times. */
module Resource {
  import opened Wrappers
  import opened Ints
  import opened Fs
  import ErrorTypes

  /** What one GET of the image URL came to: the send failed (retried), the
      body could not be read (not retried), or a body arrived with some status. */
  datatype SendOutcome = SendErr | BodyErr | Body(status: int, bytes: seq<bv8>)

  const MaxAttempts: nat := 3

  /** The scripted outcome of attempt `k`; attempts past the script's end fail to send. */
  function SendAt(sends: seq<SendOutcome>, k: nat): SendOutcome {
    if k < |sends| then sends[k] else SendErr
  }

  /** Where the retry loop stops. */
  datatype Fetch = Fetched(bytes: seq<bv8>, attempts: nat) | BodyFailed(attempts: nat) | Exhausted

  /** The retry loop from attempt `k` on: the first attempt whose send succeeds
      decides, and only failed sends lead to another attempt. */
  function FirstReply(sends: seq<SendOutcome>, k: nat): (f: Fetch)
    requires k <= MaxAttempts
    decreases MaxAttempts - k
    ensures f.Exhausted? <==> forall j :: k <= j < MaxAttempts ==> SendAt(sends, j).SendErr?
    ensures !f.Exhausted? ==> k < f.attempts <= MaxAttempts
    ensures !f.Exhausted? ==> forall j :: k <= j < f.attempts - 1 ==> SendAt(sends, j).SendErr?
    ensures f.BodyFailed? ==> SendAt(sends, f.attempts - 1).BodyErr?
    ensures f.Fetched? ==> SendAt(sends, f.attempts - 1).Body? && SendAt(sends, f.attempts - 1).bytes == f.bytes
  {
    if k == MaxAttempts then Exhausted
    else match SendAt(sends, k)
      case SendErr => FirstReply(sends, k + 1)
      case BodyErr => BodyFailed(k + 1)
      case Body(_, bytes) => Fetched(bytes, k + 1)
  }

  const DirError := ErrorTypes.GeneralErrorStr("Failed to create directory")
  const MetadataError := ErrorTypes.GeneralErrorStr("file metadata error.")
  const FileOpenError := ErrorTypes.GeneralErrorStr("File open error.")
  const WriteError := ErrorTypes.GeneralErrorStr("Error writing to file")
  const SetTimesError := ErrorTypes.GeneralErrorStr("set_file_times error.")
  const BodyError := ErrorTypes.GeneralErrorStr("unknown error.")
  const NoCallError := ErrorTypes.GeneralErrorStr("unknown error. no call")

  /** What happens before any request is sent. */
  datatype Stage = DirFailed | MetadataFailed | SizeMatches | Fetch

  function Precheck(dirs: set<Path>, files: map<Path, FileEntry>, path: Path, fileSize: i32, faults: IoFaults): Stage {
    if NeedsDir(dirs, path) && faults.createDir then DirFailed
    else if faults.metadata then MetadataFailed
    else if path in files && |files[path].bytes| == I32AsU64(fileSize) then SizeMatches
    else Fetch
  }

  /** A negative `file_size` wraps to at least 2^63, so no file shorter than
      that is ever skipped. */
  lemma NegativeSizeNeverSkips(dirs: set<Path>, files: map<Path, FileEntry>, path: Path, fileSize: i32, faults: IoFaults)
    requires fileSize < 0
    requires path in files ==> |files[path].bytes| < TwoTo63
    ensures Precheck(dirs, files, path, fileSize, faults) != SizeMatches
  {
  }

  datatype Stored = Stored(result: Result<bool, ErrorTypes.AuthError>, files: map<Path, FileEntry>)

  /** Writing a fetched body: create (truncate), write, set both times to `fileTime`. */
  function Store(files: map<Path, FileEntry>, path: Path, bytes: seq<bv8>, fileTime: FileTime,
                 now: FileTime, faults: IoFaults): Stored
  {
    if faults.createFile then Stored(Failure(FileOpenError), files)
    else if faults.write then Stored(Failure(WriteError), files[path := FileEntry([], now, now)])
    else if faults.setTimes then Stored(Failure(SetTimesError), files[path := FileEntry(bytes, now, now)])
    else Stored(Success(true), files[path := FileEntry(bytes, fileTime, fileTime)])
  }

  /** The result of one `download_image` call, the number of GET requests it
      sent, and the directories and files afterwards. */
  datatype Download = Download(result: Result<bool, ErrorTypes.AuthError>, requests: nat,
                               dirs: set<Path>, files: map<Path, FileEntry>)

  /** What `download_image` does, stage by stage. */
  function DownloadSpec(dirs: set<Path>, files: map<Path, FileEntry>, fileSize: i32, fileTime: FileTime,
                        path: Path, sends: seq<SendOutcome>, faults: IoFaults, now: FileTime): Download
  {
    var dirs' := DirsAfter(dirs, path, faults);
    match Precheck(dirs, files, path, fileSize, faults)
    case DirFailed => Download(Failure(DirError), 0, dirs', files)
    case MetadataFailed => Download(Failure(MetadataError), 0, dirs', files)
    case SizeMatches => Download(Success(false), 0, dirs', files)
    case Fetch =>
      match FirstReply(sends, 0)
      case Exhausted => Download(Failure(NoCallError), MaxAttempts, dirs', files)
      case BodyFailed(n) => Download(Failure(BodyError), n, dirs', files)
      case Fetched(bytes, n) =>
        var st := Store(files, path, bytes, fileTime, now, faults);
        Download(st.result, n, dirs', st.files)
  }

  /** Before any request: a missing parent directory is created first and a
      failure to create it is returned; a metadata failure is returned; a file
      whose length equals `file_size as u64` is skipped with `Ok(false)`. In
      all three cases no request is sent and no file changes. */
  lemma DownloadBeforeFetch(dirs: set<Path>, files: map<Path, FileEntry>, fileSize: i32, fileTime: FileTime,
                            path: Path, sends: seq<SendOutcome>, faults: IoFaults, now: FileTime)
    ensures var d := DownloadSpec(dirs, files, fileSize, fileTime, path, sends, faults, now);
            && (NeedsDir(dirs, path) && faults.createDir ==> d.result == Failure(DirError) && d.dirs == dirs)
            && (NeedsDir(dirs, path) && !faults.createDir ==> Parent(path).value in d.dirs)
            && (!(NeedsDir(dirs, path) && faults.createDir) && faults.metadata ==> d.result == Failure(MetadataError))
            && (Precheck(dirs, files, path, fileSize, faults) == SizeMatches <==>
                  !(NeedsDir(dirs, path) && faults.createDir) && !faults.metadata
                  && path in files && |files[path].bytes| == I32AsU64(fileSize))
            && (Precheck(dirs, files, path, fileSize, faults) == SizeMatches ==> d.result == Success(false))
            && (Precheck(dirs, files, path, fileSize, faults) != Fetch ==> d.requests == 0 && d.files == files)
  {
  }

  /** The retry loop: at most three requests, only failed sends are retried,
      a body that cannot be read ends the call at once, three failed sends
      give "unknown error. no call", and the first body that arrives is
      written out, whatever its status: with no I/O failure the file holds
      exactly the body, both its times are `file_time`, no other file
      changes and the result is `Ok(true)`. */
  lemma {:induction false} DownloadFetch(dirs: set<Path>, files: map<Path, FileEntry>, fileSize: i32,
                                         fileTime: FileTime, path: Path, sends: seq<SendOutcome>,
                                         faults: IoFaults, now: FileTime)
    requires Precheck(dirs, files, path, fileSize, faults) == Fetch
    ensures var d := DownloadSpec(dirs, files, fileSize, fileTime, path, sends, faults, now);
            && 1 <= d.requests <= MaxAttempts
            && (forall j :: 0 <= j < d.requests - 1 ==> SendAt(sends, j).SendErr?)
            && ((forall j :: 0 <= j < MaxAttempts ==> SendAt(sends, j).SendErr?) ==>
                  d.result == Failure(NoCallError) && d.requests == MaxAttempts && d.files == files)
            && (SendAt(sends, d.requests - 1).SendErr? ==>
                  d.requests == MaxAttempts && d.result == Failure(NoCallError) && d.files == files)
            && (SendAt(sends, d.requests - 1).BodyErr? ==> d.result == Failure(BodyError) && d.files == files)
            && (SendAt(sends, d.requests - 1).Body? && !faults.createFile && !faults.write && !faults.setTimes ==>
                  d.result == Success(true)
                  && path in d.files
                  && d.files[path] == FileEntry(SendAt(sends, d.requests - 1).bytes, fileTime, fileTime)
                  && forall p :: p in files && p != path ==> p in d.files && d.files[p] == files[p])
  {
    var f := FirstReply(sends, 0);
    if f.Exhausted? {
      assert !SendAt(sends, MaxAttempts - 1).Body?;
    }
  }

  /** The end of `download_image`: create the file, write the body, stamp
      the times, stopping at the first failure. */
  method StoreBody(fs: FileSystem, path: Path, bytes: seq<bv8>, fileTime: FileTime, faults: IoFaults, now: FileTime)
    returns (r: Result<bool, ErrorTypes.AuthError>)
    modifies fs
    ensures var st := Store(old(fs.files), path, bytes, fileTime, now, faults);
            r == st.result && fs.files == st.files && fs.dirs == old(fs.dirs)
  {
    var ok := fs.CreateFile(path, faults.createFile, now);
    if !ok {
      return Failure(FileOpenError);
    }
    ok := fs.WriteAll(path, bytes, faults.write, now);
    if !ok {
      return Failure(WriteError);
    }
    ok := fs.SetFileTimes(path, fileTime, fileTime, faults.setTimes);
    if !ok {
      return Failure(SetTimesError);
    }
    return Success(true);
  }

  method DownloadImage(fs: FileSystem, url: string, fileSize: i32, fileTime: FileTime, downloadPath: Path,
                       sends: seq<SendOutcome>, faults: IoFaults, now: FileTime)
    returns (r: Result<bool, ErrorTypes.AuthError>, requests: seq<string>)
    modifies fs
    ensures var d := DownloadSpec(old(fs.dirs), old(fs.files), fileSize, fileTime, downloadPath, sends, faults, now);
            r == d.result && |requests| == d.requests && fs.dirs == d.dirs && fs.files == d.files
    ensures forall k :: 0 <= k < |requests| ==> requests[k] == url
  {
    requests := [];
    var parent := Parent(downloadPath);
    if parent.Some? && parent.value !in fs.dirs {
      var ok := fs.CreateDirAll(parent.value, faults.createDir);
      if !ok {
        return Failure(DirError), requests;
      }
    }

    if faults.metadata {
      return Failure(MetadataError), requests;
    }
    if downloadPath in fs.files && |fs.files[downloadPath].bytes| == I32AsU64(fileSize) {
      return Success(false), requests;
    }

    for attempt := 0 to MaxAttempts
      invariant FirstReply(sends, 0) == FirstReply(sends, attempt)
      invariant |requests| == attempt && forall k :: 0 <= k < |requests| ==> requests[k] == url
      invariant fs.files == old(fs.files)
      invariant fs.dirs == DirsAfter(old(fs.dirs), downloadPath, faults)
    {
      requests := requests + [url];
      match SendAt(sends, attempt)
      case SendErr =>
        // logged as a warning, then the next attempt
      case BodyErr =>
        return Failure(BodyError), requests;
      case Body(_, bytes) =>
        r := StoreBody(fs, downloadPath, bytes, fileTime, faults, now);
        return r, requests;
    }
    r := Failure(NoCallError);
  }
}

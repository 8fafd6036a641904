/** uploader/uploader.go: an uploaded multipart file bound to a destination
    directory, with a `saved` flag that makes saving happen at most once and
    removal happen only for a saved file.

    The file system is a set of paths with fault injection. The naming,
    path and URL helpers of go-universal/utils, MIME detection and byte-size
    parsing are foreign code and reach the model as parameters. */
module Uploader {
  import opened Wrappers
  import opened Text
  import opened Errors
  import opened Cache
  import opened UploaderOption

  /** *multipart.FileHeader: the client's file name and the size in bytes. */
  datatype FileHeader = FileHeader(filename: string, size: int)

  /** The go-universal/utils helpers the uploader calls. NumberedFile looks
      at the destination directory and may fail; TimestampedFile reads the
      clock; both are given as the functions they compute for this call. */
  datatype Helpers = Helpers(
    numberedFile: (string, string) -> Result<string, Error>,
    timestampedFile: string -> string,
    normalizePath: (string, string) -> string,
    absoluteURL: (string, string) -> string)

  datatype FsOp = FsStat | FsWrite | FsRemove

  /** What os.Remove reports. */
  datatype Removal = Removed | NotExist | RemoveFailed(error: Error)

  /** The file system as the set of paths that exist. A call whose
      operation has an entry in `faults` fails with that entry's text. */
  class FileSystem {
    var files: set<string>
    var faults: map<FsOp, string>

    constructor (files: set<string>, faults: map<FsOp, string>)
      ensures this.files == files && this.faults == faults
    {
      this.files := files;
      this.faults := faults;
    }

    /** utils.FileExists. */
    method Stat(path: string) returns (r: Result<bool, Error>)
      ensures FsStat in faults ==> r == Failure(Plain(faults[FsStat]))
      ensures FsStat !in faults ==> r == Success(path in files)
    {
      if FsStat in faults {
        r := Failure(Plain(faults[FsStat]));
      } else {
        r := Success(path in files);
      }
    }

    /** fasthttp.SaveMultipartFile: creates the file. */
    method Write(path: string) returns (r: Outcome<Error>)
      modifies this`files
      ensures FsWrite in faults ==> r == Fail(Plain(faults[FsWrite])) && files == old(files)
      ensures FsWrite !in faults ==> r == Pass && files == old(files) + {path}
    {
      if FsWrite in faults {
        r := Fail(Plain(faults[FsWrite]));
      } else {
        files := files + {path};
        r := Pass;
      }
    }

    /** os.Remove. */
    method Remove(path: string) returns (r: Removal)
      modifies this`files
      ensures r == Removing(path, old(files), faults).1
      ensures files == Removing(path, old(files), faults).0
    {
      if FsRemove in faults {
        r := RemoveFailed(Plain(faults[FsRemove]));
      } else if path !in files {
        r := NotExist;
      } else {
        files := files - {path};
        r := Removed;
      }
    }
  }

  /** The file set after os.Remove(path) and what it reports. A removal
      that does not fail leaves the path absent. */
  function Removing(path: string, files: set<string>, faults: map<FsOp, string>): (r: (set<string>, Removal))
    ensures r.1.RemoveFailed? <==> FsRemove in faults
    ensures r.1.RemoveFailed? ==> r.0 == files
    ensures !r.1.RemoveFailed? ==> r.0 == files - {path}
    ensures r.1.NotExist? <==> FsRemove !in faults && path !in files
  {
    if FsRemove in faults then (files, RemoveFailed(Plain(faults[FsRemove])))
    else if path !in files then (files, NotExist)
    else (files - {path}, Removed)
  }

  /** The file name NewUploader generates: none without a file, otherwise
      a numbered name (which may fail) or a timestamped one. */
  function FileName(root: string, file: Option<FileHeader>, numbered: bool, lib: Helpers): (r: Result<string, Error>)
    ensures file.None? ==> r == Success("")
    ensures r.Failure? <==> file.Some? && numbered && lib.numberedFile(root, file.value.filename).Failure?
  {
    if file.None? then Success("")
    else if numbered then lib.numberedFile(root, file.value.filename)
    else Success(lib.timestampedFile(file.value.filename))
  }

  /** The state after Save: the file set, the saved flag, the result. */
  datatype SaveStep = SaveStep(files: set<string>, saved: bool, outcome: Outcome<Error>)

  /** What Save does, given whether there is a file, the saved flag, the
      destination and the file system. A file is written at most once and
      never over an existing one, and the flag is set exactly when the
      write happens. */
  function SaveEffect(isNil: bool, saved: bool, dest: string, files: set<string>, faults: map<FsOp, string>): (r: SaveStep)
    ensures r.saved == (saved || (!isNil && r.outcome.Pass?))
    ensures r.files == files || (r.files == files + {dest} && dest !in files && r.saved && !saved)
    ensures isNil || saved ==> r == SaveStep(files, saved, Pass)
    ensures !isNil && !saved && FsStat !in faults && dest in files ==>
      r == SaveStep(files, false, Fail(Plain(dest + " file exists")))
  {
    if isNil || saved then SaveStep(files, saved, Pass)
    else if FsStat in faults then SaveStep(files, saved, Fail(Plain(faults[FsStat])))
    else if dest in files then SaveStep(files, saved, Fail(Plain(dest + " file exists")))
    else if FsWrite in faults then SaveStep(files, saved, Fail(Plain(faults[FsWrite])))
    else SaveStep(files + {dest}, true, Pass)
  }

  /** What Delete does to the file set and what it returns. It only fails
      when the removal itself fails; a successful Delete of a saved file
      leaves no file at the path. */
  function DeleteEffect(isNil: bool, saved: bool, path: string, files: set<string>, faults: map<FsOp, string>): (r: (set<string>, Outcome<Error>))
    ensures isNil || !saved ==> r == (files, Pass)
    ensures r.1.Fail? <==> !isNil && saved && FsRemove in faults
    ensures r.0 == files || r.0 == files - {path}
    ensures !isNil && saved && r.1.Pass? ==> path !in r.0
  {
    if isNil || !saved then (files, Pass)
    else
      var (after, removal) := Removing(path, files, faults);
      match removal
      case Removed => (after, Pass)
      case NotExist => (after, Pass)
      case RemoveFailed(e) => (after, Fail(e))
  }

  /** The `uploader` struct. */
  class Uploader {
    const opt: Options
    const file: Option<FileHeader>
    const name: string
    const root: string
    const lib: Helpers
    var saved: bool

    constructor (opt: Options, file: Option<FileHeader>, name: string, root: string, lib: Helpers)
      ensures this.opt == opt && this.file == file && this.name == name && this.root == root
      ensures this.lib == lib && !saved
    {
      this.opt := opt;
      this.file := file;
      this.name := name;
      this.root := root;
      this.lib := lib;
      saved := false;
    }

    /** IsNil: there is no uploaded file. */
    predicate IsNil()
    {
      file.None?
    }

    /** ValidateSize, given the parsed bounds: without a file the answer is
      false and no error; otherwise a bound that did not parse is the error
      (min first), and the answer is whether the size lies within both
      bounds, which are inclusive. */
    function ValidateSize(min: Result<int, Error>, max: Result<int, Error>): (r: Result<bool, Error>)
      ensures IsNil() ==> r == Success(false)
      ensures r.Failure? <==> !IsNil() && (min.Failure? || max.Failure?)
      ensures r.Failure? ==> r.error == if min.Failure? then min.error else max.error
      ensures r == Success(true) <==>
        !IsNil() && min.Success? && max.Success? && min.value <= file.value.size <= max.value
    {
      if IsNil() then Success(false)
      else if min.Failure? then Failure(min.error)
      else if max.Failure? then Failure(max.error)
      else Success(min.value <= file.value.size && file.value.size <= max.value)
    }

    /** ValidateMime, given the detected type (or the error opening or
      reading the file) and mimetype.Equal: false without a file, the error
      when detection failed, otherwise whether some allowed type equals the
      detected one; with no allowed types, false. */
    function ValidateMime(detected: Result<string, Error>, mimes: seq<string>, equal: (string, string) -> bool): (r: Result<bool, Error>)
      ensures IsNil() ==> r == Success(false)
      ensures r.Failure? <==> !IsNil() && detected.Failure?
      ensures r == Success(true) <==>
        !IsNil() && detected.Success? && exists i :: 0 <= i < |mimes| && equal(detected.value, mimes[i])
      ensures |mimes| == 0 ==> r != Success(true)
    {
      if IsNil() then Success(false)
      else if detected.Failure? then Failure(detected.error)
      else Success(exists i :: 0 <= i < |mimes| && equal(detected.value, mimes[i]))
    }

    /** Path: where the file is stored; "" without a file. */
    function Path(): (p: string)
      ensures IsNil() ==> p == ""
      ensures !IsNil() ==> p == lib.normalizePath(root, name)
    {
      if IsNil() then "" else lib.normalizePath(root, name)
    }

    /** URL: where the file is served, the configured prefix left out;
      "" without a file. */
    function URL(): (u: string)
      ensures IsNil() ==> u == ""
      ensures !IsNil() ==> u == lib.absoluteURL(opt.prefix, Path())
    {
      if IsNil() then "" else lib.absoluteURL(opt.prefix, Path())
    }

    /** Save: writes the file to Path() unless there is none or it was
      saved already; refuses to overwrite, and sets `saved` only once the
      write succeeded. */
    method Save(fs: FileSystem) returns (r: Outcome<Error>)
      modifies this`saved, fs`files
      ensures var step := SaveEffect(IsNil(), old(saved), Path(), old(fs.files), fs.faults);
        fs.files == step.files && saved == step.saved && r == step.outcome
    {
      if IsNil() || saved {
        return Pass;
      }
      var dest := Path();
      var held := fs.Stat(dest);
      if held.Failure? {
        return Fail(held.error);
      } else if held.value {
        return Fail(Plain(dest + " file exists"));
      }
      r := fs.Write(dest);
      if r.Fail? {
        return;
      }
      saved := true;
    }

    /** Delete: removes a saved file, a file already gone counting as
      removed; `saved` stays as it was. */
    method Delete(fs: FileSystem) returns (r: Outcome<Error>)
      modifies fs`files
      ensures var d := DeleteEffect(IsNil(), saved, Path(), old(fs.files), fs.faults);
        fs.files == d.0 && r == d.1
    {
      if IsNil() || !saved {
        return Pass;
      }
      var removal := fs.Remove(Path());
      match removal {
        case Removed => r := Pass;
        case NotExist => r := Pass;
        case RemoveFailed(e) => r := Fail(e);
      }
    }

    /** SafeDelete: Delete, and when it failed and a queue is configured,
      the path goes onto the queue for later removal. */
    method SafeDelete(fs: FileSystem)
      modifies fs`files, if opt.queue.Some? then {opt.queue.value} else {}
      ensures var d := DeleteEffect(IsNil(), saved, Path(), old(fs.files), fs.faults);
        && fs.files == d.0
        && (opt.queue.Some? ==>
              opt.queue.value.items == old(opt.queue.value.items) + if d.1.Fail? then [Path()] else [])
    {
      var err := Delete(fs);
      if opt.queue.None? {
        return;
      }
      if err.Fail? {
        opt.queue.value.Push(Path());
      }
    }
  }

  /** NewUploader: trims the root, applies the options in order, and names
      the file; only a failing numbered name makes it fail. */
  method NewUploader(root: string, file: Option<FileHeader>, options: seq<Opt>, lib: Helpers)
    returns (r: Result<Uploader, Error>)
    ensures var n := FileName(TrimSpace(root), file, Configured(options).numbered, lib);
      && (r.Failure? <==> n.Failure?)
      && (r.Failure? ==> r.error == n.error)
      && (r.Success? ==>
            && fresh(r.value)
            && r.value.root == TrimSpace(root) && r.value.opt == Configured(options)
            && r.value.file == file && r.value.name == n.value && r.value.lib == lib
            && !r.value.saved)
  {
    var trimmed := TrimSpace(root);
    var o := Build(options);
    var name := "";
    if file.Some? {
      if o.numbered {
        var n := lib.numberedFile(trimmed, file.value.filename);
        if n.Failure? {
          return Failure(n.error);
        }
        name := n.value;
      } else {
        name := lib.timestampedFile(file.value.filename);
      }
    }
    var u := new Uploader(o, file, name, trimmed, lib);
    r := Success(u);
  }

  /** Once a Save succeeded, every later Save returns nil and writes
      nothing. */
  lemma {:induction false} SecondSaveWritesNothing(isNil: bool, saved: bool, dest: string, files: set<string>, faults: map<FsOp, string>)
    requires !isNil && SaveEffect(isNil, saved, dest, files, faults).outcome.Pass?
    ensures var first := SaveEffect(isNil, saved, dest, files, faults);
      SaveEffect(isNil, first.saved, dest, first.files, faults) == first
  {
  }

  /** With a file system that does not fail, saving a new file and then
      deleting it leaves the file system as it was. */
  lemma {:induction false} SaveThenDeleteRestores(dest: string, files: set<string>)
    requires dest !in files
    ensures var s := SaveEffect(false, false, dest, files, map[]);
      s.outcome.Pass? && s.saved && DeleteEffect(false, s.saved, dest, s.files, map[]) == (files, Pass)
  {
    assert files + {dest} - {dest} == files;
  }

  /** Delete leaves `saved` set, so a second Delete removes nothing and,
      the file being gone, still succeeds. */
  lemma {:induction false} SecondDeleteSucceeds(path: string, files: set<string>)
    ensures var first := DeleteEffect(false, true, path, files, map[]);
      first.1.Pass? && DeleteEffect(false, true, path, first.0, map[]) == (first.0, Pass)
  {
  }
}

/** Walks through an upload against a file system and helpers built on the
    spot: the helpers join a root and a name with "/", prefix a timestamp
    "1-" and number nothing. */
module UploaderScenarios {
  import opened Wrappers
  import opened Text
  import opened Errors
  import opened Cache
  import opened UploaderOption
  import opened Uploader
  import Folding

  const Lib := Helpers(
    (root: string, name: string) => Success(name),
    (name: string) => "1-" + name,
    (root: string, name: string) => root + "/" + name,
    (prefix: string, path: string) => path)

  const Picture := FileHeader("a.png", 10)

  /** A picture uploader under `root` with timestamped names. */
  method Picked(root: string, options: seq<Opt>) returns (u: Uploader)
    requires Trimmed(root) && !Configured(options).numbered
    ensures fresh(u) && u.opt == Configured(options) && !u.IsNil() && !u.saved
    ensures u.Path() == root + "/1-a.png"
  {
    TrimmedFixed(root);
    var made := NewUploader(root, Some(Picture), options, Lib);
    u := made.value;
  }

  /** The file is saved once: a second Save neither fails on the file the
      first one wrote nor writes again. */
  method SaveOnceScenario() returns (first: Outcome<Error>, second: Outcome<Error>, files: set<string>)
    ensures first == Pass && second == Pass
    ensures files == {"uploads/1-a.png"}
  {
    var fs := new FileSystem({}, map[]);
    assert Configured([]) == Defaults;
    var u := Picked("uploads", []);
    assert u.Path() == "uploads/1-a.png";
    first := u.Save(fs);
    second := u.Save(fs);
    files := fs.files;
  }

  /** NewUploader trims the root it is given. */
  method TrimmedRootScenario() returns (root: string)
    ensures root == "uploads"
  {
    assert " " + "uploads" + " " == " uploads ";
    TrimSpaceOfPadded(" ", "uploads", " ");
    var made := NewUploader(" uploads ", None, [], Lib);
    root := made.value.root;
  }

  /** A saved file the file system refuses to remove stays on disk, and
      SafeDelete leaves its path on the configured queue. */
  method QueueOnFailedDeleteScenario() returns (queued: seq<string>, files: set<string>)
    ensures queued == ["uploads/1-a.png"]
    ensures files == {"uploads/1-a.png"}
  {
    var fs := new FileSystem({}, map[]);
    var q := new Queue();
    var options := [WithQueue(Some(q))];
    Folding.FoldOne(UploaderOption.Apply, Defaults, options[0]);
    assert Configured(options) == Options(Some(q), false, "");
    var u := Picked("uploads", options);
    assert u.Path() == "uploads/1-a.png";
    var _ := u.Save(fs);
    fs.faults := map[FsRemove := "permission denied"];
    u.SafeDelete(fs);
    queued := q.items;
    files := fs.files;
  }

  /** Without a file there is no path, no URL, no valid size and nothing
      to save. */
  method NoFileScenario() returns (path: string, url: string, sized: Result<bool, Error>, saved: Outcome<Error>, files: set<string>)
    ensures path == "" && url == "" && sized == Success(false)
    ensures saved == Pass && files == {}
  {
    var fs := new FileSystem({}, map[]);
    var made := NewUploader("uploads", None, [], Lib);
    var u := made.value;
    path := u.Path();
    url := u.URL();
    sized := u.ValidateSize(Success(0), Success(100));
    saved := u.Save(fs);
    files := fs.files;
  }
}

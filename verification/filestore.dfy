/**
 * The part of the file system the writer and the repair touch: a set of
 * directories and a map from file paths to their text. `os.makedirs` with
 * its error swallowed, `open(path, "w")`, `write` and `os.path.dirname`.
 */
module FileStore {

  /** A snapshot of the directories and files. */
  datatype DiskState = DiskState(dirs: set<string>, files: map<string, string>)

  /**
   * `os.makedirs(path)` inside `try ... except os.error: pass`: the directory
   * exists afterwards; an existing directory, and the empty path (which
   * raises FileNotFoundError), leave the state as it was.
   */
  function AfterMakeDirs(s: DiskState, path: string): (t: DiskState)
    ensures t.files == s.files
    ensures path != "" ==> path in t.dirs
    ensures s.dirs <= t.dirs && t.dirs <= s.dirs + {path}
  {
    if path == "" then s else s.(dirs := s.dirs + {path})
  }

  /** One past the position of the last '/', or 0 when there is none (`p.rfind("/") + 1`). */
  function AfterLastSlash(p: string): (i: nat)
    ensures i <= |p|
    ensures i > 0 ==> p[i - 1] == '/'
    ensures forall k :: i <= k < |p| ==> p[k] != '/'
    decreases |p|
  {
    if p == [] then 0
    else if p[|p| - 1] == '/' then |p|
    else AfterLastSlash(p[..|p| - 1])
  }

  predicate AllSlashes(s: string)
  {
    forall k :: 0 <= k < |s| ==> s[k] == '/'
  }

  /** `s.rstrip("/")`. */
  function StripTrailingSlashes(s: string): (r: string)
    ensures |r| <= |s| && r == s[..|r|]
    ensures AllSlashes(s[|r|..])
    ensures r != "" ==> r[|r| - 1] != '/'
    decreases |s|
  {
    if s != [] && s[|s| - 1] == '/' then StripTrailingSlashes(s[..|s| - 1]) else s
  }

  /**
   * `os.path.dirname(p)` for POSIX paths: the text before the last '/', with
   * trailing slashes removed unless it is made of slashes only.
   */
  function DirName(p: string): (d: string)
    ensures |d| <= |p| && d == p[..|d|]
    ensures '/' !in p ==> d == ""
  {
    var head := p[..AfterLastSlash(p)];
    if head != "" && !AllSlashes(head) then StripTrailingSlashes(head) else head
  }

  /** A second write to the same path replaces the first. */
  lemma UpdateTwice(m: map<string, string>, k: string, a: string, b: string)
    ensures m[k := a][k := b] == m[k := b]
  {
  }

  /** The directories and files, changed in place by the writer and the repair. */
  class Disk {
    var dirs: set<string>
    var files: map<string, string>

    constructor (dirs: set<string>, files: map<string, string>)
      ensures this.dirs == dirs && this.files == files
    {
      this.dirs := dirs;
      this.files := files;
    }

    function State(): DiskState
      reads this
    {
      DiskState(dirs, files)
    }

    method MakeDirs(path: string)
      modifies this
      ensures State() == AfterMakeDirs(old(State()), path)
    {
      if path != "" {
        dirs := dirs + {path};
      }
    }

    /** `open(path, "w")`: the file exists and is empty. */
    method Create(path: string)
      modifies this
      ensures dirs == old(dirs) && files == old(files)[path := ""]
    {
      files := files[path := ""];
    }

    /** `file.write(text)` on a file opened for writing. */
    method Write(path: string, text: string)
      requires path in files
      modifies this
      ensures dirs == old(dirs) && files == old(files)[path := old(files)[path] + text]
    {
      files := files[path := files[path] + text];
    }
  }
}

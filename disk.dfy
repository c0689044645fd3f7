/** The filesystem as the catalog code sees it: which regular files exist with
    which bytes, and which directories exist; plus the two path joins the code
    uses, `os.path.join` and `pathlib`'s `/`. */
module Disk {
  import opened Strings

  type Bytes = seq<bv8>

  /** Files and directories, by path. */
  datatype DiskState = DiskState(files: map<string, Bytes>, dirs: set<string>) {
    /** `os.path.exists(p)` / `Path.exists()` */
    predicate Exists(p: string) { p in files || p in dirs }
    /** `os.path.isfile(p)` */
    predicate IsFile(p: string) { p in files }
    /** `os.path.isdir(p)` */
    predicate IsDir(p: string) { p in dirs }
  }

  /** The state once a missing directory is made: nothing changes when
      something already exists at `p`. */
  function MadeDir(s: DiskState, p: string): DiskState {
    if s.Exists(p) then s else DiskState(s.files, s.dirs + {p})
  }

  /** `os.path.join(a, b)`: an absolute `b` replaces `a`; otherwise a '/' is
      put between them unless `a` is empty or already ends in '/'. */
  function OsJoin(a: string, b: string): (r: string)
    ensures StartsWith(b, "/") ==> r == b
  {
    if StartsWith(b, "/") then b
    else if a == "" || a[|a| - 1] == '/' then a + b
    else a + "/" + b
  }

  /** Joining a relative name to a directory that does not end in '/' puts
      one '/' between them, and the result ends as the name does. */
  lemma OsJoinPlain(a: string, b: string)
    requires a != "" && a[|a| - 1] != '/' && b != "" && b[0] != '/'
    ensures OsJoin(a, b) == a + "/" + b
    ensures OsJoin(a, b)[|OsJoin(a, b)| - 1] == b[|b| - 1]
  {
    assert !StartsWith(b, "/") by {
      assert b[..1] == [b[0]];
    }
  }

  /** `Path(a) / b`: like `os.path.join`, except that an empty `b` adds nothing. */
  function PathJoin(a: string, b: string): string {
    if b == "" then a else OsJoin(a, b)
  }

  /** The bytes stored at a path, as a class whose fields the code updates. */
  class FileSystem {
    var state: DiskState

    constructor (initial: DiskState)
      ensures state == initial
    {
      state := initial;
    }

    /** `os.makedirs(p)` / `Path.mkdir(parents=True, exist_ok=True)`: the
        directory exists afterwards, and no file changes. */
    method MakeDirs(p: string)
      modifies this
      ensures state == DiskState(old(state.files), old(state.dirs) + {p})
    {
      state := DiskState(state.files, state.dirs + {p});
    }

    /** `open(p, "wb").write(content)` */
    method Write(p: string, content: Bytes)
      modifies this
      ensures state == DiskState(old(state.files)[p := content], old(state.dirs))
    {
      state := DiskState(state.files[p := content], state.dirs);
    }
  }
}

/**
 * The filesystem as the CSV writer sees it: a store of files, each holding the
 * CSV records written to it, in which creating some directories or files fails.
 */
module Files {

  import opened Wrappers
  import opened Errors

  /** The index of the last '/' in p, or -1 when there is none. */
  function LastSlash(p: string): (i: int)
    ensures -1 <= i < |p|
    ensures i >= 0 ==> p[i] == '/'
    ensures forall j :: i < j < |p| ==> p[j] != '/'
    decreases |p|
  {
    if p == [] then -1
    else if p[|p| - 1] == '/' then |p| - 1
    else LastSlash(p[..|p| - 1])
  }

  /** In q + "/" + t, t is the tail after the '/', and with no '/' in t the directory is q. */
  lemma JoinParts(q: string, t: string)
    requires |q| > 0
    ensures (q + "/" + t)[|q| + 1..] == t
    ensures '/' !in t ==> Dir(q + "/" + t) == q
  {
    var p := q + "/" + t;
    assert p[|q|] == '/';
    assert p[..|q|] == q;
  }

  /** filepath.Dir without lexical cleaning: everything before the last '/', "/" for a root entry, "." with no '/'. */
  function Dir(p: string): (d: string)
    ensures '/' !in p ==> d == "."
    ensures '/' in p ==>
      || (d == "/" && p[0] == '/' && '/' !in p[1..])
      || (0 < |d| < |p| && p[..|d|] == d && p[|d|] == '/' && '/' !in p[|d| + 1..])
  {
    var i := LastSlash(p);
    if i < 0 then "." else if i == 0 then "/" else p[..i]
  }

  /** The contents of `files` after `content` (if any) was left at `path`. */
  function Stored(files: map<string, seq<seq<string>>>, path: string, content: Option<seq<seq<string>>>)
    : map<string, seq<seq<string>>>
  {
    if content.Some? then files[path := content.value] else files
  }

  /** Writing a path twice leaves only the second contents. */
  lemma UpdateTwice(files: map<string, seq<seq<string>>>, path: string, first: seq<seq<string>>, second: seq<seq<string>>)
    ensures files[path := first][path := second] == files[path := second]
  {
  }

  class FileStore {
    /** Directories that os.MkdirAll cannot create. */
    const mkdirDenied: set<string>
    /** Paths that os.Create cannot create. */
    const createDenied: set<string>
    /** Every file written so far, by path, as the sequence of records it holds. */
    var files: map<string, seq<seq<string>>>

    constructor (mkdirDenied: set<string>, createDenied: set<string>, files: map<string, seq<seq<string>>>)
      ensures this.mkdirDenied == mkdirDenied && this.createDenied == createDenied && this.files == files
    {
      this.mkdirDenied := mkdirDenied;
      this.createDenied := createDenied;
      this.files := files;
    }

    /** os.MkdirAll: directories themselves are not tracked, only whether creating them fails. */
    method MkdirAll(dir: string) returns (err: Option<Error>)
      ensures err.Some? <==> dir in mkdirDenied
      ensures err.Some? ==> err.value == MkdirFailed(dir)
    {
      if dir in mkdirDenied {
        err := Some(MkdirFailed(dir));
      } else {
        err := None;
      }
    }

    /** os.Create: truncates or creates the file, or fails for a denied path. */
    method Create(path: string) returns (err: Option<Error>)
      modifies this
      ensures err.Some? <==> path in createDenied
      ensures err.Some? ==> err.value == CreateFailed(path) && files == old(files)
      ensures err.None? ==> files == old(files)[path := []]
    {
      if path in createDenied {
        err := Some(CreateFailed(path));
      } else {
        err := None;
        files := files[path := []];
      }
    }

    /** csv.Writer.Write on an open file: appends one record. */
    method Write(path: string, record: seq<string>)
      requires path in files
      modifies this
      ensures files == old(files)[path := old(files[path]) + [record]]
    {
      files := files[path := files[path] + [record]];
    }
  }
}

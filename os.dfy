/**
 * The slice of the operating system the wrapper touches: a working
 * directory, regular files with byte contents, directories, and paths the
 * process may not create, overwrite or remove (permission errors, a
 * read-only disk). Go's
 * `os.WriteFile`, `os.MkdirAll`, `os.Remove`, `filepath.Join` and
 * `filepath.Abs` are modelled on it.
 */
module Os {
  import opened Basics

  /** `filepath.Clean` on the paths the wrapper builds: a leading `./` goes. */
  function Clean(p: string): (r: string)
    ensures |r| <= |p|
    ensures !(|r| > 2 && r[..2] == "./")
  {
    if |p| > 2 && p[..2] == "./" then Clean(p[2..]) else p
  }

  /** Cleaning only ever drops a prefix. */
  lemma {:induction false} CleanSuffix(p: string)
    ensures Clean(p) == p[|p| - |Clean(p)|..]
  {
    if |p| > 2 && p[..2] == "./" {
      CleanSuffix(p[2..]);
      assert p[2..][|p| - 2 - |Clean(p)|..] == p[|p| - |Clean(p)|..];
    }
  }

  predicate IsAbsolute(p: string) {
    |p| > 0 && p[0] == '/'
  }

  /**
   * `filepath.Join(dir, name)` for a directory and a plain file name. An
   * empty or `.` directory is dropped; otherwise the name follows the cleaned
   * directory after a separator. Either way the result is clean.
   */
  function Join(dir: string, name: string): (r: string)
    ensures Clean(r) == r
    ensures Clean(dir) in {"", ".", "./"} ==> r == Clean(name)
    ensures Clean(dir) !in {"", ".", "./"} ==> |r| > |name| && r[|r| - |name| - 1..] == "/" + name
  {
    var d := Clean(dir);
    if d in {"", ".", "./"} then Clean(name)
    else
      var r := d + "/" + name;
      assert r[..2] != "./" by {
        assert d != "" && d != "." && d != "./";
        if |d| == 1 {
          assert d == [d[0]] && r[0] == d[0];
        } else {
          assert r[..2] == d[..2];
        }
      }
      r
  }

  /** An empty or `.` directory adds nothing; `./cache` loses its `./`. */
  lemma JoinExamples()
    ensures Join("", "x") == "x" && Join(".", "x") == "x"
    ensures Join("./cache", "x") == "cache/x"
  {
    var dir := "./cache";
    assert dir[..2] == "./" && dir[2..] == "cache";
    assert "cache"[..2][0] == 'c';
    assert Clean("cache") == "cache";
    assert "cache/x"[..2][0] == 'c';
  }

  /**
   * `filepath.Abs`: an absolute path is returned as it is; a relative one is
   * joined to the working directory, and the call fails when the working
   * directory cannot be determined (`cwd` is `None`).
   */
  function Abs(cwd: Option<string>, p: string): (r: Option<string>)
    requires cwd.Some? ==> IsAbsolute(cwd.value)
    ensures r.Some? <==> IsAbsolute(p) || cwd.Some?
    ensures r.Some? ==> IsAbsolute(r.value)
  {
    if IsAbsolute(p) then Some(p)
    else if cwd.None? then None
    else if cwd.value == "/" then Some("/" + Clean(p))
    else Some(cwd.value + "/" + Clean(p))
  }

  /** A relative path made absolute ends in `/` and the cleaned path. */
  lemma AbsSuffix(cwd: Option<string>, p: string, abs: string)
    requires cwd.Some? ==> IsAbsolute(cwd.value)
    requires !IsAbsolute(p) && Abs(cwd, p) == Some(abs)
    ensures var c := Clean(p);
            |abs| > |c| && abs[|abs| - |c| - 1..] == "/" + c
  {
    var c := Clean(p);
    var wd := cwd.value;
    if wd == "/" {
      assert abs == "/" + c;
    } else {
      assert abs == wd + ("/" + c);
    }
  }

  /**
   * The file system the process sees. Paths are stored in their cleaned
   * form, so `./cache` and `cache` name the same directory.
   */
  class FileSystem {
    var files: map<string, Bytes>
    var dirs: set<string>
    /** Paths where creating, overwriting or removing fails. */
    const denied: set<string>
    /** The working directory, or `None` when `os.Getwd` fails. */
    const cwd: Option<string>

    /** No path is both a file and a directory; the working directory is absolute. */
    ghost predicate Valid()
      reads this
    {
      && files.Keys !! dirs
      && (cwd.Some? ==> IsAbsolute(cwd.value))
    }

    constructor (files: map<string, Bytes>, dirs: set<string>, denied: set<string>, cwd: Option<string>)
      requires files.Keys !! dirs
      requires cwd.Some? ==> IsAbsolute(cwd.value)
      ensures Valid()
      ensures this.files == files && this.dirs == dirs && this.denied == denied && this.cwd == cwd
    {
      this.files := files;
      this.dirs := dirs;
      this.denied := denied;
      this.cwd := cwd;
    }

    /** A regular file may be created or overwritten at this cleaned path. */
    predicate Writable(key: string)
      reads this`dirs
    {
      key !in denied && key !in dirs
    }

    /** `os.WriteFile(path, data, 0644)`: creates or truncates, then writes. */
    method WriteFile(path: string, data: Bytes) returns (ok: bool)
      requires Valid()
      modifies this`files
      ensures Valid()
      ensures ok <==> Writable(Clean(path))
      ensures ok ==> files == old(files)[Clean(path) := data]
      ensures !ok ==> files == old(files)
    {
      var key := Clean(path);
      if key in denied || key in dirs {
        return false;
      }
      files := files[key := data];
      return true;
    }

    /**
     * `os.MkdirAll(path, 0755)`: succeeds when the directory exists already
     * or can be created; fails when a file is in the way or creation is denied.
     */
    predicate CanMakeDir(key: string)
      reads this
    {
      key in dirs || (key !in files && key !in denied)
    }

    method MkdirAll(path: string) returns (ok: bool)
      requires Valid()
      modifies this`dirs
      ensures Valid()
      ensures ok <==> old(CanMakeDir(Clean(path)))
      ensures ok ==> dirs == old(dirs) + {Clean(path)}
      ensures !ok ==> dirs == old(dirs)
    {
      var key := Clean(path);
      if key in dirs {
        return true;
      }
      if key in files || key in denied {
        return false;
      }
      dirs := dirs + {key};
      return true;
    }

    /**
     * `os.Remove(path)` on a regular file: fails when there is none, and
     * fails leaving the file in place where the path is denied.
     */
    method Remove(path: string) returns (ok: bool)
      requires Valid()
      modifies this`files
      ensures Valid()
      ensures ok <==> Clean(path) in old(files) && Clean(path) !in denied
      ensures Clean(path) !in denied ==> files == old(files) - {Clean(path)} && Clean(path) !in files
      ensures Clean(path) in denied ==> files == old(files)
    {
      var key := Clean(path);
      if key in denied {
        return false;
      }
      ok := key in files;
      files := files - {key};
    }

    /** The part of a batch of writes (keyed by cleaned path) that can land. */
    function Permitted(writes: map<string, Bytes>): (r: map<string, Bytes>)
      reads this`dirs
      ensures r.Keys <= writes.Keys
      ensures forall k :: k in r ==> Writable(k) && r[k] == writes[k]
      ensures forall k :: k in writes && Writable(k) ==> k in r
    {
      map k | k in writes && Writable(k) :: writes[k]
    }

    /** Applies the files an external process wrote. */
    method Store(writes: map<string, Bytes>)
      requires Valid()
      modifies this`files
      ensures Valid()
      ensures files == old(files) + old(Permitted(writes))
    {
      files := files + Permitted(writes);
    }
  }
}

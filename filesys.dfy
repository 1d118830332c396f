/**
 * The part of the file system the services touch, as the set of paths that
 * exist. File contents are not modelled: the scripts written to disk are
 * constants.
 */
module FileSys {
  /** `path.join(dir, name)` for a single path component `name`. */
  function PathJoin(dir: string, name: string): string {
    dir + "/" + name
  }

  /** The paths left after `fs.unlinkSync(p)`; `denied` stands for a failure other than a missing file. */
  function Unlinked(paths: set<string>, p: string, denied: bool): (after: set<string>)
    ensures p !in paths || denied ==> after == paths
    ensures p in paths && !denied ==> p !in after && after + {p} == paths
  {
    if p in paths && !denied then paths - {p} else paths
  }

  class FileSystem {
    var paths: set<string>

    constructor (existing: set<string>)
      ensures paths == existing
    {
      paths := existing;
    }

    /** `fs.existsSync(p)`. */
    predicate Exists(p: string)
      reads this
    {
      p in paths
    }

    /** `fs.mkdirSync(dir, { recursive: true })`; `ok` is false where the call throws. */
    method MakeDirectory(dir: string, fails: bool) returns (ok: bool)
      modifies this
      ensures ok == !fails
      ensures paths == if ok then old(paths) + {dir} else old(paths)
    {
      ok := !fails;
      if ok {
        paths := paths + {dir};
      }
    }

    /** `fs.writeFileSync(p, ...)`: creates the file or overwrites it; `ok` is false where the call throws. */
    method WriteFile(p: string, fails: bool) returns (ok: bool)
      modifies this
      ensures ok == !fails
      ensures paths == if ok then old(paths) + {p} else old(paths)
    {
      ok := !fails;
      if ok {
        paths := paths + {p};
      }
    }

    /** `fs.unlinkSync(p)`; `ok` is false where the call throws. */
    method Unlink(p: string, denied: bool) returns (ok: bool)
      modifies this
      ensures ok <==> p in old(paths) && !denied
      ensures paths == Unlinked(old(paths), p, denied)
    {
      ok := p in paths && !denied;
      paths := Unlinked(paths, p, denied);
    }
  }
}

/**
 * The filesystem as the core sees it: a map from path to node. Directories
 * are implicit (a path exists when some file lies under it), so creating a
 * parent directory never changes the map; removing a directory removes every
 * file under it.
 */
module Files {

  newtype byte = x: int | 0 <= x < 256

  /** What opening a path finds. `Unopenable` stands for a path whose open (or
      stat) fails with an error code; `Unreadable` for a file that opens and
      stats (size and modification time known) but whose read fails. A path
      missing from the map is ENOENT. */
  datatype Node =
    | File(data: seq<byte>, mtime: int)
    | Unopenable(code: string)
    | Unreadable(size: nat, mtime: int, code: string)

  class FileSystem {
    var files: map<string, Node>

    constructor (initial: map<string, Node>)
      ensures files == initial
    {
      files := initial;
    }
  }

  /** `p` is `root` itself or lies in the directory `root`. */
  predicate Under(p: string, root: string)
  {
    p == root || (|root + "/"| <= |p| && p[..|root + "/"|] == root + "/")
  }

  /** The files left after `fs.remove(root)`: the tree under `root` is gone,
      every other file is untouched. */
  function RemoveTree(files: map<string, Node>, root: string): (r: map<string, Node>)
    ensures forall p :: p in r <==> p in files && !Under(p, root)
    ensures forall p :: p in r ==> r[p] == files[p]
  {
    map p | p in files && !Under(p, root) :: files[p]
  }
}

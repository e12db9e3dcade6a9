/** The file system as a value: every existing path maps to a node. A directory lists its entry
    names in the order the operating system enumerates them (os.listdir, iterdir, os.walk). */
module FileSystem {
  import opened Paths

  newtype byte = b: int | 0 <= b < 256

  datatype Node =
    | File(content: seq<byte>, mtime: int)
    | Dir(entries: seq<string>, mtime: int)

  type Fs = map<Path, Node>

  /** Path.is_dir(): false for a missing path. */
  predicate IsDir(fs: Fs, p: Path) { p in fs && fs[p].Dir? }

  /** Path.is_file(): false for a missing path. */
  predicate IsFile(fs: Fs, p: Path) { p in fs && fs[p].File? }

  /** Names that iterdir() yields, in order; nothing for a non-directory. */
  function Entries(fs: Fs, d: Path): seq<string>
  {
    if IsDir(fs, d) then fs[d].entries else []
  }

  /** The entries of `d` that are directories, in enumeration order. */
  function SubdirNames(fs: Fs, d: Path): (r: seq<string>)
    ensures forall n :: n in r <==> n in Entries(fs, d) && IsDir(fs, Child(d, n))
  {
    FilterDirs(fs, d, Entries(fs, d))
  }

  function FilterDirs(fs: Fs, d: Path, names: seq<string>): (r: seq<string>)
    ensures forall n :: n in r <==> n in names && IsDir(fs, Child(d, n))
    decreases |names|
  {
    if names == [] then []
    else
      var n := names[|names| - 1];
      FilterDirs(fs, d, names[..|names| - 1]) + (if IsDir(fs, Child(d, n)) then [n] else [])
  }

  /** One more entry: it is kept exactly when it is a directory. */
  lemma FilterDirsStep(fs: Fs, d: Path, names: seq<string>, i: nat)
    requires i < |names|
    ensures FilterDirs(fs, d, names[..i + 1]) ==
      FilterDirs(fs, d, names[..i]) + (if IsDir(fs, Child(d, names[i])) then [names[i]] else [])
  {
    assert names[..i + 1][..i] == names[..i];
  }

  /** A directory none of whose entries is itself a directory. */
  predicate IsLeaf(fs: Fs, d: Path)
  {
    forall k :: 0 <= k < |Entries(fs, d)| ==> !IsDir(fs, Child(d, Entries(fs, d)[k]))
  }

  /** utils.is_recent_than: a missing destination is always stale; otherwise it is stale when
      its modification time is not later than the source's. */
  predicate IsRecentThan(fs: Fs, src: Path, dst: Path)
    requires src in fs
  {
    dst !in fs || fs[dst].mtime <= fs[src].mtime
  }
}

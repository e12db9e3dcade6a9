/** POSIX pathlib paths: a path is absolute or relative plus its normalised components
    (no empty component, no "."). */
module Paths {
  import opened Strings

  datatype Path = Path(absolute: bool, parts: seq<string>)

  /** A component pathlib keeps after normalisation. */
  predicate IsComponent(c: string) { c != "" && c != "." && '/' !in c }

  predicate Normalised(p: Path)
  {
    forall k :: 0 <= k < |p.parts| ==> IsComponent(p.parts[k])
  }

  /** PurePath.name: the final component, "" for "." and "/". */
  function Name(p: Path): string
  {
    if p.parts == [] then "" else p.parts[|p.parts| - 1]
  }

  /** PurePath.parent: "." and "/" are their own parents. */
  function Parent(p: Path): (r: Path)
    ensures r.absolute == p.absolute
    ensures p.parts != [] ==> |r.parts| == |p.parts| - 1
  {
    if p.parts == [] then p else Path(p.absolute, p.parts[..|p.parts| - 1])
  }

  /** `p / c` for a single component (joining "" leaves the path as it is). */
  function Child(p: Path, c: string): (r: Path)
    ensures c != "" ==> Name(r) == c && Parent(r) == p
  {
    if c == "" then p else Path(p.absolute, p.parts + [c])
  }

  /** `p / q`: an absolute right operand replaces the left one. */
  function Concat(p: Path, q: Path): Path
  {
    if q.absolute then q else Path(p.absolute, p.parts + q.parts)
  }

  /** Path(s) for a POSIX string: empty components and "." are dropped. */
  function Parse(s: string): Path
  {
    Path(StartsWith(s, "/"), Components(Split(s, '/')))
  }

  function Components(pieces: seq<string>): seq<string>
  {
    if pieces == [] then []
    else if pieces[0] == "" || pieces[0] == "." then Components(pieces[1..])
    else [pieces[0]] + Components(pieces[1..])
  }

  /** PurePath.parts: an absolute path starts with the root "/". */
  function PyParts(p: Path): seq<string>
  {
    (if p.absolute then ["/"] else []) + p.parts
  }

  /** as_posix() and str(). */
  function AsPosix(p: Path): string
  {
    if p.absolute then "/" + Join(p.parts, "/")
    else if p.parts == [] then "."
    else Join(p.parts, "/")
  }

  /** list(p.parents): the ancestors from the nearest, ending at "." or "/". */
  function Parents(p: Path): (r: seq<Path>)
    ensures |r| == |p.parts|
    ensures forall k :: 0 <= k < |r| ==> r[k] == Path(p.absolute, p.parts[..|p.parts| - 1 - k])
  {
    seq(|p.parts|, k requires 0 <= k < |p.parts| => Path(p.absolute, p.parts[..|p.parts| - 1 - k]))
  }

  /** The index pathlib uses to split a name into stem and suffix, or -1 when there is no suffix. */
  function SuffixStart(name: string): (i: int)
    ensures i == -1 || (0 < i < |name| - 1 && name[i] == '.')
  {
    var i := LastIndexOf(name, '.');
    if 0 < i < |name| - 1 then i else -1
  }

  /** PurePath.suffix. */
  function Suffix(name: string): (r: string)
    ensures r == "" || (|r| >= 2 && r[0] == '.' && '.' !in r[1..])
  {
    var i := SuffixStart(name);
    if i == -1 then "" else
      var tail := name[i + 1..];
      assert forall j :: 0 <= j < |tail| ==> tail[j] == name[i + 1 + j];
      assert name[i..][1..] == tail;
      name[i..]
  }

  /** PurePath.stem. */
  function Stem(name: string): (r: string)
    ensures r + Suffix(name) == name
  {
    var i := SuffixStart(name);
    if i == -1 then name else
      assert name[..i] + name[i..] == name;
      name[..i]
  }

  function LStripDots(s: string): (r: string)
    ensures r == "" || r[0] != '.'
  {
    if s != [] && s[0] == '.' then LStripDots(s[1..]) else s
  }

  /** PurePath.suffixes. */
  function Suffixes(name: string): (r: seq<string>)
    ensures forall k :: 0 <= k < |r| ==> r[k] != "" && r[k][0] == '.'
  {
    if EndsWith(name, ".") then []
    else DotEach(Split(LStripDots(name), '.')[1..])
  }

  function DotEach(xs: seq<string>): (r: seq<string>)
    ensures |r| == |xs|
    ensures forall k :: 0 <= k < |r| ==> r[k] == "." + xs[k]
  {
    if xs == [] then [] else ["." + xs[0]] + DotEach(xs[1..])
  }

  /** The suffixes with_suffix accepts: empty, or a dot followed by something, without a separator. */
  predicate ValidSuffix(s: string)
  {
    s == "" || (|s| >= 2 && s[0] == '.' && '/' !in s)
  }

  /** PurePath.with_suffix: the stem keeps everything before the old suffix. */
  function WithSuffix(p: Path, s: string): (r: Path)
    requires Name(p) != ""
    requires ValidSuffix(s)
    ensures Parent(r) == Parent(p)
    ensures Name(r) == Stem(Name(p)) + s
  {
    Path(p.absolute, Parent(p).parts + [Stem(Name(p)) + s])
  }

  /** Replacing the suffix with another valid, dot-free suffix makes it the new suffix. */
  lemma WithSuffixSetsSuffix(p: Path, s: string)
    requires Name(p) != ""
    requires ValidSuffix(s) && s != "" && '.' !in s[1..]
    requires Stem(Name(p)) != ""
    ensures Suffix(Name(WithSuffix(p, s))) == s
  {
    var n := Stem(Name(p)) + s;
    var i := |Stem(Name(p))|;
    assert n[i] == '.';
    assert forall j :: i < j < |n| ==> n[j] == s[j - i];
    assert forall j :: i < j < |n| ==> n[j] != '.' by {
      forall j | i < j < |n| ensures n[j] != '.' {
        assert s[1..][j - i - 1] == s[j - i];
      }
    }
    assert LastIndexOf(n, '.') == i;
  }

  /** No element of suffixes is a bare word: each starts with a dot. */
  lemma SuffixesNeverBare(name: string, word: string)
    requires word == "" || word[0] != '.'
    ensures word !in Suffixes(name)
  {
  }
}

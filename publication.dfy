/** The publication addresses of an asset (the `ndc_config` of asset.py and playground/schema.py):
    its semantic URI, its download URL and the URL of the directory that holds it. */
module Publication {
  import opened Wrappers
  import opened Strings
  import opened Paths

  const NdcUri := "https://w3id.org/italia/schema/"
  /** `"./assets/schemas"` as a Path: the leading "." is dropped. */
  const SchemasDir := Path(false, ["assets", "schemas"])
  const PublicationBranch := "master"

  /** A URL template with one `{publication_branch}` placeholder between two literal parts. */
  datatype Template = Template(before: string, after: string)

  const AccessTemplate := Template("https://github.com/ioggstream/json-semantic-playground/tree/", "/")
  const DownloadTemplate := Template("https://raw.githubusercontent.com/ioggstream/json-semantic-playground/", "/")

  /** `template.format(publication_branch=branch)`. */
  function Format(t: Template, branch: string): (r: string)
    ensures StartsWith(r, t.before) && EndsWith(r, t.after)
    ensures |r| == |t.before| + |branch| + |t.after|
  {
    assert (t.before + branch + t.after)[..|t.before|] == t.before;
    assert (t.before + branch + t.after)[|t.before| + |branch|..] == t.after;
    t.before + branch + t.after
  }

  /** PurePath.relative_to: the rest of `p` when `base` is a prefix of it with the same anchor,
      None where pathlib raises ValueError. */
  function RelativeTo(p: Path, base: Path): (r: Option<Path>)
    ensures r.Some? <==> p.absolute == base.absolute && |base.parts| <= |p.parts| && p.parts[..|base.parts|] == base.parts
    ensures r.Some? ==> !r.value.absolute && base.parts + r.value.parts == p.parts
  {
    if p.absolute == base.absolute && |base.parts| <= |p.parts| && p.parts[..|base.parts|] == base.parts then
      assert base.parts + p.parts[|base.parts|..] == p.parts;
      Some(Path(false, p.parts[|base.parts|..]))
    else None
  }

  /** Asset.uri: NDC_URI followed by the path inside the schemas directory, or by the whole path
      when it lies elsewhere. */
  function Uri(p: Path): string
  {
    match RelativeTo(p, SchemasDir)
    case Some(rest) => NdcUri + AsPosix(rest)
    case None => NdcUri + AsPosix(p)
  }

  /** A schema below `assets/schemas` is published under NDC_URI without that prefix; any other
      relative path keeps its whole text. */
  lemma UriMeaning(p: Path, q: Path)
    requires !q.absolute
    ensures Uri(Concat(SchemasDir, q)) == NdcUri + AsPosix(q)
    ensures (p.absolute || |p.parts| < 2 || p.parts[0] != "assets" || p.parts[1] != "schemas") ==>
      Uri(p) == NdcUri + AsPosix(p)
  {
    var c := Concat(SchemasDir, q);
    assert c.parts[..2] == SchemasDir.parts;
    assert c.parts[2..] == q.parts;
    if !p.absolute && |p.parts| >= 2 && p.parts[..2] == SchemasDir.parts {
      assert p.parts[0] == p.parts[..2][0] && p.parts[1] == p.parts[..2][1];
    }
  }

  /** Asset.download_url: the formatted download base followed by the path. */
  function DownloadUrl(p: Path): string
  {
    Format(DownloadTemplate, PublicationBranch) + AsPosix(p)
  }

  /** Asset.access_url: the formatted browsing base followed by the asset's directory. */
  function AccessUrl(p: Path): string
  {
    Format(AccessTemplate, PublicationBranch) + AsPosix(Parent(p))
  }

  /** Both URLs end with the asset's location: the file for downloads, its directory for access;
      files of one directory share their access URL. */
  lemma UrlsMeaning(d: Path, n: string, m: string)
    requires n != "" && m != ""
    ensures EndsWith(DownloadUrl(Child(d, n)), AsPosix(Child(d, n)))
    ensures StartsWith(DownloadUrl(Child(d, n)), DownloadTemplate.before + PublicationBranch + "/")
    ensures AccessUrl(Child(d, n)) == AccessUrl(Child(d, m)) == Format(AccessTemplate, PublicationBranch) + AsPosix(d)
  {
    var base := Format(DownloadTemplate, PublicationBranch);
    var s := AsPosix(Child(d, n));
    assert (base + s)[|base + s| - |s|..] == s;
    assert (base + s)[..|base|] == base;
    assert base == DownloadTemplate.before + PublicationBranch + "/";
  }
}

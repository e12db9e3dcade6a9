/** Every checked file must be well-formed UTF-8 (validators/utf8_file_encoding.py). */
module Utf8Encoding {
  import opened Wrappers
  import opened Strings
  import opened Paths
  import opened FileSystem
  import opened ErrorLog
  import opened Utf8

  const ExcludedExtensions: seq<string> := [".md", ".png"]

  /** Directories and the excluded names are not read. */
  predicate Skipped(fs: Fs, fpath: Path)
  {
    IsDir(fs, fpath) || EndsWithAny(Name(fpath), ExcludedExtensions)
  }

  function NotUtf8Message(fpath: Path): string
  {
    "The file " + Quote(AsPosix(fpath)) + " is not encoded in UTF-8"
  }

  /** The FileNotFoundError that open() raises for a missing file. */
  function NotFoundText(fpath: Path): string
  {
    "[Errno 2] No such file or directory: " + Quote(AsPosix(fpath))
  }

  /** What validate does: the messages it appends, or the error it lets through. */
  function EncodingReport(fs: Fs, fpath: Path): Result<seq<string>>
  {
    if Skipped(fs, fpath) then Ok([])
    else if fpath !in fs then Raise(NotFoundText(fpath))
    else if WellFormed(fs[fpath].content) then Ok([])
    else Ok([NotUtf8Message(fpath)])
  }

  /** A checked existing file passes exactly when its whole content is well-formed UTF-8, which is
      exactly when it is the encoding of some sequence of scalar values. */
  lemma EncodingReportMeaning(fs: Fs, fpath: Path)
    requires !Skipped(fs, fpath) && fpath in fs
    ensures EncodingReport(fs, fpath).Ok?
    ensures EncodingReport(fs, fpath).value == [] <==>
      exists cps :: (forall i :: 0 <= i < |cps| ==> IsScalar(cps[i])) && Encode(cps) == fs[fpath].content
  {
    var content := fs[fpath].content;
    if WellFormed(content) {
      DecodedIsEncoding(content);
    }
    if exists cps :: (forall i :: 0 <= i < |cps| ==> IsScalar(cps[i])) && Encode(cps) == content {
      var cps :| (forall i :: 0 <= i < |cps| ==> IsScalar(cps[i])) && Encode(cps) == content;
      DecodeEncode(cps);
    }
  }

  /** utf8_file_encoding.validate. */
  method Validate(fs: Fs, fpath: Path, log: Errors) returns (r: Result<bool>)
    modifies log
    ensures EncodingReport(fs, fpath).Raise? ==>
      r == Raise(EncodingReport(fs, fpath).error) && log.entries == old(log.entries)
    ensures EncodingReport(fs, fpath).Ok? ==>
      r == Ok(EncodingReport(fs, fpath).value == []) &&
      log.entries == old(log.entries) + EncodingReport(fs, fpath).value
  {
    if IsDir(fs, fpath) || EndsWithAny(Name(fpath), ExcludedExtensions) {
      return Ok(true);
    }
    if fpath !in fs {
      return Raise(NotFoundText(fpath));
    }
    if Decode(fs[fpath].content).Some? {
      return Ok(true);
    }
    log.Append(NotUtf8Message(fpath));
    return Ok(false);
  }

  /** A lone continuation byte is rejected; a two-byte character is accepted. */
  lemma EncodingExamples()
    ensures !WellFormed([0x80])
    ensures WellFormed([0xC3, 0xA8])
  {
    var e: seq<byte> := [0xC3, 0xA8];
    assert CharLen(e) == 2;
    assert e[2..] == [];
  }
}

/** CSV field-name and frictionless-report checks: the validator (validators/csv.py) and the
    older asset check is_csv (dati_playground/csv.py). Frictionless itself is a parameter: the
    resource lists of the datapackage files and the reports it produces. */
module CsvCheck {
  import opened Wrappers
  import opened Strings
  import opened Paths
  import opened FileSystem
  import opened ErrorLog

  /** re.match of `^[a-zA-Z0-9_]{2,64}$`. */
  predicate FieldNameOk(s: string)
  {
    var body := BeforeDollar(s);
    2 <= |body| <= 64 && forall i :: 0 <= i < |body| ==> IsWordChar(body[i])
  }

  /** The datapackage files looked for, in order. */
  function Candidates(fpath: Path): seq<Path>
  {
    var d := Parent(fpath);
    [Child(d, "datapackage.json"), Child(d, "datapackage.yaml"), Child(d, "datapackage.yml")]
  }

  /** The package file and the index of the resource describing the file. */
  datatype Found = Found(package: Path, index: nat)

  /** The first existing candidate, in order, with a resource whose path is the name, and the
      first such resource in it. */
  function FindResource(fs: Fs, cands: seq<Path>, name: string, resources: Path -> seq<string>): (r: Option<Found>)
    ensures r.Some? ==> (r.value.package in cands && r.value.package in fs &&
      r.value.index < |resources(r.value.package)| && resources(r.value.package)[r.value.index] == name)
    ensures r.None? <==> forall c :: c in cands && c in fs ==> name !in resources(c)
  {
    if cands == [] then None
    else if cands[0] in fs && name in resources(cands[0]) then
      Some(Found(cands[0], IndexOf(resources(cands[0]), name)))
    else FindResource(fs, cands[1..], name, resources)
  }

  function IndexOf(xs: seq<string>, x: string): (k: nat)
    requires x in xs
    ensures k < |xs| && xs[k] == x && x !in xs[..k]
  {
    if xs[0] == x then 0 else 1 + IndexOf(xs[1..], x)
  }

  /** _get_resource: the outer loop over existing candidates, the inner one over their resources. */
  method GetResource(fs: Fs, fpath: Path, resources: Path -> seq<string>) returns (r: Option<Found>)
    ensures r == FindResource(fs, Candidates(fpath), Name(fpath), resources)
  {
    r := SearchPackages(fs, Candidates(fpath), Name(fpath), resources);
  }

  method SearchPackages(fs: Fs, cands: seq<Path>, name: string, resources: Path -> seq<string>) returns (r: Option<Found>)
    ensures r == FindResource(fs, cands, name, resources)
  {
    for i := 0 to |cands|
      invariant FindResource(fs, cands, name, resources) == FindResource(fs, cands[i..], name, resources)
    {
      assert cands[i..][0] == cands[i] && cands[i..][1..] == cands[i + 1..];
      if cands[i] in fs {
        var k := FirstIndex(resources(cands[i]), name);
        if k.Some? {
          return Some(Found(cands[i], k.value));
        }
      }
    }
    return None;
  }

  /** The inner loop: the position of the first resource whose path is the name. */
  method FirstIndex(rs: seq<string>, name: string) returns (k: Option<nat>)
    ensures k.None? <==> name !in rs
    ensures k.Some? ==> name in rs && k.value == IndexOf(rs, name)
  {
    for j := 0 to |rs|
      invariant name !in rs[..j]
    {
      if rs[j] == name {
        FirstOccurrence(rs, name, j);
        return Some(j);
      }
      assert rs[..j + 1] == rs[..j] + [rs[j]];
    }
    assert rs[..|rs|] == rs;
    return None;
  }

  lemma FirstOccurrence(xs: seq<string>, x: string, j: nat)
    requires j < |xs| && xs[j] == x && x !in xs[..j]
    ensures IndexOf(xs, x) == j
  {
  }

  /** A frictionless report: valid or not, the first element of each flattened error row, and the
      labels (or field names) of each task. */
  datatype Report = Report(valid: bool, messages: seq<string>, labels: seq<seq<string>>)

  function Flatten(xss: seq<seq<string>>): seq<string>
  {
    if xss == [] then [] else xss[0] + Flatten(xss[1..])
  }

  function BadFieldText(field: string): string
  {
    "Invalid field name for publication: " + field
  }

  /** One entry per label that breaks the field-name rule, in order. */
  function BadFields(labels: seq<string>): (r: seq<string>)
    ensures |r| <= |labels|
  {
    if labels == [] then []
    else (if FieldNameOk(labels[0]) then [] else [BadFieldText(labels[0])]) + BadFields(labels[1..])
  }

  /** The entries gathered by validate: the report's errors, then, without a datapackage, the bad
      field names. */
  function Entries(found: Option<Found>, report: Report): seq<string>
  {
    (if report.valid then [] else report.messages) +
    (if found.None? then BadFields(Flatten(report.labels)) else [])
  }

  function CsvMessage(fpath: Path, entries: seq<string>): string
  {
    "Invalid file: " + AsPosix(fpath) + ": " + "\n\t" + Join(entries, "\n\t")
  }

  /** What validators/csv.validate appends. */
  function CsvReport(fpath: Path, found: Option<Found>, report: Report): seq<string>
  {
    var entries := Entries(found, report);
    if entries == [] then [] else [CsvMessage(fpath, entries)]
  }

  /** A file fails exactly when the report has an error row or, without a datapackage, some label
      breaks the field-name rule; all of them go into one message. */
  lemma CsvReportMeaning(fpath: Path, found: Option<Found>, report: Report)
    ensures |CsvReport(fpath, found, report)| <= 1
    ensures CsvReport(fpath, found, report) != [] <==>
      (!report.valid && report.messages != []) ||
      (found.None? && exists l :: l in Flatten(report.labels) && !FieldNameOk(l))
  {
    BadFieldsEmpty(Flatten(report.labels));
  }

  lemma {:induction false} BadFieldsEmpty(labels: seq<string>)
    ensures BadFields(labels) == [] <==> forall l :: l in labels ==> FieldNameOk(l)
    decreases |labels|
  {
    if labels != [] {
      BadFieldsEmpty(labels[1..]);
      assert forall l :: l in labels <==> l == labels[0] || l in labels[1..];
    }
  }

  /** validators/csv.validate: `report` gives frictionless' report for the resource found, or for
      the bare file. */
  method Validate(fs: Fs, fpath: Path, resources: Path -> seq<string>, report: Option<Found> -> Report, log: Errors)
    returns (ok: bool)
    modifies log
    ensures var found := FindResource(fs, Candidates(fpath), Name(fpath), resources);
      (ok <==> CsvReport(fpath, found, report(found)) == []) &&
      log.entries == old(log.entries) + CsvReport(fpath, found, report(found))
  {
    var found := GetResource(fs, fpath, resources);
    var rep := report(found);
    var current: seq<string> := [];
    if !rep.valid {
      current := rep.messages;
    }
    if found.None? {
      var bad := CollectBadFields(Flatten(rep.labels));
      current := current + bad;
    }
    assert current == Entries(found, rep);
    if current != [] {
      log.Append(CsvMessage(fpath, current));
      return false;
    }
    return true;
  }

  /** The loop over the labels of every task. */
  method CollectBadFields(labels: seq<string>) returns (bad: seq<string>)
    ensures bad == BadFields(labels)
  {
    bad := [];
    for i := 0 to |labels|
      invariant bad == BadFields(labels[..i])
    {
      assert labels[..i + 1] == labels[..i] + [labels[i]];
      BadFieldsAppend(labels[..i], labels[i]);
      if !FieldNameOk(labels[i]) {
        bad := bad + [BadFieldText(labels[i])];
      }
    }
    assert labels[..|labels|] == labels;
  }

  lemma {:induction false} BadFieldsAppend(labels: seq<string>, l: string)
    ensures BadFields(labels + [l]) == BadFields(labels) + (if FieldNameOk(l) then [] else [BadFieldText(l)])
    decreases |labels|
  {
    if labels != [] {
      assert (labels + [l])[1..] == labels[1..] + [l];
      BadFieldsAppend(labels[1..], l);
    }
  }

  /** The value of `current_errors` in is_csv: nothing yet (an empty dict), the flattened report
      rows, or the one bad field name. */
  datatype Current = NoneYet | Rows(rows: seq<seq<string>>) | BadField(name: string)

  predicate Truthy(c: Current)
  {
    match c
    case NoneYet => false
    case Rows(rows) => rows != []
    case BadField(_) => true
  }

  /** One entry of is_csv's local errors list: `{path: current_errors}`. */
  datatype ErrorEntry = ErrorEntry(path: string, current: Current)

  datatype IsCsvOutcome = ReturnedReport | RaisedValueError(errors: seq<ErrorEntry>)

  /** The last field name breaking the rule, if any. */
  function LastBad(names: seq<string>): (r: Option<string>)
    ensures r.Some? ==> r.value in names && !FieldNameOk(r.value)
    ensures r.None? <==> forall n :: n in names ==> FieldNameOk(n)
  {
    if names == [] then None
    else if !FieldNameOk(names[|names| - 1]) then Some(names[|names| - 1])
    else
      var r := LastBad(names[..|names| - 1]);
      assert forall n :: n in names ==> n in names[..|names| - 1] || n == names[|names| - 1];
      r
  }

  /** is_csv, as written: an invalid report is recorded, every bad field name overwrites what was
      recorded, and anything truthy is recorded again before ValueError is raised. */
  function IsCsvResult(fpath: Path, valid: bool, rows: seq<seq<string>>, names: seq<string>): IsCsvOutcome
  {
    var first := if valid then [] else [ErrorEntry(AsPosix(fpath), Rows(rows))];
    var current := if LastBad(names).Some? then BadField(LastBad(names).value)
                   else if valid then NoneYet else Rows(rows);
    if Truthy(current) then RaisedValueError(first + [ErrorEntry(AsPosix(fpath), current)])
    else ReturnedReport
  }

  /** The consequences the test suite relies on: a bad field name raises with that name last, an
      invalid report with good names is listed twice, and a valid report with good names returns. */
  lemma IsCsvMeaning(fpath: Path, valid: bool, rows: seq<seq<string>>, names: seq<string>)
    ensures LastBad(names).Some? ==>
      IsCsvResult(fpath, valid, rows, names).RaisedValueError? &&
      var es := IsCsvResult(fpath, valid, rows, names).errors;
      es[|es| - 1] == ErrorEntry(AsPosix(fpath), BadField(LastBad(names).value))
    ensures LastBad(names).None? && !valid && rows != [] ==>
      IsCsvResult(fpath, valid, rows, names) ==
        RaisedValueError([ErrorEntry(AsPosix(fpath), Rows(rows)), ErrorEntry(AsPosix(fpath), Rows(rows))])
    ensures IsCsvResult(fpath, valid, rows, names).ReturnedReport? <==>
      LastBad(names).None? && (valid || rows == [])
  {
  }

  /** The loop over the field names of is_csv: what the last overwrite leaves. */
  method LastBadField(names: seq<string>) returns (b: Option<string>)
    ensures b == LastBad(names)
  {
    b := None;
    for i := 0 to |names|
      invariant b == LastBad(names[..i])
    {
      assert names[..i + 1][..i] == names[..i];
      if !FieldNameOk(names[i]) {
        b := Some(names[i]);
      }
    }
    assert names[..|names|] == names;
  }

  /** is_csv: `report` gives the frictionless validation of the resource found; `rows` its
      flattened rows and the field names of its tasks. */
  method IsCsv(fs: Fs, fpath: Path, resources: Path -> seq<string>, valid: Option<Found> -> bool,
               rows: Option<Found> -> seq<seq<string>>, names: Option<Found> -> seq<string>)
    returns (r: IsCsvOutcome)
    ensures var found := FindResource(fs, Candidates(fpath), Name(fpath), resources);
      r == IsCsvResult(fpath, valid(found), rows(found), names(found))
  {
    var found := GetResource(fs, fpath, resources);
    var errors: seq<ErrorEntry> := [];
    var current := NoneYet;
    var fieldNames := names(found);
    if !valid(found) {
      current := Rows(rows(found));
      errors := errors + [ErrorEntry(AsPosix(fpath), current)];
    }
    assert errors == if valid(found) then [] else [ErrorEntry(AsPosix(fpath), Rows(rows(found)))];
    var bad := LastBadField(fieldNames);
    if bad.Some? {
      current := BadField(bad.value);
    }
    assert current == if LastBad(fieldNames).Some? then BadField(LastBad(fieldNames).value)
                      else if valid(found) then NoneYet else Rows(rows(found));
    if Truthy(current) {
      errors := errors + [ErrorEntry(AsPosix(fpath), current)];
      return RaisedValueError(errors);
    }
    return ReturnedReport;
  }
}

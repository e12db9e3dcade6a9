/** distutils' LooseVersion as the versioned-directory checks use it: a version string splits
    into digit runs (compared as integers), lower-case letter runs and any other text between
    them (compared as strings); dots only separate. Comparing an integer with a string raises
    TypeError, as Python 3 list comparison does. */
module LooseVersion {
  import opened Wrappers
  import opened Strings

  datatype Component = Num(n: nat) | Word(w: string)

  datatype CharClass = DigitClass | LowerClass | GapClass

  function ClassOf(c: char): Option<CharClass>
  {
    if IsDigit(c) then Some(DigitClass)
    else if IsLowerAlpha(c) then Some(LowerClass)
    else if c == '.' then None
    else Some(GapClass)
  }

  /** The length of the leading run of characters of the given class. */
  function RunLen(v: string, k: CharClass): (n: nat)
    ensures n <= |v|
    ensures forall i :: 0 <= i < n ==> ClassOf(v[i]) == Some(k)
    ensures n < |v| ==> ClassOf(v[n]) != Some(k)
  {
    if v == [] || ClassOf(v[0]) != Some(k) then 0 else 1 + RunLen(v[1..], k)
  }

  /** int() of a run of ASCII digits. */
  function DigitsValue(s: string): nat
  {
    if s == [] then 0 else 10 * DigitsValue(s[..|s| - 1]) + (s[|s| - 1] as int - '0' as int) % 10
  }

  /** LooseVersion.parse: the components, left to right. */
  function Parse(v: string): seq<Component>
    decreases |v|
  {
    if v == [] then []
    else match ClassOf(v[0])
      case None => Parse(v[1..])
      case Some(k) =>
        var n := RunLen(v, k);
        var piece := v[..n];
        [if k == DigitClass then Num(DigitsValue(piece)) else Word(piece)] + Parse(v[n..])
  }

  datatype Order = Less | Same | Greater | Incomparable

  function Flip(o: Order): Order
  {
    match o
    case Less => Greater
    case Greater => Less
    case _ => o
  }

  function CompareInt(a: int, b: int): Order
  {
    if a < b then Less else if a == b then Same else Greater
  }

  /** Python str ordering: code point by code point, a proper prefix first. */
  function CompareStr(a: string, b: string): Order
  {
    if a == [] && b == [] then Same
    else if a == [] then Less
    else if b == [] then Greater
    else if a[0] < b[0] then Less
    else if a[0] > b[0] then Greater
    else CompareStr(a[1..], b[1..])
  }

  function CompareComponent(x: Component, y: Component): Order
  {
    match (x, y)
    case (Num(m), Num(n)) => CompareInt(m, n)
    case (Word(u), Word(w)) => CompareStr(u, w)
    case _ => Incomparable
  }

  /** Python list ordering: the first position where the lists differ decides; a proper
      prefix is smaller. */
  function Compare(a: seq<Component>, b: seq<Component>): Order
  {
    if a == [] && b == [] then Same
    else if a == [] then Less
    else if b == [] then Greater
    else if a[0] == b[0] then Compare(a[1..], b[1..])
    else CompareComponent(a[0], b[0])
  }

  lemma {:induction false} CompareStrLaws(a: string, b: string)
    ensures CompareStr(a, b) != Incomparable
    ensures CompareStr(a, b) == Same <==> a == b
    ensures CompareStr(b, a) == Flip(CompareStr(a, b))
  {
    if a != [] && b != [] && a[0] == b[0] {
      CompareStrLaws(a[1..], b[1..]);
      if a[1..] == b[1..] {
        assert a == [a[0]] + a[1..] && b == [b[0]] + b[1..];
      }
    }
  }

  lemma {:induction false} CompareStrTransitive(a: string, b: string, c: string)
    requires CompareStr(a, b) == Less && CompareStr(b, c) == Less
    ensures CompareStr(a, c) == Less
  {
    if a != [] && b != [] && c != [] && a[0] == b[0] && b[0] == c[0] {
      CompareStrTransitive(a[1..], b[1..], c[1..]);
    }
  }

  lemma CompareComponentLaws(x: Component, y: Component)
    ensures CompareComponent(x, y) == Same <==> x == y
    ensures CompareComponent(y, x) == Flip(CompareComponent(x, y))
  {
    if x.Word? && y.Word? {
      CompareStrLaws(x.w, y.w);
    }
  }

  lemma CompareComponentTransitive(x: Component, y: Component, z: Component)
    requires CompareComponent(x, y) == Less && CompareComponent(y, z) == Less
    ensures CompareComponent(x, z) == Less
  {
    if x.Word? {
      CompareStrTransitive(x.w, y.w, z.w);
    }
  }

  /** Same exactly for equal component lists; swapping the operands flips the order, and an
      incomparable pair stays incomparable. */
  lemma {:induction false} CompareLaws(a: seq<Component>, b: seq<Component>)
    ensures Compare(a, b) == Same <==> a == b
    ensures Compare(b, a) == Flip(Compare(a, b))
  {
    if a != [] && b != [] {
      CompareComponentLaws(a[0], b[0]);
      if a[0] == b[0] {
        CompareLaws(a[1..], b[1..]);
        if a[1..] == b[1..] {
          assert a == [a[0]] + a[1..] && b == [b[0]] + b[1..];
        }
      }
    }
  }

  lemma {:induction false} CompareTransitive(a: seq<Component>, b: seq<Component>, c: seq<Component>)
    requires Compare(a, b) == Less && Compare(b, c) == Less
    ensures Compare(a, c) == Less
  {
    if a != [] && b != [] && c != [] {
      CompareComponentLaws(a[0], b[0]);
      CompareComponentLaws(b[0], c[0]);
      if a[0] == b[0] && b[0] == c[0] {
        CompareTransitive(a[1..], b[1..], c[1..]);
      } else if a[0] != b[0] && b[0] != c[0] {
        CompareComponentTransitive(a[0], b[0], c[0]);
        CompareComponentLaws(a[0], c[0]);
      }
    }
  }

  predicate AtMost(a: seq<Component>, b: seq<Component>)
  {
    Compare(a, b) == Less || Compare(a, b) == Same
  }

  lemma AtMostTransitive(a: seq<Component>, b: seq<Component>, c: seq<Component>)
    requires AtMost(a, b) && AtMost(b, c)
    ensures AtMost(a, c)
  {
    CompareLaws(a, b);
    CompareLaws(b, c);
    if Compare(a, b) == Less && Compare(b, c) == Less {
      CompareTransitive(a, b, c);
    }
  }

  function Keys(names: seq<string>): (r: seq<seq<Component>>)
    ensures |r| == |names|
    ensures forall i :: 0 <= i < |names| ==> r[i] == Parse(names[i])
  {
    seq(|names|, i requires 0 <= i < |names| => Parse(names[i]))
  }

  predicate AllComparable(keys: seq<seq<Component>>)
  {
    forall i, j :: 0 <= i < |keys| && 0 <= j < |keys| ==> Compare(keys[i], keys[j]) != Incomparable
  }

  /** The element sorted(...)[-1] picks: no key is above it, and a stable sort puts every later
      key equal to it before it, so every later key is strictly below it. */
  predicate IsLastMaximum(keys: seq<seq<Component>>, m: nat)
  {
    && m < |keys|
    && (forall j :: 0 <= j < |keys| ==> AtMost(keys[j], keys[m]))
    && (forall j :: m < j < |keys| ==> Compare(keys[j], keys[m]) == Less)
  }

  /** The last maximum is unique. */
  lemma LastMaximumUnique(keys: seq<seq<Component>>, m: nat, m': nat)
    requires IsLastMaximum(keys, m) && IsLastMaximum(keys, m')
    ensures m == m'
  {
    if m < m' {
      CompareLaws(keys[m'], keys[m]);
    } else if m' < m {
      CompareLaws(keys[m], keys[m']);
    }
  }

  /** The index of the last maximum of orderable keys: where a stable ascending sort ends. */
  function LastMaxIndex(keys: seq<seq<Component>>): (m: nat)
    requires keys != []
    requires AllComparable(keys)
    ensures IsLastMaximum(keys, m)
  {
    if |keys| == 1 then
      CompareLaws(keys[0], keys[0]);
      0
    else
      var init := keys[..|keys| - 1];
      InitComparable(keys, init);
      var m := LastMaxIndex(init);
      LastMaxStep(keys, init, m);
      if Compare(keys[|keys| - 1], keys[m]) == Less then m else |keys| - 1
  }

  lemma InitComparable(keys: seq<seq<Component>>, init: seq<seq<Component>>)
    requires keys != [] && init == keys[..|keys| - 1] && AllComparable(keys)
    ensures AllComparable(init)
  {
    forall i, j | 0 <= i < |init| && 0 <= j < |init|
      ensures Compare(init[i], init[j]) != Incomparable
    {
      assert init[i] == keys[i] && init[j] == keys[j];
    }
  }

  /** Adding one key: the last maximum stays unless the new key is not below it. */
  lemma LastMaxStep(keys: seq<seq<Component>>, init: seq<seq<Component>>, m: nat)
    requires keys != [] && init == keys[..|keys| - 1] && AllComparable(keys)
    requires IsLastMaximum(init, m)
    ensures Compare(keys[|keys| - 1], keys[m]) == Less ==> IsLastMaximum(keys, m)
    ensures Compare(keys[|keys| - 1], keys[m]) != Less ==> IsLastMaximum(keys, |keys| - 1)
  {
    var last := keys[|keys| - 1];
    assert forall j :: 0 <= j < |init| ==> init[j] == keys[j];
    CompareLaws(last, keys[m]);
    if Compare(last, keys[m]) != Less {
      forall j | 0 <= j < |init| ensures AtMost(keys[j], last) {
        AtMostTransitive(keys[j], keys[m], last);
      }
      CompareLaws(last, last);
    }
  }

  const IndexErrorText := "list index out of range"
  const TypeErrorText := "'<' not supported between instances of 'int' and 'str'"

  /** sorted(LooseVersion(x) for x in names)[-1]: IndexError for no names, TypeError when two
      versions cannot be ordered, otherwise the index of the chosen name. */
  function HighestVersion(names: seq<string>): (r: Result<nat>)
    ensures names == [] <==> r == Raise(IndexErrorText)
    ensures names != [] && !AllComparable(Keys(names)) <==> r == Raise(TypeErrorText)
    ensures r.Ok? ==> IsLastMaximum(Keys(names), r.value)
    ensures names != [] && AllComparable(Keys(names)) ==> r.Ok?
  {
    if names == [] then Raise(IndexErrorText)
    else if !AllComparable(Keys(names)) then Raise(TypeErrorText)
    else Ok(LastMaxIndex(Keys(names)))
  }

  /** Leading zeros do not matter and "v1" ties with "v01". */
  lemma LeadingZerosTie()
    ensures Parse("v01") == Parse("v1") == [Word("v"), Num(1)]
  {
    var a := "v01";
    assert RunLen(a, LowerClass) == 1;
    assert a[..1] == "v" && a[1..] == "01";
    assert RunLen("01", DigitClass) == 2;
    assert "01"[..2] == "01" && "01"[2..] == "";
    assert DigitsValue("01") == 1 by {
      assert "01"[..1] == "0";
      assert "0"[..0] == "";
    }
    assert Parse("01") == [Num(1)];
    var b := "v1";
    assert RunLen(b, LowerClass) == 1;
    assert b[..1] == "v" && b[1..] == "1";
    assert RunLen("1", DigitClass) == 1;
    assert "1"[..1] == "1" && "1"[1..] == "";
    assert DigitsValue("1") == 1 by {
      assert "1"[..0] == "";
    }
    assert Parse("1") == [Num(1)];
  }

  /** Digit runs compare as integers: 1.10 is newer than 1.9. */
  lemma NumericOrder()
    ensures Parse("1.10") == [Num(1), Num(10)]
    ensures Parse("1.9") == [Num(1), Num(9)]
    ensures Compare(Parse("1.9"), Parse("1.10")) == Less
  {
    ParseOneTen();
    ParseOneNine();
    var x := [Num(1), Num(9)];
    var y := [Num(1), Num(10)];
    assert x[1..] == [Num(9)] && y[1..] == [Num(10)];
  }

  lemma ParseOneTen()
    ensures Parse("1.10") == [Num(1), Num(10)]
  {
    ParseTen();
    assert RunLen(".10", DigitClass) == 0;
    assert ".10"[1..] == "10";
    assert Parse(".10") == [Num(10)];
    assert DigitsValue("1") == 1 by {
      assert "1"[..0] == "";
    }
    assert RunLen("1.10", DigitClass) == 1;
    assert "1.10"[..1] == "1" && "1.10"[1..] == ".10";
  }

  lemma ParseTen()
    ensures Parse("10") == [Num(10)]
  {
    assert DigitsValue("10") == 10 by {
      assert "10"[..1] == "1";
      assert "1"[..0] == "";
    }
    assert RunLen("10", DigitClass) == 2;
    assert "10"[..2] == "10" && "10"[2..] == "";
  }

  lemma ParseOneNine()
    ensures Parse("1.9") == [Num(1), Num(9)]
  {
    assert DigitsValue("9") == 9 by {
      assert "9"[..0] == "";
    }
    assert RunLen("9", DigitClass) == 1;
    assert "9"[..1] == "9" && "9"[1..] == "";
    assert Parse("9") == [Num(9)];
    assert ".9"[1..] == "9";
    assert Parse(".9") == [Num(9)];
    assert DigitsValue("1") == 1 by {
      assert "1"[..0] == "";
    }
    assert RunLen("1.9", DigitClass) == 1;
    assert "1.9"[..1] == "1" && "1.9"[1..] == ".9";
  }

  /** A number against a word raises: "1.0" and "v1" cannot be ordered. */
  lemma NumberAgainstWord()
    ensures Compare(Parse("1.0"), Parse("v1")) == Incomparable
  {
    assert RunLen("1.0", DigitClass) == 1;
    assert "1.0"[..1] == "1";
    assert RunLen("v1", LowerClass) == 1;
    assert "v1"[..1] == "v";
  }
}

/** fnmatch-style matching of a file name against a pattern made of literal characters and `*`,
    as Path(name).match(pattern) does for a single-component pattern. */
module Glob {
  import opened Strings

  predicate StarFree(p: string) { '*' !in p }

  /** `*` matches any run of characters (possibly empty); every other character matches itself. */
  predicate Matches(pat: string, s: string)
    decreases |pat| + |s|
  {
    if pat == [] then s == []
    else if pat[0] == '*' then Matches(pat[1..], s) || (s != [] && Matches(pat, s[1..]))
    else s != [] && s[0] == pat[0] && Matches(pat[1..], s[1..])
  }

  /** A pattern without `*` matches exactly itself. */
  lemma {:induction false} LiteralMatches(pat: string, s: string)
    requires StarFree(pat)
    ensures Matches(pat, s) <==> s == pat
    decreases |pat|
  {
    if pat != [] {
      assert StarFree(pat[1..]);
      if s != [] {
        LiteralMatches(pat[1..], s[1..]);
        assert s == [s[0]] + s[1..];
        assert pat == [pat[0]] + pat[1..];
      }
    }
  }

  /** `*x` with a literal `x` matches exactly the strings that end with `x`. */
  lemma {:induction false} StarSuffixMatches(x: string, s: string)
    requires StarFree(x)
    ensures Matches("*" + x, s) <==> EndsWith(s, x)
    decreases |s|
  {
    var pat := "*" + x;
    assert pat[1..] == x;
    LiteralMatches(x, s);
    if s != [] {
      StarSuffixMatches(x, s[1..]);
      assert EndsWith(s[1..], x) ==> EndsWith(s, x) by {
        if |x| <= |s| - 1 {
          assert s[1..][|s| - 1 - |x|..] == s[|s| - |x|..];
        }
      }
      assert EndsWith(s, x) && s != x ==> EndsWith(s[1..], x) by {
        if EndsWith(s, x) && s != x {
          assert |x| < |s|;
          assert s[1..][|s| - 1 - |x|..] == s[|s| - |x|..];
        }
      }
    }
  }

  /** The same for a pattern given whole, once it is known to be `a`, `*` and `b` in a row. */
  lemma SplitPatternMatches(pat: string, a: string, b: string, s: string)
    requires StarFree(a) && StarFree(b) && pat == a + "*" + b
    ensures Matches(pat, s) <==> |s| >= |a| + |b| && StartsWith(s, a) && EndsWith(s, b)
  {
    PrefixStarSuffixMatches(a, b, s);
  }

  /** `a*b` with literal `a` and `b` matches the strings that start with `a`, end with `b`,
      and are long enough for both. */
  lemma {:induction false} PrefixStarSuffixMatches(a: string, b: string, s: string)
    requires StarFree(a) && StarFree(b)
    ensures Matches(a + "*" + b, s) <==> |s| >= |a| + |b| && StartsWith(s, a) && EndsWith(s, b)
    decreases |a|
  {
    if a == [] {
      assert a + "*" + b == "*" + b;
      StarSuffixMatches(b, s);
    } else {
      var pat := a + "*" + b;
      assert pat[0] == a[0] && pat[1..] == a[1..] + "*" + b;
      assert StarFree(a[1..]);
      if s != [] {
        PrefixStarSuffixMatches(a[1..], b, s[1..]);
        assert StartsWith(s, a) <==> s[0] == a[0] && StartsWith(s[1..], a[1..]) by {
          if |a| <= |s| {
            assert s[1..][..|a| - 1] == s[..|a|][1..];
            assert s[..|a|] == [s[0]] + s[1..][..|a| - 1];
            assert a == [a[0]] + a[1..];
            if s[0] == a[0] && StartsWith(s[1..], a[1..]) {
              assert s[..|a|] == [a[0]] + a[1..];
            }
          }
        }
        assert |b| < |s| ==> (EndsWith(s, b) <==> EndsWith(s[1..], b)) by {
          if |b| < |s| {
            assert s[1..][|s| - 1 - |b|..] == s[|s| - |b|..];
          }
        }
      }
    }
  }
}

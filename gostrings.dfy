/** The handful of Go `strings` functions the core relies on, over `seq<char>`.

    `EqualFold` folds ASCII letters only: the strings compared in the core are
    hex account addresses and fixed keywords, for which Go's Unicode simple
    folding and ASCII folding agree. */
module GoStrings {

  /** Simple case folding of one character (ASCII upper case to lower case). */
  function FoldChar(c: char): (f: char)
    ensures 'A' <= c <= 'Z' ==> f as int == c as int + 32
    ensures !('A' <= c <= 'Z') ==> f == c
  {
    if 'A' <= c <= 'Z' then (c as int + 32) as char else c
  }

  /** `strings.EqualFold(a, b)`: equal under case folding. */
  predicate EqualFold(a: string, b: string)
  {
    |a| == |b| && forall i :: 0 <= i < |a| ==> FoldChar(a[i]) == FoldChar(b[i])
  }

  function Fold(s: string): (f: string)
    ensures |f| == |s|
    ensures forall i :: 0 <= i < |s| ==> f[i] == FoldChar(s[i])
  {
    if s == [] then [] else [FoldChar(s[0])] + Fold(s[1..])
  }

  /** Two strings are equal ignoring case exactly when their folded forms are
      equal; hence EqualFold is an equivalence relation. */
  lemma EqualFoldIsFoldEquality(a: string, b: string)
    ensures EqualFold(a, b) <==> Fold(a) == Fold(b)
  {
    if Fold(a) == Fold(b) {
      assert |a| == |b|;
      forall i | 0 <= i < |a| ensures FoldChar(a[i]) == FoldChar(b[i]) {
        assert Fold(a)[i] == Fold(b)[i];
      }
    }
  }

  lemma EqualFoldTransitive(a: string, b: string, c: string)
    requires EqualFold(a, b) && EqualFold(b, c)
    ensures EqualFold(a, c)
  {
  }

  /** Number of occurrences of `c` in `s`. */
  function Count(s: string, c: char): nat
  {
    if s == [] then 0 else (if s[0] == c then 1 else 0) + Count(s[1..], c)
  }

  /** `strings.Split(s, string(sep))` for a one-character separator: the
      pieces between separators, always at least one. */
  function Split(s: string, sep: char): (parts: seq<string>)
    ensures |parts| == Count(s, sep) + 1
    ensures forall k :: 0 <= k < |parts| ==> sep !in parts[k]
  {
    if s == [] then [""]
    else
      var rest := Split(s[1..], sep);
      if s[0] == sep then [""] + rest
      else [[s[0]] + rest[0]] + rest[1..]
  }

  /** Counting distributes over concatenation. */
  lemma {:induction false} CountAppend(x: string, y: string, c: char)
    ensures Count(x + y, c) == Count(x, c) + Count(y, c)
  {
    if x == [] {
      assert x + y == y;
    } else {
      CountAppend(x[1..], y, c);
      assert (x + y)[1..] == x[1..] + y;
    }
  }

  /** A character is counted zero times exactly when it does not occur. */
  lemma {:induction false} CountZero(s: string, c: char)
    ensures Count(s, c) == 0 <==> c !in s
  {
    if s != [] {
      CountZero(s[1..], c);
      assert s == [s[0]] + s[1..];
    }
  }

  /** A string without the separator is its own single piece. */
  lemma {:induction false} SplitNoSeparator(s: string, sep: char)
    requires sep !in s
    ensures Split(s, sep) == [s]
  {
    if s != [] {
      SplitNoSeparator(s[1..], sep);
      assert s == [s[0]] + s[1..];
    }
  }

  /** The piece before the first separator comes first, and the rest is
      split on its own. */
  lemma {:induction false} SplitAtFirst(x: string, sep: char, rest: string)
    requires sep !in x
    ensures Split(x + [sep] + rest, sep) == [x] + Split(rest, sep)
  {
    var s := x + [sep] + rest;
    if x == [] {
      assert s[1..] == rest;
    } else {
      SplitAtFirst(x[1..], sep, rest);
      assert s[1..] == x[1..] + [sep] + rest;
      assert x == [x[0]] + x[1..];
    }
  }

  /** `strings.Join(parts, string(sep))`. */
  function Join(parts: seq<string>, sep: char): string
    requires |parts| >= 1
  {
    if |parts| == 1 then parts[0] else parts[0] + [sep] + Join(parts[1..], sep)
  }

  /** Splitting loses nothing: joining the pieces back gives the input. */
  lemma {:induction false} JoinSplit(s: string, sep: char)
    ensures Join(Split(s, sep), sep) == s
  {
    if s != [] {
      var rest := Split(s[1..], sep);
      JoinSplit(s[1..], sep);
      if s[0] == sep {
        assert Split(s, sep) == [""] + rest;
        assert ([""] + rest)[1..] == rest;
      } else {
        var parts := [[s[0]] + rest[0]] + rest[1..];
        assert Split(s, sep) == parts;
        if |rest| == 1 {
          assert Join(parts, sep) == [s[0]] + rest[0];
        } else {
          assert parts[1..] == rest[1..];
          assert Join(parts, sep) == [s[0]] + rest[0] + [sep] + Join(rest[1..], sep);
        }
        assert Join(parts, sep) == [s[0]] + Join(rest, sep);
        assert s == [s[0]] + s[1..];
      }
    }
  }

  /** A leading quote is dropped by the left trim. */
  lemma TrimLeftDropsQuote(u: string)
    ensures TrimLeftQuotes(['"'] + u) == TrimLeftQuotes(u)
  {
    assert (['"'] + u)[1..] == u;
  }

  /** A text that does not start with a quote is left alone by the left trim. */
  lemma TrimLeftStops(u: string)
    requires u != [] && u[0] != '"'
    ensures TrimLeftQuotes(u) == u
  {
  }

  /** A trailing quote is dropped by the right trim. */
  lemma TrimRightDropsQuote(t: string)
    ensures TrimRightQuotes(t + ['"']) == TrimRightQuotes(t)
  {
    assert (t + ['"'])[..|t|] == t;
  }

  /** `strings.Trim(s, "\"")`: removes every leading and trailing double quote. */
  function TrimQuotes(s: string): (t: string)
    ensures |t| <= |s|
    ensures t != [] ==> t[0] != '"' && t[|t| - 1] != '"'
    ensures '"' !in s ==> t == s
  {
    TrimRightQuotes(TrimLeftQuotes(s))
  }

  function TrimLeftQuotes(s: string): (t: string)
    ensures |t| <= |s|
    ensures t != [] ==> t[0] != '"'
    ensures t == s[|s| - |t|..]
    ensures '"' !in s ==> t == s
  {
    if s != [] && s[0] == '"' then TrimLeftQuotes(s[1..]) else s
  }

  function TrimRightQuotes(s: string): (t: string)
    ensures |t| <= |s|
    ensures t != [] ==> t[|t| - 1] != '"'
    ensures t == s[..|t|]
    ensures '"' !in s ==> t == s
  {
    if s != [] && s[|s| - 1] == '"' then TrimRightQuotes(s[..|s| - 1]) else s
  }
}

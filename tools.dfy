/** internal/tools: `Min` and `ToAscii`. */
module Tools {

  /** `Min(a, b)`: `a` when `a < b`, otherwise `b` (so a tie returns `b`). */
  function Min(a: int, b: int): (r: int)
    ensures r <= a && r <= b
    ensures r == a || r == b
    ensures a == b ==> r == b
  {
    if a < b then a else b
  }

  lemma MinExample()
    ensures Min(123, 13) == 13
  {
  }

  const MAX_ASCII: int := 127

  predicate IsAscii(c: char) { c as int <= MAX_ASCII }

  /** `ToAscii(s)`: `s` with every rune above U+007F dropped, order kept. */
  function ToAscii(s: string): (t: string)
    ensures |t| <= |s|
    ensures forall i :: 0 <= i < |t| ==> IsAscii(t[i])
  {
    if s == [] then []
    else if IsAscii(s[0]) then [s[0]] + ToAscii(s[1..])
    else ToAscii(s[1..])
  }

  /** A character survives exactly when it occurs in the input and is ASCII. */
  lemma {:induction false} ToAsciiMembers(s: string, c: char)
    ensures c in ToAscii(s) <==> c in s && IsAscii(c)
  {
    if s != [] {
      ToAsciiMembers(s[1..], c);
      assert s == [s[0]] + s[1..];
    }
  }

  /** Filtering distributes over concatenation, which pins down the order of
      what is kept. */
  lemma {:induction false} ToAsciiAppend(a: string, b: string)
    ensures ToAscii(a + b) == ToAscii(a) + ToAscii(b)
  {
    if a == [] {
      assert a + b == b;
    } else {
      assert (a + b)[0] == a[0];
      assert (a + b)[1..] == a[1..] + b;
      ToAsciiAppend(a[1..], b);
    }
  }

  /** Text that is already ASCII comes back unchanged. */
  lemma {:induction false} ToAsciiKeepsAscii(s: string)
    requires forall i :: 0 <= i < |s| ==> IsAscii(s[i])
    ensures ToAscii(s) == s
  {
    if s != [] {
      ToAsciiKeepsAscii(s[1..]);
    }
  }

  lemma ToAsciiIdempotent(s: string)
    ensures ToAscii(ToAscii(s)) == ToAscii(s)
  {
    ToAsciiKeepsAscii(ToAscii(s));
  }

  /** The test's non-ASCII run (an emoji's UTF-8 bytes read as
      single-byte characters) is dropped entirely. */
  lemma MojibakeDropped()
    ensures ToAscii("\U{F0}\U{178}\U{2018}\U{BE}") == []
  {
    var run := "\U{F0}\U{178}\U{2018}\U{BE}";
    assert run == ['\U{F0}'] + (['\U{178}'] + (['\U{2018}'] + ['\U{BE}']));
    ToAsciiAppend(['\U{2018}'], ['\U{BE}']);
    ToAsciiAppend(['\U{178}'], ['\U{2018}'] + ['\U{BE}']);
    ToAsciiAppend(['\U{F0}'], ['\U{178}'] + (['\U{2018}'] + ['\U{BE}']));
  }

  /** A non-ASCII run between two ASCII texts is cut out and the texts
      are joined. */
  lemma DropsRunBetween(before: string, run: string, after: string)
    requires forall i :: 0 <= i < |before| ==> IsAscii(before[i])
    requires forall i :: 0 <= i < |after| ==> IsAscii(after[i])
    requires ToAscii(run) == []
    ensures ToAscii(before + run + after) == before + after
  {
    assert ToAscii(before + run) == before by {
      ToAsciiKeepsAscii(before);
      ToAsciiAppend(before, run);
      assert before + [] == before;
    }
    ToAsciiKeepsAscii(after);
    ToAsciiAppend(before + run, after);
  }

  /** The test's input is "foo", the run, and "bar". */
  lemma ExampleParts()
    ensures "foo\U{F0}\U{178}\U{2018}\U{BE}bar" == "foo" + "\U{F0}\U{178}\U{2018}\U{BE}" + "bar"
  {
  }

  lemma ToAsciiExample()
    ensures ToAscii("foo\U{F0}\U{178}\U{2018}\U{BE}bar") == "foobar"
  {
    ExampleParts();
    MojibakeDropped();
    DropsRunBetween("foo", "\U{F0}\U{178}\U{2018}\U{BE}", "bar");
  }
}

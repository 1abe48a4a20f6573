/** The string functions of the standard library that the form parser uses. */
module Strings {
  /** strings.ReplaceAll, for a pattern that is not empty. */
  function ReplaceAll(s: string, pattern: string, replacement: string): string
    requires pattern != ""
  {
    if |s| < |pattern| then s
    else if s[..|pattern|] == pattern then replacement + ReplaceAll(s[|pattern|..], pattern, replacement)
    else [s[0]] + ReplaceAll(s[1..], pattern, replacement)
  }

  /** strings.Split for a one-character separator. */
  function Split(s: string, c: char): (parts: seq<string>)
    ensures parts != []
  {
    if s == "" then [""] else
      var rest := Split(s[1..], c);
      if s[0] == c then [""] + rest else [[s[0]] + rest[0]] + rest[1..]
  }

  /** strings.SplitN with a limit of 2, for a one-character separator. */
  function SplitOnce(s: string, c: char): (parts: seq<string>)
    ensures |parts| == if c in s then 2 else 1
  {
    if s == "" then [""]
    else if s[0] == c then ["", s[1..]]
    else
      var rest := SplitOnce(s[1..], c);
      assert s == [s[0]] + s[1..];
      [[s[0]] + rest[0]] + rest[1..]
  }

  /** strings.Join for a one-character separator. */
  function Join(parts: seq<string>, c: char): string {
    if parts == [] then "" else if |parts| == 1 then parts[0] else parts[0] + [c] + Join(parts[1..], c)
  }

  predicate At(s: string, p: string, i: int) {
    0 <= i <= |s| - |p| && s[i..i + |p|] == p
  }

  ghost predicate Occurs(s: string, p: string) {
    exists i :: At(s, p, i)
  }

  lemma OccursLater(s: string, p: string)
    requires s != "" && Occurs(s[1..], p)
    ensures Occurs(s, p)
  {
    var i :| At(s[1..], p, i);
    assert s[1..][i..i + |p|] == s[i + 1..i + 1 + |p|];
    assert At(s, p, i + 1);
  }

  lemma OccursNowOrLater(s: string, p: string)
    requires s != "" && p != "" && Occurs(s, p)
    ensures At(s, p, 0) || Occurs(s[1..], p)
  {
    var i :| At(s, p, i);
    if i > 0 {
      assert s[1..][i - 1..i - 1 + |p|] == s[i..i + |p|];
      assert At(s[1..], p, i - 1);
    }
  }

  lemma {:induction false} ReplaceNothing(s: string, pattern: string, replacement: string)
    requires pattern != "" && !Occurs(s, pattern)
    ensures ReplaceAll(s, pattern, replacement) == s
  {
    if |s| >= |pattern| {
      assert s[..|pattern|] == s[0..0 + |pattern|];
      assert !At(s, pattern, 0);
      if s[..|pattern|] != pattern {
        if Occurs(s[1..], pattern) {
          OccursLater(s, pattern);
        }
        ReplaceNothing(s[1..], pattern, replacement);
      }
    }
  }

  lemma {:induction false} ReplaceNeverLengthens(s: string, pattern: string, replacement: string)
    requires pattern != "" && |replacement| <= |pattern|
    ensures |ReplaceAll(s, pattern, replacement)| <= |s|
  {
    if |s| >= |pattern| {
      if s[..|pattern|] == pattern {
        ReplaceNeverLengthens(s[|pattern|..], pattern, replacement);
      } else {
        ReplaceNeverLengthens(s[1..], pattern, replacement);
      }
    }
  }

  lemma {:induction false} ReplaceShortens(s: string, pattern: string, replacement: string)
    requires pattern != "" && |replacement| < |pattern| && Occurs(s, pattern)
    ensures |ReplaceAll(s, pattern, replacement)| < |s|
  {
    assert s != "";
    OccursNowOrLater(s, pattern);
    if |s| >= |pattern| {
      assert s[..|pattern|] == s[0..0 + |pattern|];
    }
    if s[..|pattern|] == pattern {
      ReplaceNeverLengthens(s[|pattern|..], pattern, replacement);
    } else {
      ReplaceShortens(s[1..], pattern, replacement);
    }
  }

  /** Replacing brings in no characters but those of the replacement. */
  lemma {:induction false} ReplaceBringsNothingElse(s: string, pattern: string, replacement: string, c: char)
    requires pattern != "" && c !in s && c !in replacement
    ensures c !in ReplaceAll(s, pattern, replacement)
  {
    if |s| >= |pattern| {
      if s[..|pattern|] == pattern {
        ReplaceBringsNothingElse(s[|pattern|..], pattern, replacement, c);
      } else {
        ReplaceBringsNothingElse(s[1..], pattern, replacement, c);
      }
    }
  }

  /** A replaced character is gone. */
  lemma {:induction false} ReplaceRemoves(s: string, c: char, d: char)
    requires c != d
    ensures c !in ReplaceAll(s, [c], [d])
  {
    if s != "" {
      ReplaceRemoves(s[1..], c, d);
      assert s[..1] == [s[0]];
    }
  }

  function Attach(d: char, parts: seq<string>, c: char): (r: seq<string>)
    requires parts != []
    ensures r != []
  {
    if d == c then [""] + parts else [[d] + parts[0]] + parts[1..]
  }

  lemma SplitStep(d: char, s: string, c: char)
    ensures Split([d] + s, c) == Attach(d, Split(s, c), c)
  {
    assert ([d] + s)[1..] == s;
  }

  lemma AttachToSum(d: char, x: seq<string>, y: seq<string>, c: char)
    requires x != []
    ensures Attach(d, x + y, c) == Attach(d, x, c) + y
  {
    assert (x + y)[0] == x[0] && (x + y)[1..] == x[1..] + y;
  }

  lemma {:induction false} SplitOfSum(a: string, b: string, c: char)
    ensures Split(a + [c] + b, c) == Split(a, c) + Split(b, c)
  {
    if a == "" {
      SplitStep(c, b, c);
      assert a + [c] + b == [c] + b;
    } else {
      var d, rest, x, y := a[0], a[1..], Split(a[1..], c), Split(b, c);
      calc {
        Split(a + [c] + b, c);
        { assert a + [c] + b == [d] + (rest + [c] + b); }
        Split([d] + (rest + [c] + b), c);
        { SplitStep(d, rest + [c] + b, c); }
        Attach(d, Split(rest + [c] + b, c), c);
        { SplitOfSum(rest, b, c); }
        Attach(d, x + y, c);
        { AttachToSum(d, x, y, c); }
        Attach(d, x, c) + y;
        { SplitStep(d, rest, c); assert a == [d] + rest; }
        Split(a, c) + y;
      }
    }
  }

  lemma {:induction false} SplitWithoutSeparator(s: string, c: char)
    requires c !in s
    ensures Split(s, c) == [s]
  {
    if s != "" {
      SplitWithoutSeparator(s[1..], c);
      assert s[0] in s && [s[0]] + s[1..] == s;
    }
  }

  lemma {:induction false} PartsHaveNoSeparator(s: string, c: char)
    ensures forall i :: 0 <= i < |Split(s, c)| ==> c !in Split(s, c)[i]
  {
    if s != "" {
      PartsHaveNoSeparator(s[1..], c);
    }
  }

  /** The first part is the text before the first separator. */
  lemma {:induction false} FirstPart(s: string, c: char)
    ensures Split(s, c)[0] <= s
    ensures c in s ==> |Split(s, c)[0]| < |s|
  {
    if s != "" {
      FirstPart(s[1..], c);
      var p := Split(s[1..], c)[0];
      assert s == [s[0]] + s[1..] && [s[0]] + s[1..][..|p|] == s[..|p| + 1];
    }
  }

  /** Before the separator stands the first part, after it the second. */
  lemma {:induction false} SplitOnceFindsTheFirst(k: string, v: string, c: char)
    requires c !in k
    ensures SplitOnce(k + [c] + v, c) == [k, v]
  {
    var s := k + [c] + v;
    if k == "" {
      assert s[0] == c && s[1..] == v;
    } else {
      SplitOnceFindsTheFirst(k[1..], v, c);
      assert s[1..] == k[1..] + [c] + v;
      assert [k[0]] + k[1..] == k;
    }
  }

  lemma {:induction false} SplitOnceJoins(s: string, c: char)
    requires c in s
    ensures var parts := SplitOnce(s, c); s == parts[0] + [c] + parts[1]
  {
    assert s == [s[0]] + s[1..];
    if s[0] != c {
      SplitOnceJoins(s[1..], c);
      var rest := SplitOnce(s[1..], c);
      assert s == ([s[0]] + rest[0]) + [c] + rest[1];
    }
  }

  lemma {:induction false} FirstOfSplitOnce(s: string, c: char)
    ensures c !in SplitOnce(s, c)[0]
    ensures forall d <- SplitOnce(s, c)[0] :: d in s
  {
    if s != "" && s[0] != c {
      FirstOfSplitOnce(s[1..], c);
      var first := SplitOnce(s[1..], c)[0];
      forall d <- [s[0]] + first
        ensures d in s
      {
        if d != s[0] {
          assert d in first && d in s[1..];
        }
      }
    }
  }

  lemma CharacterOccursIffThere(s: string, c: char)
    ensures Occurs(s, [c]) <==> c in s
  {
    if c in s {
      var i :| 0 <= i < |s| && s[i] == c;
      assert At(s, [c], i);
    }
    if Occurs(s, [c]) {
      var i :| At(s, [c], i);
      assert s[i] == s[i..i + |[c]|][0] == c;
    }
  }
}

/** The functions of Go's `strings` package that the provider relies on. */
module Text {

  predicate SingleLine(s: string) {
    '\n' !in s && '\r' !in s
  }

  type Line = s: string | SingleLine(s)

  function Concat(lines: seq<Line>): Line {
    if lines == [] then "" else lines[0] + Concat(lines[1..])
  }

  /** `p` occurs in `s` at position `i`. */
  predicate At(s: string, p: string, i: nat) {
    i + |p| <= |s| && s[i..i + |p|] == p
  }

  /** strings.Contains */
  predicate Contains(s: string, p: string) {
    exists i | 0 <= i <= |s| :: At(s, p, i)
  }

  /** strings.Index: the first occurrence, or -1. */
  function Index(s: string, p: string): (i: int)
    ensures -1 <= i <= |s|
    ensures 0 <= i ==> At(s, p, i) && forall j: nat :: j < i ==> !At(s, p, j)
    ensures i == -1 <==> !Contains(s, p)
  {
    IndexFrom(s, p, 0)
  }

  function IndexFrom(s: string, p: string, from: nat): (i: int)
    requires from <= |s|
    requires forall j: nat :: j < from ==> !At(s, p, j)
    ensures -1 <= i <= |s|
    ensures 0 <= i ==> At(s, p, i) && forall j: nat :: j < i ==> !At(s, p, j)
    ensures i == -1 ==> forall j: nat :: !At(s, p, j)
    decreases |s| - from
  {
    if At(s, p, from) then from
    else if from == |s| then -1
    else IndexFrom(s, p, from + 1)
  }

  /** strings.Join */
  function Join(parts: seq<string>, sep: string): string {
    if parts == [] then "" else if |parts| == 1 then parts[0] else parts[0] + sep + Join(parts[1..], sep)
  }

  /** strings.Split by a one-character separator. */
  function Split(s: string, sep: char): (parts: seq<string>)
    ensures |parts| > 0
    ensures forall i :: 0 <= i < |parts| ==> sep !in parts[i]
  {
    if s == "" then [""]
    else if s[0] == sep then [""] + Split(s[1..], sep)
    else var rest := Split(s[1..], sep); [[s[0]] + rest[0]] + rest[1..]
  }

  /** The part before the first separator splits off; what follows it is split on its own. */
  lemma {:induction false} SplitAtSeparator(a: string, sep: char, b: string)
    requires sep !in a
    ensures Split(a + [sep] + b, sep) == [a] + Split(b, sep)
  {
    var s := a + [sep] + b;
    if a == "" {
      assert s[1..] == b;
    } else {
      assert s[1..] == a[1..] + [sep] + b;
      SplitAtSeparator(a[1..], sep, b);
      assert [a[0]] + a[1..] == a;
    }
  }

  lemma {:induction false} SplitWithoutSeparator(a: string, sep: char)
    requires sep !in a
    ensures Split(a, sep) == [a]
  {
    if a != "" {
      SplitWithoutSeparator(a[1..], sep);
      assert [a[0]] + a[1..] == a;
    }
  }

  /** Splitting undoes joining, for any non-empty list of parts free of the separator. */
  lemma {:induction false} SplitJoin(parts: seq<string>, sep: char)
    requires parts != []
    requires forall i :: 0 <= i < |parts| ==> sep !in parts[i]
    ensures Split(Join(parts, [sep]), sep) == parts
  {
    if |parts| == 1 {
      SplitWithoutSeparator(parts[0], sep);
    } else {
      SplitJoin(parts[1..], sep);
      SplitAtSeparator(parts[0], sep, Join(parts[1..], [sep]));
    }
  }

  /** A pattern free of `c` never matches across a `c`. */
  lemma ContainsAcross(a: string, c: char, b: string, p: string)
    requires c !in p && p != ""
    ensures Contains(a, p) ==> Index(a + [c] + b, p) == Index(a, p)
    ensures !Contains(a, p) ==> Index(a + [c] + b, p) == (if Contains(b, p) then |a| + 1 + Index(b, p) else -1)
  {
    var s := a + [c] + b;
    forall j: nat | j < |a|
      ensures At(s, p, j) <==> At(a, p, j)
    {
      if j + |p| <= |a| {
        assert s[j..j + |p|] == a[j..j + |p|];
      } else if j + |p| <= |s| {
        assert s[j..j + |p|][|a| - j] == c;
      }
    }
    assert !At(s, p, |a|) by {
      if |a| + |p| <= |s| {
        assert s[|a|..|a| + |p|][0] == c;
      }
    }
    assert !At(a, p, |a|);
    forall j: nat | |a| < j
      ensures At(s, p, j) <==> At(b, p, j - |a| - 1)
    {
      if j + |p| <= |s| {
        assert s[j..j + |p|] == b[j - |a| - 1..j - |a| - 1 + |p|];
      }
    }
    if Contains(a, p) {
      assert At(s, p, Index(a, p));
    } else if Contains(b, p) {
      assert At(s, p, |a| + 1 + Index(b, p));
    }
  }

  /** The ASCII lower case of a letter; other characters stay. */
  function Lower(c: char): char {
    if 'A' <= c <= 'Z' then (c as int + 32) as char else c
  }

  /** strings.EqualFold for two words of ASCII letters without k and s (the only ones with non-ASCII folds). */
  predicate EqualFold(a: string, b: string) {
    |a| == |b| && forall i :: 0 <= i < |a| ==> Lower(a[i]) == Lower(b[i])
  }
}

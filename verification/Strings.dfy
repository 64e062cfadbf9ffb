/** Python's `join` and `split` on one separator, and when one undoes the other. */
module Strings {
  /** `sep.join(parts)`. */
  function Join(parts: seq<string>, sep: char): string {
    if parts == [] then ""
    else if |parts| == 1 then parts[0]
    else parts[0] + [sep] + Join(parts[1..], sep)
  }

  /** `s.split(sep)`. */
  function Split(s: string, sep: char): (parts: seq<string>)
    ensures |parts| >= 1
  {
    if s == "" then [""]
    else
      var rest := Split(s[1..], sep);
      if s[0] == sep then [""] + rest else [[s[0]] + rest[0]] + rest[1..]
  }

  function Count(s: string, sep: char): nat {
    if s == "" then 0 else (if s[0] == sep then 1 else 0) + Count(s[1..], sep)
  }

  /** No part holds the separator. */
  ghost predicate Plain(parts: seq<string>, sep: char) {
    forall i :: 0 <= i < |parts| ==> Count(parts[i], sep) == 0
  }

  lemma {:induction false} CountConcat(a: string, b: string, sep: char)
    ensures Count(a + b, sep) == Count(a, sep) + Count(b, sep)
  {
    if a == "" {
      assert a + b == b;
    } else {
      assert (a + b)[1..] == a[1..] + b;
      CountConcat(a[1..], b, sep);
    }
  }

  lemma {:induction false} SplitCounts(s: string, sep: char)
    ensures |Split(s, sep)| == Count(s, sep) + 1
  {
    if s != "" {
      SplitCounts(s[1..], sep);
    }
  }

  /** Splitting leaves no separator behind. */
  lemma {:induction false} SplitIsPlain(s: string, sep: char)
    ensures Plain(Split(s, sep), sep)
  {
    if s != "" {
      SplitIsPlain(s[1..], sep);
      var rest := Split(s[1..], sep);
      assert ([s[0]] + rest[0])[1..] == rest[0];
      assert Count(rest[0], sep) == 0;
    }
  }

  /** A plain first part comes back whole. */
  lemma {:induction false} SplitFirst(a: string, rest: string, sep: char)
    requires Count(a, sep) == 0
    ensures Split(a + [sep] + rest, sep) == [a] + Split(rest, sep)
  {
    var s := a + [sep] + rest;
    if a == "" {
      assert s[1..] == rest;
    } else {
      assert s[1..] == a[1..] + [sep] + rest;
      SplitFirst(a[1..], rest, sep);
      assert [a[0]] + a[1..] == a;
    }
  }

  lemma {:induction false} SplitWhole(a: string, sep: char)
    requires Count(a, sep) == 0
    ensures Split(a, sep) == [a]
  {
    if a != "" {
      SplitWhole(a[1..], sep);
      assert [a[0]] + a[1..] == a;
    }
  }

  lemma {:induction false} SplitPlain(parts: seq<string>, sep: char)
    requires parts != [] && Plain(parts, sep)
    ensures Split(Join(parts, sep), sep) == parts
  {
    assert Count(parts[0], sep) == 0;
    if |parts| == 1 {
      SplitWhole(parts[0], sep);
    } else {
      SplitFirst(parts[0], Join(parts[1..], sep), sep);
      SplitPlain(parts[1..], sep);
      assert [parts[0]] + parts[1..] == parts;
    }
  }

  /** Splitting undoes joining exactly when there is a part and none holds the separator. */
  lemma SplitJoin(parts: seq<string>, sep: char)
    ensures Split(Join(parts, sep), sep) == parts <==> parts != [] && Plain(parts, sep)
  {
    SplitIsPlain(Join(parts, sep), sep);
    if parts != [] && Plain(parts, sep) {
      SplitPlain(parts, sep);
    }
  }
}

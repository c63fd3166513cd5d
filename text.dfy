/**
 * Joining on a one-character separator, as Rust's `[String]::join(",")`
 * behaves, together with a splitting function of the model's own that
 * inverts it. Used for URL paths (separator '/') and for the comma-joined
 * asset list of the balances query.
 */
module Text {

  /** No part contains the separator. */
  predicate FreeOf(parts: seq<string>, sep: char) {
    forall i :: 0 <= i < |parts| ==> sep !in parts[i]
  }

  /** `parts` with `sep` between consecutive parts; the empty list joins to "". */
  function Join(parts: seq<string>, sep: char): string {
    if |parts| == 0 then ""
    else if |parts| == 1 then parts[0]
    else parts[0] + [sep] + Join(parts[1..], sep)
  }

  /** The pieces between occurrences of `sep`; like Rust's `split`, never an empty list. */
  function Split(s: string, sep: char): (parts: seq<string>)
    ensures |parts| >= 1
    ensures FreeOf(parts, sep)
  {
    if |s| == 0 then [""]
    else if s[0] == sep then [""] + Split(s[1..], sep)
    else
      var rest := Split(s[1..], sep);
      [[s[0]] + rest[0]] + rest[1..]
  }

  /** Number of occurrences of `c` in `s`. */
  function CountChar(s: string, c: char): nat {
    if |s| == 0 then 0 else (if s[0] == c then 1 else 0) + CountChar(s[1..], c)
  }

  lemma {:induction false} CountCharAppend(a: string, b: string, c: char)
    ensures CountChar(a + b, c) == CountChar(a, c) + CountChar(b, c)
  {
    if |a| == 0 {
      assert a + b == b;
    } else {
      assert (a + b)[1..] == a[1..] + b;
      CountCharAppend(a[1..], b, c);
    }
  }

  lemma {:induction false} CountCharAbsent(a: string, c: char)
    requires c !in a
    ensures CountChar(a, c) == 0
  {
    if |a| > 0 {
      assert c !in a[1..];
      CountCharAbsent(a[1..], c);
    }
  }

  /** A string without the separator splits into itself alone. */
  lemma {:induction false} SplitFree(a: string, sep: char)
    requires sep !in a
    ensures Split(a, sep) == [a]
  {
    if |a| > 0 {
      assert sep !in a[1..];
      SplitFree(a[1..], sep);
      assert [a[0]] + a[1..] == a;
    }
  }

  /** Splitting stops exactly at the first separator. */
  lemma {:induction false} SplitAtFirst(a: string, t: string, sep: char)
    requires sep !in a
    ensures Split(a + [sep] + t, sep) == [a] + Split(t, sep)
  {
    var s := a + [sep] + t;
    if |a| == 0 {
      assert s[0] == sep && s[1..] == t;
    } else {
      assert s[0] == a[0] && s[1..] == a[1..] + [sep] + t;
      assert sep !in a[1..];
      SplitAtFirst(a[1..], t, sep);
      assert [a[0]] + a[1..] == a;
    }
  }

  /** Split undoes Join whenever no part contains the separator. */
  lemma {:induction false} SplitJoin(parts: seq<string>, sep: char)
    requires |parts| >= 1 && FreeOf(parts, sep)
    ensures Split(Join(parts, sep), sep) == parts
  {
    if |parts| == 1 {
      SplitFree(parts[0], sep);
    } else {
      assert sep !in parts[0];
      SplitJoin(parts[1..], sep);
      SplitAtFirst(parts[0], Join(parts[1..], sep), sep);
      assert [parts[0]] + parts[1..] == parts;
    }
  }

  /** Join undoes Split for every string. */
  lemma {:induction false} JoinSplit(s: string, sep: char)
    ensures Join(Split(s, sep), sep) == s
  {
    if |s| > 0 {
      JoinSplit(s[1..], sep);
      var rest := Split(s[1..], sep);
      if s[0] == sep {
        assert ([""] + rest)[1..] == rest;
        assert s == [sep] + s[1..];
      } else if |rest| == 1 {
        assert s == [s[0]] + rest[0];
      } else {
        var parts := [[s[0]] + rest[0]] + rest[1..];
        assert parts[1..] == rest[1..];
        assert Join(rest, sep) == rest[0] + [sep] + Join(rest[1..], sep);
        assert s == [s[0]] + (rest[0] + [sep] + Join(rest[1..], sep));
      }
    }
  }

  /** Joining n separator-free parts puts exactly n - 1 separators in the result. */
  lemma {:induction false} JoinSeparatorCount(parts: seq<string>, sep: char)
    requires |parts| >= 1 && FreeOf(parts, sep)
    ensures CountChar(Join(parts, sep), sep) == |parts| - 1
  {
    CountCharAbsent(parts[0], sep);
    if |parts| > 1 {
      JoinSeparatorCount(parts[1..], sep);
      CountCharAppend(parts[0] + [sep], Join(parts[1..], sep), sep);
      CountCharAppend(parts[0], [sep], sep);
    }
  }

  /** The joined string begins with the first part and ends with the last one. */
  lemma {:induction false} JoinEnds(parts: seq<string>, sep: char)
    requires |parts| >= 1
    ensures |Join(parts, sep)| >= |parts[0]| && |Join(parts, sep)| >= |parts[|parts| - 1]|
    ensures Join(parts, sep)[..|parts[0]|] == parts[0]
    ensures Join(parts, sep)[|Join(parts, sep)| - |parts[|parts| - 1]|..] == parts[|parts| - 1]
  {
    if |parts| > 1 {
      JoinEnds(parts[1..], sep);
      var j := Join(parts, sep);
      var rest := Join(parts[1..], sep);
      assert j == parts[0] + [sep] + rest;
      assert j[|j| - |parts[|parts| - 1]|..] == rest[|rest| - |parts[|parts| - 1]|..];
    }
  }
}

/** The handful of JavaScript string operations the core relies on:
    `split` and `join` on a one-character separator, `startsWith`,
    `endsWith`, ASCII case conversion and decimal rendering of integers. */
module Strings {

  /** `s.split(c)` for a one-character separator: always at least one part. */
  function Split(s: string, c: char): (parts: seq<string>)
    ensures |parts| >= 1
    ensures forall k :: 0 <= k < |parts| ==> c !in parts[k]
    decreases |s|
  {
    if |s| == 0 then [""]
    else
      var rest := Split(s[1..], c);
      if s[0] == c then [""] + rest
      else [[s[0]] + rest[0]] + rest[1..]
  }

  /** `parts.join(c)`. */
  function Join(parts: seq<string>, c: char): string
    decreases |parts|
  {
    if |parts| == 0 then ""
    else if |parts| == 1 then parts[0]
    else parts[0] + [c] + Join(parts[1..], c)
  }

  /** Index of the first occurrence of `c` in `s`, `|s|` when there is none. */
  function IndexOf(s: string, c: char): (i: nat)
    ensures i <= |s|
    ensures i < |s| <==> c in s
    ensures i < |s| ==> s[i] == c
    ensures c !in s[..i]
  {
    if |s| == 0 then 0
    else if s[0] == c then 0
    else 1 + IndexOf(s[1..], c)
  }

  /** Splitting and joining on the same separator gives the string back. */
  lemma {:induction false} JoinSplit(s: string, c: char)
    ensures Join(Split(s, c), c) == s
    decreases |s|
  {
    if |s| > 0 {
      JoinSplit(s[1..], c);
      var rest := Split(s[1..], c);
      if s[0] == c {
        assert Split(s, c) == [""] + rest;
        assert s == [c] + s[1..];
      } else {
        var parts := Split(s, c);
        assert parts == [[s[0]] + rest[0]] + rest[1..];
        if |rest| == 1 {
          assert s == [s[0]] + s[1..];
        } else {
          assert parts[1..] == rest[1..];
          assert Join(rest, c) == rest[0] + [c] + Join(rest[1..], c);
          assert s == [s[0]] + s[1..];
        }
      }
    }
  }

  /** Splitting `a + [c] + b` where `a` holds no separator yields `a`
      followed by the parts of `b`. */
  lemma {:induction false} SplitAtFirst(a: string, c: char, b: string)
    requires c !in a
    ensures Split(a + [c] + b, c) == [a] + Split(b, c)
    decreases |a|
  {
    if |a| == 0 {
      assert a + [c] + b == [c] + b;
      assert ([c] + b)[1..] == b;
    } else {
      SplitAtFirst(a[1..], c, b);
      assert (a + [c] + b)[1..] == a[1..] + [c] + b;
      assert [a[0]] + a[1..] == a;
    }
  }

  /** A string without the separator splits into itself. */
  lemma {:induction false} SplitNoSeparator(s: string, c: char)
    requires c !in s
    ensures Split(s, c) == [s]
    decreases |s|
  {
    if |s| > 0 {
      SplitNoSeparator(s[1..], c);
      assert [s[0]] + s[1..] == s;
    }
  }

  /** A string splits into several parts exactly when it holds the separator,
      and then the first part is the text before the first separator and
      the other parts, joined again, are the text after it. */
  lemma SplitFirstPart(s: string, c: char)
    ensures |Split(s, c)| >= 2 <==> c in s
    ensures c in s ==> Split(s, c)[0] == s[..IndexOf(s, c)]
    ensures c in s ==> Join(Split(s, c)[1..], c) == s[IndexOf(s, c) + 1..]
  {
    if c in s {
      SplitAtIndex(s, c);
    } else {
      SplitNoSeparator(s, c);
    }
  }

  lemma SplitAtIndex(s: string, c: char)
    requires c in s
    ensures |Split(s, c)| >= 2
    ensures Split(s, c)[0] == s[..IndexOf(s, c)]
    ensures Join(Split(s, c)[1..], c) == s[IndexOf(s, c) + 1..]
  {
    var i := IndexOf(s, c);
    var before, after := s[..i], s[i + 1..];
    assert s == before + [c] + after;
    SplitAtFirst(before, c, after);
    var parts := Split(s, c);
    assert parts == [before] + Split(after, c);
    assert parts[1..] == Split(after, c);
    JoinSplit(after, c);
  }

  /** Joining a part without the separator in front of `b` and splitting
      again gives the part back as the head element. */
  lemma SplitJoinHead(a: string, c: char, b: string)
    requires c !in a
    ensures |Split(a + [c] + b, c)| >= 2
    ensures Split(a + [c] + b, c)[0] == a
    ensures Join(Split(a + [c] + b, c)[1..], c) == b
  {
    SplitAtFirst(a, c, b);
    JoinSplit(b, c);
    assert Split(a + [c] + b, c)[1..] == Split(b, c);
  }

  /** Joining parts that hold no separator and splitting again gives the
      parts back. */
  lemma {:induction false} SplitJoin(parts: seq<string>, c: char)
    requires |parts| >= 1
    requires forall k :: 0 <= k < |parts| ==> c !in parts[k]
    ensures Split(Join(parts, c), c) == parts
    decreases |parts|
  {
    if |parts| == 1 {
      SplitNoSeparator(parts[0], c);
    } else {
      SplitJoin(parts[1..], c);
      SplitAtFirst(parts[0], c, Join(parts[1..], c));
      assert [parts[0]] + parts[1..] == parts;
    }
  }

  /** Every character of a part is a character of the joined text. */
  lemma {:induction false} JoinHolds(parts: seq<string>, c: char, k: nat)
    requires k < |parts|
    ensures forall x :: x in parts[k] ==> x in Join(parts, c)
    decreases |parts|
  {
    if k > 0 {
      JoinHolds(parts[1..], c, k - 1);
    }
  }

  /** Joining two non-empty lists of parts is joining each and putting one
      separator between. */
  lemma {:induction false} JoinAppend(a: seq<string>, b: seq<string>, c: char)
    requires |a| > 0 && |b| > 0
    ensures Join(a + b, c) == Join(a, c) + [c] + Join(b, c)
    decreases |a|
  {
    assert (a + b)[0] == a[0];
    assert (a + b)[1..] == a[1..] + b;
    if |a| > 1 {
      JoinAppend(a[1..], b, c);
    }
  }

  predicate StartsWith(s: string, prefix: string) {
    |prefix| <= |s| && s[..|prefix|] == prefix
  }

  /** A string starts with any of its prefixes. */
  lemma StartsWithAppend(p: string, q: string, r: string)
    ensures StartsWith(p + q + r, p)
  {
    assert (p + q + r)[..|p|] == p;
  }

  lemma StartsWithConcat(p: string, q: string)
    ensures StartsWith(p + q, p)
  {
    assert (p + q)[..|p|] == p;
  }

  /** A three-part string starts with its first part and ends with its
      last. */
  lemma Framed(p: string, m: string, q: string)
    ensures StartsWith(p + m + q, p)
    ensures EndsWith(p + m + q, q)
  {
    assert (p + m + q)[..|p|] == p;
    assert (p + m + q)[|p + m + q| - |q|..] == q;
  }

  /** Dropping the first part of a three-part string leaves the other two. */
  lemma DropFirst(p: string, q: string, r: string)
    ensures (p + q + r)[|p|..] == q + r
  {
  }

  /** A string that differs from a prefix at one of its positions does not
      start with it. */
  lemma DiffersAt(s: string, prefix: string, i: nat)
    requires i < |s| && i < |prefix| && s[i] != prefix[i]
    ensures !StartsWith(s, prefix)
  {
    if |prefix| <= |s| {
      assert s[..|prefix|][i] == s[i];
    }
  }

  predicate EndsWith(s: string, suffix: string) {
    |suffix| <= |s| && s[|s| - |suffix|..] == suffix
  }

  /** Appending text in front keeps a suffix no longer than the tail. */
  lemma EndsWithAppend(a: string, b: string, suffix: string)
    requires |suffix| <= |b|
    ensures EndsWith(a + b, suffix) <==> EndsWith(b, suffix)
  {
    assert (a + b)[|a + b| - |suffix|..] == b[|b| - |suffix|..];
  }

  /** The first `c` after a `c`-free prefix is the one right after it. */
  lemma {:induction false} IndexOfAfter(s: string, c: char, t: string)
    requires c !in s
    ensures IndexOf(s + [c] + t, c) == |s|
    decreases |s|
  {
    if |s| > 0 {
      IndexOfAfter(s[1..], c, t);
      assert (s + [c] + t)[1..] == s[1..] + [c] + t;
    }
  }

  /** The part before the first `c` ignores everything after a `c`-free
      prefix and the `c` that follows it. */
  lemma PrefixBefore(s: string, c: char, t: string)
    requires c !in s
    ensures (s + [c] + t)[..IndexOf(s + [c] + t, c)] == s[..IndexOf(s, c)]
  {
    IndexOfAfter(s, c, t);
    assert (s + [c] + t)[..|s|] == s;
    assert s[..|s|] == s;
  }

  /** `toUpperCase` on one character; only ASCII letters are modelled. */
  function UpperChar(ch: char): char {
    if 'a' <= ch <= 'z' then (ch as int - 'a' as int + 'A' as int) as char else ch
  }

  /** `toLowerCase` on one character; only ASCII letters are modelled. */
  function LowerChar(ch: char): char {
    if 'A' <= ch <= 'Z' then (ch as int - 'A' as int + 'a' as int) as char else ch
  }

  /** `s.toLowerCase()` (ASCII). */
  function Lower(s: string): (r: string)
    ensures |r| == |s|
    ensures forall k :: 0 <= k < |s| ==> r[k] == LowerChar(s[k])
  {
    if |s| == 0 then "" else [LowerChar(s[0])] + Lower(s[1..])
  }

  /** Lower-casing works character by character. */
  lemma LowerAppend(a: string, b: string)
    ensures Lower(a + b) == Lower(a) + Lower(b)
  {
    assert forall k :: 0 <= k < |a + b| ==> Lower(a + b)[k] == (Lower(a) + Lower(b))[k];
  }

  /** A character that is not an upper-case letter survives lower-casing
      between the lower-cased parts around it. */
  lemma LowerAround(t: string, c: char, u: string)
    requires !('A' <= c <= 'Z')
    ensures Lower(t + [c] + u) == Lower(t) + [c] + Lower(u)
  {
    LowerAppend(t + [c], u);
    LowerAppend(t, [c]);
    assert Lower([c]) == [c];
  }

  /** Lower-casing twice is lower-casing once. */
  lemma LowerIdempotent(s: string)
    ensures Lower(Lower(s)) == Lower(s)
  {
    var l := Lower(s);
    assert forall k :: 0 <= k < |l| ==> Lower(l)[k] == l[k];
  }

  /** `word.charAt(0).toUpperCase() + word.slice(1)`. */
  function Capitalize(w: string): (r: string)
    ensures |r| == |w|
    ensures |w| > 0 ==> r[0] == UpperChar(w[0]) && r[1..] == w[1..]
  {
    if |w| == 0 then "" else [UpperChar(w[0])] + w[1..]
  }

  /** The concatenation of a sequence of strings (`join('')`). */
  function Concat(parts: seq<string>): string
    decreases |parts|
  {
    if |parts| == 0 then "" else parts[0] + Concat(parts[1..])
  }

  /** Decimal digits of a natural number, as template literals print it. */
  function NatToString(n: nat): (r: string)
    ensures |r| >= 1
    ensures forall k :: 0 <= k < |r| ==> '0' <= r[k] <= '9'
    decreases n
  {
    if n < 10 then [('0' as int + n) as char]
    else NatToString(n / 10) + [('0' as int + n % 10) as char]
  }

  /** Decimal rendering of an integer with a leading '-' when negative. */
  function IntToString(i: int): string {
    if i < 0 then "-" + NatToString(-i) else NatToString(i)
  }
}

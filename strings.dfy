/**
 * The handful of Python `str` operations the indexer is built from, with Python's
 * semantics: `split` on a one-character separator (always at least one part),
 * `join`, ASCII `lower`, `strip`, `startswith`/`endswith`, the `in` substring test
 * and decimal formatting of counts in f-strings.
 */
module Strings {
  import opened Seqs


  /** Position of the first `c` in `s`, or `|s|` when `c` does not occur. */
  function IndexOf(s: string, c: char): (i: nat)
    ensures i <= |s|
    ensures i < |s| ==> s[i] == c
    ensures forall j :: 0 <= j < i ==> s[j] != c
  {
    if |s| == 0 then 0
    else if s[0] == c then 0
    else 1 + IndexOf(s[1..], c)
  }

  /** Python's `s.split(c)`: the maximal `c`-free pieces between occurrences of `c`. */
  function Split(s: string, c: char): (parts: seq<string>)
    ensures |parts| >= 1
    ensures forall k :: 0 <= k < |parts| ==> c !in parts[k]
    decreases |s|
  {
    var i := IndexOf(s, c);
    if i == |s| then [s] else [s[..i]] + Split(s[i + 1..], c)
  }

  /** Python's `sep.join(parts)`. */
  function Join(parts: seq<string>, sep: string): string
  {
    if |parts| == 0 then ""
    else if |parts| == 1 then parts[0]
    else parts[0] + sep + Join(parts[1..], sep)
  }

  function Last<T>(s: seq<T>): T
    requires |s| > 0
  {
    s[|s| - 1]
  }

  /** `s.split(c)[0]`: the text before the first `c`. */
  function Before(s: string, c: char): (r: string)
    ensures r == s[..IndexOf(s, c)]
    ensures c !in r
  {
    Split(s, c)[0]
  }

  /** `s.split(c)[-1]`: the text after the last `c`. */
  function After(s: string, c: char): (r: string)
    ensures c !in r
  {
    Last(Split(s, c))
  }

  predicate StartsWith(s: string, prefix: string)
  {
    prefix <= s
  }

  predicate EndsWith(s: string, suffix: string)
  {
    |suffix| <= |s| && s[|s| - |suffix|..] == suffix
  }

  /** Python's `sub in s` on strings. */
  predicate Contains(s: string, sub: string)
    decreases |s|
  {
    sub <= s || (|s| > 0 && Contains(s[1..], sub))
  }

  function LowerChar(ch: char): char
  {
    if 'A' <= ch <= 'Z' then (ch as int + 32) as char else ch
  }

  predicate IsUpper(ch: char)
  {
    'A' <= ch <= 'Z'
  }

  /** Python's `s.lower()` restricted to ASCII letters. */
  function Lower(s: string): (r: string)
    ensures |r| == |s|
    ensures forall i :: 0 <= i < |s| ==> r[i] == LowerChar(s[i])
    ensures forall i :: 0 <= i < |r| ==> !IsUpper(r[i])
  {
    seq(|s|, i requires 0 <= i < |s| => LowerChar(s[i]))
  }

  /**
   * The characters Python's `str.isspace` accepts, which the argument-less
   * `strip()` removes: tab through carriage return, the four information
   * separators 0x1C-0x1F, space, NEL, no-break space, the Unicode space
   * separators, and the line and paragraph separators.
   */
  predicate IsSpace(ch: char)
  {
    var n := ch as int;
    (9 <= n <= 13) || (28 <= n <= 32) || n == 0x85 || n == 0xA0 || n == 0x1680 ||
    (0x2000 <= n <= 0x200A) || n == 0x2028 || n == 0x2029 || n == 0x202F || n == 0x205F || n == 0x3000
  }

  function StripLeft(s: string): (r: string)
    ensures |r| <= |s| && r == s[|s| - |r|..]
    ensures |r| > 0 ==> !IsSpace(r[0])
    ensures forall i :: 0 <= i < |s| - |r| ==> IsSpace(s[i])
  {
    if |s| > 0 && IsSpace(s[0]) then StripLeft(s[1..]) else s
  }

  function StripRight(s: string): (r: string)
    ensures |r| <= |s| && r == s[..|r|]
    ensures |r| > 0 ==> !IsSpace(r[|r| - 1])
    ensures forall i :: |r| <= i < |s| ==> IsSpace(s[i])
  {
    if |s| > 0 && IsSpace(s[|s| - 1]) then StripRight(s[..|s| - 1]) else s
  }

  /** Python's `s.strip()`: `s` without its leading and trailing whitespace. */
  function Strip(s: string): (r: string)
    ensures |r| == 0 || (!IsSpace(r[0]) && !IsSpace(r[|r| - 1]))
  {
    StripRight(StripLeft(s))
  }

  /** `s.rfind(c)`: the index of the last `c`, or -1 when there is none. */
  function RFind(s: string, c: char): (i: int)
    ensures -1 <= i < |s|
    ensures i >= 0 ==> s[i] == c
    ensures forall j :: i < j < |s| ==> s[j] != c
  {
    if |s| == 0 then -1
    else if s[|s| - 1] == c then |s| - 1
    else RFind(s[..|s| - 1], c)
  }

  function DigitChar(d: nat): (ch: char)
    requires d < 10
    ensures '0' <= ch <= '9'
  {
    ('0' as int + d) as char
  }

  /** Decimal rendering of a count, as an f-string prints an `int`. */
  function NatToString(n: nat): (r: string)
    ensures |r| >= 1
    ensures forall i :: 0 <= i < |r| ==> '0' <= r[i] <= '9'
  {
    if n < 10 then [DigitChar(n)] else NatToString(n / 10) + [DigitChar(n % 10)]
  }

  // ---------------------------------------------------------------------------
  // Properties of split and join

  lemma IndexOfAt(a: string, c: char, b: string)
    requires c !in a
    ensures IndexOf(a + [c] + b, c) == |a|
  {
    var s := a + [c] + b;
    assert s[|a|] == c;
    assert forall j :: 0 <= j < |a| ==> s[j] == a[j];
  }

  lemma IndexOfAbsent(s: string, c: char)
    requires c !in s
    ensures IndexOf(s, c) == |s|
  {
  }

  lemma JoinCons(a: string, rest: seq<string>, sep: string)
    requires |rest| >= 1
    ensures Join([a] + rest, sep) == a + sep + Join(rest, sep)
  {
    assert ([a] + rest)[1..] == rest;
  }

  /** A separator-free piece followed by the separator splits off as the first piece. */
  lemma SplitPiece(a: string, c: char, b: string)
    requires c !in a
    ensures Split(a + [c] + b, c) == [a] + Split(b, c)
  {
    var s := a + [c] + b;
    IndexOfAt(a, c, b);
    assert s[..|a|] == a;
    assert s[|a| + 1..] == b;
  }

  /** Joining the pieces of a split with the separator gives back the string. */
  lemma {:induction false} JoinSplit(s: string, c: char)
    ensures Join(Split(s, c), [c]) == s
    decreases |s|
  {
    var i := IndexOf(s, c);
    if i < |s| {
      var head, rest := s[..i], s[i + 1..];
      assert Split(s, c) == [head] + Split(rest, c);
      assert Join(Split(s, c), [c]) == head + [c] + Join(Split(rest, c), [c]) by {
        JoinCons(head, Split(rest, c), [c]);
      }
      JoinSplit(rest, c);
      assert s == head + [c] + rest;
    } else {
      assert Split(s, c) == [s];
    }
  }

  /** Splitting a join of separator-free pieces gives back the pieces. */
  lemma {:induction false} SplitJoin(parts: seq<string>, c: char)
    requires |parts| >= 1
    requires forall k :: 0 <= k < |parts| ==> c !in parts[k]
    ensures Split(Join(parts, [c]), c) == parts
    decreases |parts|
  {
    if |parts| == 1 {
      IndexOfAbsent(parts[0], c);
    } else {
      SplitPiece(parts[0], c, Join(parts[1..], [c]));
      SplitJoin(parts[1..], c);
      assert [parts[0]] + parts[1..] == parts;
    }
  }

  /** A string with exactly one separator splits into the text before it and the text after it. */
  lemma SplitOnce(a: string, c: char, b: string)
    requires c !in a && c !in b
    ensures Split(a + [c] + b, c) == [a, b]
    ensures Before(a + [c] + b, c) == a && After(a + [c] + b, c) == b
  {
    assert Join([a, b], [c]) == a + [c] + b;
    SplitJoin([a, b], c);
  }

  /** `Join` of a list with one more piece appends the separator and that piece. */
  lemma {:induction false} JoinSnoc(parts: seq<string>, x: string, sep: string)
    requires |parts| >= 1
    ensures Join(parts + [x], sep) == Join(parts, sep) + sep + x
    decreases |parts|
  {
    if |parts| == 1 {
      assert parts + [x] == [parts[0]] + [x];
      JoinCons(parts[0], [x], sep);
    } else {
      JoinSnoc(parts[1..], x, sep);
      assert parts + [x] == [parts[0]] + (parts[1..] + [x]);
      JoinCons(parts[0], parts[1..] + [x], sep);
      JoinCons(parts[0], parts[1..], sep);
      assert [parts[0]] + parts[1..] == parts;
    }
  }

  /** Splitting separator-free pieces joined and followed by a separator and `s` gives the pieces, then the pieces of `s`. */
  lemma {:induction false} SplitJoinAppend(parts: seq<string>, c: char, s: string)
    requires |parts| >= 1
    requires forall k :: 0 <= k < |parts| ==> c !in parts[k]
    ensures Split(Join(parts, [c]) + [c] + s, c) == parts + Split(s, c)
    decreases |parts|
  {
    var head, tail := parts[0], parts[1..];
    assert c !in head;
    if |parts| == 1 {
      assert Join(parts, [c]) == head;
      SplitPiece(head, c, s);
    } else {
      var rest := Join(tail, [c]) + [c] + s;
      assert Split(rest, c) == tail + Split(s, c) by {
        assert forall k :: 0 <= k < |tail| ==> c !in tail[k] by {
          forall k | 0 <= k < |tail| ensures c !in tail[k] {
            assert tail[k] == parts[k + 1];
          }
        }
        SplitJoinAppend(tail, c, s);
      }
      assert Join(parts, [c]) + [c] + s == head + [c] + rest by {
        assert [head] + tail == parts;
        JoinCons(head, tail, [c]);
      }
      SplitPiece(head, c, rest);
      assert [head] + tail == parts;
      AppendAssoc([head], tail, Split(s, c));
    }
  }

  /** A split has one more piece than there are separators. */
  lemma {:induction false} SplitLength(s: string, c: char)
    ensures |Split(s, c)| == multiset(s)[c] + 1
    decreases |s|
  {
    var i := IndexOf(s, c);
    if i < |s| {
      SplitLength(s[i + 1..], c);
      assert s == s[..i] + [c] + s[i + 1..];
      assert c !in s[..i];
      assert multiset(s) == multiset(s[..i]) + multiset([c]) + multiset(s[i + 1..]);
    } else {
      assert c !in s;
    }
  }

  /** `EndsWith` is kept by putting text in front. */
  lemma EndsWithAppend(a: string, b: string, suffix: string)
    requires EndsWith(b, suffix)
    ensures EndsWith(a + b, suffix)
  {
    assert (a + b)[|a + b| - |suffix|..] == b[|b| - |suffix|..];
  }

  /** A string whose `k`-th character from the end differs from the suffix's does not end with it. */
  lemma NotEndsWithAt(s: string, suffix: string, k: nat)
    requires k < |suffix| && k < |s| && s[|s| - 1 - k] != suffix[|suffix| - 1 - k]
    ensures !EndsWith(s, suffix)
  {
    if |suffix| <= |s| {
      assert s[|s| - |suffix|..][|suffix| - 1 - k] == s[|s| - 1 - k];
    }
  }

  /** Stripping never introduces a character. */
  lemma StripKeepsAbsent(s: string, c: char)
    requires c !in s
    ensures c !in Strip(s)
  {
    var l := StripLeft(s);
    assert c !in l by {
      forall i | 0 <= i < |l| ensures l[i] != c {
        assert l[i] == s[|s| - |l| + i];
      }
    }
    var r := StripRight(l);
    forall i | 0 <= i < |r| ensures r[i] != c {
      assert r[i] == l[i];
    }
  }

  lemma SplitNoSeparator(s: string, c: char)
    requires c !in s
    ensures Split(s, c) == [s]
  {
  }

  /** `Join` of a nonempty list begins with its first piece. */
  lemma {:induction false} JoinStartsWithFirst(parts: seq<string>, sep: string)
    requires |parts| >= 1
    ensures parts[0] <= Join(parts, sep)
    ensures |parts| > 1 ==> |Join(parts, sep)| >= |parts[0]| + |sep| + |parts[1]|
  {
    if |parts| > 1 {
      JoinStartsWithFirst(parts[1..], sep);
    }
  }

  lemma {:induction false} ContainsPrefix(s: string, sub: string, t: string)
    requires Contains(s, sub)
    ensures Contains(s + t, sub)
    decreases |s|
  {
    if !(sub <= s) {
      assert (s + t)[1..] == s[1..] + t;
      ContainsPrefix(s[1..], sub, t);
    }
  }

  lemma {:induction false} ContainsAt(s: string, i: nat, sub: string)
    requires i <= |s| && sub <= s[i..]
    ensures Contains(s, sub)
    decreases i
  {
    if i > 0 {
      assert s[1..][i - 1..] == s[i..];
      ContainsAt(s[1..], i - 1, sub);
    }
  }

  lemma LowerAppend(a: string, b: string)
    ensures Lower(a + b) == Lower(a) + Lower(b)
  {
    assert forall i :: 0 <= i < |a| + |b| ==> Lower(a + b)[i] == (Lower(a) + Lower(b))[i];
  }

  /** Text without upper-case letters is its own lower-case form. */
  lemma LowerNoUpper(s: string)
    requires forall i :: 0 <= i < |s| ==> !IsUpper(s[i])
    ensures Lower(s) == s
  {
  }

  lemma LowerIdempotent(s: string)
    ensures Lower(Lower(s)) == Lower(s)
  {
  }

  /** Every character of every piece of a split occurs in the string. */
  lemma {:induction false} SplitPartChars(s: string, c: char)
    ensures forall k, x :: 0 <= k < |Split(s, c)| && x in Split(s, c)[k] ==> x in s
    decreases |s|
  {
    var i := IndexOf(s, c);
    if i < |s| {
      var rest := s[i + 1..];
      SplitPartChars(rest, c);
      var parts := Split(s, c);
      assert parts == [s[..i]] + Split(rest, c);
      forall k, x | 0 <= k < |parts| && x in parts[k]
        ensures x in s
      {
        if k == 0 {
          assert x in s[..i];
        } else {
          assert parts[k] == Split(rest, c)[k - 1];
          assert x in rest;
        }
      }
    }
  }
}

/**
 * The Python string operations the core relies on, on `seq<char>`:
 * `str.split(sep)` for a one-character separator, `sep.join(parts)`,
 * `str.strip()`, `str.replace`, the slice `s[1:-1]`, `str.startswith`
 * and the extension half of `os.path.splitext` (POSIX flavour).
 */
module Texts {

  /** Number of occurrences of `c` in `s`. */
  function Count(s: string, c: char): nat
  {
    if |s| == 0 then 0 else (if s[0] == c then 1 else 0) + Count(s[1..], c)
  }

  lemma {:induction false} CountZero(s: string, c: char)
    ensures Count(s, c) == 0 <==> c !in s
  {
    if |s| > 0 {
      CountZero(s[1..], c);
      assert s == [s[0]] + s[1..];
    }
  }

  /** `s.split(sep)`: the maximal separator-free pieces between separators. */
  function Split(s: string, sep: char): (parts: seq<string>)
    ensures |parts| == Count(s, sep) + 1
    ensures forall i :: 0 <= i < |parts| ==> sep !in parts[i]
  {
    if |s| == 0 then [""]
    else if s[0] == sep then [""] + Split(s[1..], sep)
    else
      var rest := Split(s[1..], sep);
      [[s[0]] + rest[0]] + rest[1..]
  }

  /** `sep.join(parts)`. */
  function Join(parts: seq<string>, sep: string): string
  {
    if |parts| == 0 then ""
    else if |parts| == 1 then parts[0]
    else parts[0] + sep + Join(parts[1..], sep)
  }

  /** Joining the pieces of a split with the same separator gives the text back. */
  lemma {:induction false} JoinSplit(s: string, sep: char)
    ensures Join(Split(s, sep), [sep]) == s
  {
    if |s| > 0 {
      JoinSplit(s[1..], sep);
      var rest := Split(s[1..], sep);
      if s[0] != sep {
        if |rest| > 1 {
          assert Split(s, sep)[1..] == rest[1..];
        }
      }
    }
  }

  /** Splitting yields a single piece exactly when the separator does not occur, and it is the text. */
  lemma SplitSingle(s: string, sep: char)
    ensures |Split(s, sep)| == 1 <==> sep !in s
    ensures sep !in s ==> Split(s, sep) == [s]
  {
    CountZero(s, sep);
    if sep !in s {
      JoinSplit(s, sep);
    }
  }

  /** `s.replace(a, b)` for single characters. */
  function ReplaceChar(s: string, a: char, b: char): (r: string)
    ensures |r| == |s|
    ensures forall i :: 0 <= i < |s| ==> r[i] == (if s[i] == a then b else s[i])
  {
    if |s| == 0 then "" else [if s[0] == a then b else s[0]] + ReplaceChar(s[1..], a, b)
  }

  /** `sep.join(s.split(' '))` turns every space into the separator character. */
  lemma {:induction false} JoinSplitReplaces(s: string, sep: char, with: char)
    ensures Join(Split(s, sep), [with]) == ReplaceChar(s, sep, with)
  {
    if |s| > 0 {
      JoinSplitReplaces(s[1..], sep, with);
      var rest := Split(s[1..], sep);
      if s[0] != sep && |rest| > 1 {
        assert Split(s, sep)[1..] == rest[1..];
      }
    }
  }

  /** Python's `str.isspace` for one character (Unicode White_Space as Python defines it). */
  predicate IsSpace(c: char)
  {
    var n := c as int;
    (9 <= n <= 13) || (28 <= n <= 32) || n == 0x85 || n == 0xA0 || n == 0x1680
    || (0x2000 <= n <= 0x200A) || n == 0x2028 || n == 0x2029 || n == 0x202F
    || n == 0x205F || n == 0x3000
  }

  function TrimStart(s: string): (r: string)
    ensures |r| <= |s| && r == s[|s| - |r|..]
    ensures forall k :: 0 <= k < |s| - |r| ==> IsSpace(s[k])
    ensures r != "" ==> !IsSpace(r[0])
  {
    if |s| > 0 && IsSpace(s[0]) then TrimStart(s[1..]) else s
  }

  function TrimEnd(s: string): (r: string)
    ensures |r| <= |s| && r == s[..|r|]
    ensures forall k :: |r| <= k < |s| ==> IsSpace(s[k])
    ensures r != "" ==> !IsSpace(r[|r| - 1])
  {
    if |s| > 0 && IsSpace(s[|s| - 1]) then TrimEnd(s[..|s| - 1]) else s
  }

  /** `s.strip()`: the text between the leading and the trailing white space. */
  function Strip(s: string): string
  {
    TrimEnd(TrimStart(s))
  }

  /** `strip` cuts white space, and only white space, off both ends, and stops at the first other character. */
  lemma StripSpec(s: string)
    ensures exists i, j :: 0 <= i <= j <= |s| && Strip(s) == s[i..j]
              && (forall k :: 0 <= k < i ==> IsSpace(s[k]))
              && (forall k :: j <= k < |s| ==> IsSpace(s[k]))
    ensures Strip(s) != "" ==> !IsSpace(Strip(s)[0]) && !IsSpace(Strip(s)[|Strip(s)| - 1])
  {
    var i, j := StripBounds(s);
    StripEnds(s);
  }

  /** Where the stripped text starts and ends in `s`. */
  lemma StripBounds(s: string) returns (i: nat, j: nat)
    ensures i <= j <= |s| && Strip(s) == s[i..j]
    ensures forall k :: 0 <= k < i ==> IsSpace(s[k])
    ensures forall k :: j <= k < |s| ==> IsSpace(s[k])
  {
    var a := TrimStart(s);
    var b := TrimEnd(a);
    assert Strip(s) == b;
    hide IsSpace, TrimStart, TrimEnd, Strip;
    i, j := |s| - |a|, |s| - |a| + |b|;
    assert b == s[i..j];
    forall k | j <= k < |s|
      ensures IsSpace(s[k])
    {
      assert s[k] == a[k - i];
    }
  }

  lemma StripEnds(s: string)
    ensures Strip(s) != "" ==> !IsSpace(Strip(s)[0]) && !IsSpace(Strip(s)[|Strip(s)| - 1])
  {
    var a := TrimStart(s);
    var b := TrimEnd(a);
    assert Strip(s) == b;
    if b != "" {
      assert b[0] == a[0];
    }
  }

  /** The slice `s[1:-1]`: one character off each end, or empty when `s` is too short. */
  function Trim1(s: string): (r: string)
    ensures |s| >= 2 ==> s == [s[0]] + r + [s[|s| - 1]]
    ensures |s| < 2 ==> r == ""
  {
    if |s| >= 2 then s[1..|s| - 1] else ""
  }

  /** `'"' + x + '"'`. */
  function Quote(x: string): string
  {
    "\"" + x + "\""
  }

  lemma Trim1Quote(x: string)
    ensures Trim1(Quote(x)) == x
  {
  }

  predicate StartsWith(s: string, prefix: string)
  {
    |prefix| <= |s| && s[..|prefix|] == prefix
  }

  predicate EndsWith(s: string, suffix: string)
  {
    |suffix| <= |s| && s[|s| - |suffix|..] == suffix
  }

  /** `pat` occurs in `s` starting at index `i`. */
  predicate OccursAt(s: string, pat: string, i: nat)
  {
    i + |pat| <= |s| && s[i..i + |pat|] == pat
  }

  /** `s.replace(pat, '')`: delete the non-overlapping occurrences of `pat`, left to right. */
  function RemoveAll(s: string, pat: string): (r: string)
    requires |pat| > 0
    ensures |r| <= |s|
    ensures (forall i: nat :: !OccursAt(s, pat, i)) ==> r == s
  {
    if |s| < |pat| then s
    else if s[..|pat|] == pat then
      assert OccursAt(s, pat, 0);
      RemoveAll(s[|pat|..], pat)
    else
      assert forall i: nat :: OccursAt(s[1..], pat, i) ==> OccursAt(s, pat, i + 1) by {
        forall i: nat | OccursAt(s[1..], pat, i) ensures OccursAt(s, pat, i + 1) {
          assert s[1..][i..i + |pat|] == s[i + 1..i + 1 + |pat|];
        }
      }
      var rest := RemoveAll(s[1..], pat);
      [s[0]] + rest
  }

  /** Where `pat` does not start the text, its first character is kept. */
  lemma RemoveAllSkip(s: string, pat: string)
    requires |pat| > 0 && |s| > 0 && !OccursAt(s, pat, 0)
    ensures RemoveAll(s, pat) == [s[0]] + RemoveAll(s[1..], pat)
  {
    if |s| >= |pat| {
      assert s[..|pat|] != pat;
    } else {
      assert forall j: nat :: !OccursAt(s[1..], pat, j);
      assert s == [s[0]] + s[1..];
    }
  }

  /** Dropping the first character shifts every occurrence one place left. */
  lemma OccursShift(s: string, pat: string, j: nat)
    requires |s| > 0
    ensures OccursAt(s[1..], pat, j) <==> OccursAt(s, pat, j + 1)
  {
    if j + 1 + |pat| <= |s| {
      assert s[1..][j..j + |pat|] == s[j + 1..j + 1 + |pat|];
    }
  }

  /**
   * A text that ends in `pat` and holds no earlier occurrence of it loses
   * exactly that suffix.
   */
  lemma {:induction false} RemoveAllSuffix(q: string, pat: string)
    requires |pat| > 0
    requires forall i: nat :: OccursAt(q + pat, pat, i) ==> i == |q|
    ensures RemoveAll(q + pat, pat) == q
    decreases |q|
  {
    var s := q + pat;
    if |q| == 0 {
      assert s == pat && s[..|pat|] == pat && s[|pat|..] == [];
    } else {
      SuffixTail(q, pat);
      hide RemoveAll, OccursAt;
      RemoveAllSkip(s, pat);
      RemoveAllSuffix(q[1..], pat);
      assert [q[0]] + q[1..] == q;
    }
  }

  /** The hypothesis of `RemoveAllSuffix` carries over to the tail of `q`. */
  lemma SuffixTail(q: string, pat: string)
    requires |q| > 0
    requires forall i: nat :: OccursAt(q + pat, pat, i) ==> i == |q|
    ensures !OccursAt(q + pat, pat, 0) && (q + pat)[1..] == q[1..] + pat
    ensures forall i: nat :: OccursAt(q[1..] + pat, pat, i) ==> i == |q[1..]|
  {
    var s := q + pat;
    assert s[1..] == q[1..] + pat;
    forall i: nat | OccursAt(q[1..] + pat, pat, i)
      ensures i == |q[1..]|
    {
      OccursShift(s, pat, i);
    }
  }

  /** Index of the last `c` in `s`, or -1 (`str.rfind`). */
  function LastIndexOf(s: string, c: char): (i: int)
    ensures -1 <= i < |s|
    ensures i >= 0 ==> s[i] == c
    ensures forall k :: i < k < |s| ==> s[k] != c
  {
    if |s| == 0 then -1 else if s[|s| - 1] == c then |s| - 1 else LastIndexOf(s[..|s| - 1], c)
  }

  /** Index of the first `c` in `s`, or -1 (`str.find`). */
  function IndexOf(s: string, c: char): (i: int)
    ensures -1 <= i < |s|
    ensures i >= 0 ==> s[i] == c
    ensures forall k :: 0 <= k < (if i < 0 then |s| else i) ==> s[k] != c
  {
    if |s| == 0 then -1
    else if s[0] == c then 0
    else var j := IndexOf(s[1..], c); if j < 0 then -1 else j + 1
  }

  /**
   * `os.path.splitext(p)[1][1:]`: the text after the last dot of the base name, provided
   * that dot is preceded in the base name by something other than dots; otherwise empty.
   */
  function Extension(p: string): (ext: string)
    ensures '.' !in ext && '/' !in ext
    ensures ext != "" ==>
              |ext| < |p| && p[|p| - |ext|..] == ext && p[|p| - |ext| - 1] == '.'
              && exists k :: LastIndexOf(p, '/') < k < |p| - |ext| - 1 && p[k] != '.'
    ensures forall d :: LastIndexOf(p, '/') < d < |p| - 1 && p[d] == '.' && '.' !in p[d + 1..]
              && (exists k :: LastIndexOf(p, '/') < k < d && p[k] != '.')
              ==> ext == p[d + 1..]
  {
    var sepIndex := LastIndexOf(p, '/');
    var dotIndex := LastIndexOf(p, '.');
    if dotIndex > sepIndex && exists k :: sepIndex < k < dotIndex && p[k] != '.' then
      p[dotIndex + 1..]
    else
      ""
  }

  /** The text before the first `c`, or all of `s` when there is none. */
  function Before(s: string, c: char): (r: string)
    ensures c !in r && StartsWith(s, r) && (|r| == |s| || s[|r|] == c)
  {
    var i := IndexOf(s, c);
    if i < 0 then s else s[..i]
  }

  /** The text after the first `c`. */
  function After(s: string, c: char): string
    requires c in s
  {
    s[IndexOf(s, c) + 1..]
  }

  /** The first piece of a split is the text before the first separator; the others split what follows it. */
  lemma {:induction false} SplitFirst(s: string, c: char)
    ensures Split(s, c)[0] == Before(s, c)
    ensures c in s ==> Split(s, c)[1..] == Split(After(s, c), c)
  {
    if |s| > 0 && s[0] != c {
      SplitFirst(s[1..], c);
      BeforeAfterCons(s, c);
      var rest := Split(s[1..], c);
      assert Split(s, c) == [[s[0]] + rest[0]] + rest[1..];
    }
  }

  /** Past a first character other than `c`, the first `c` is the tail's. */
  lemma BeforeAfterCons(s: string, c: char)
    requires |s| > 0 && s[0] != c
    ensures Before(s, c) == [s[0]] + Before(s[1..], c)
    ensures c in s ==> c in s[1..] && After(s, c) == After(s[1..], c)
  {
    var j := IndexOf(s[1..], c);
    assert IndexOf(s, c) == (if j < 0 then -1 else j + 1);
    if j >= 0 {
      assert s[..j + 1] == [s[0]] + s[1..][..j];
      assert s[j + 2..] == s[1..][j + 1..];
    } else {
      assert s == [s[0]] + s[1..];
    }
    if c in s {
      var k :| 0 <= k < |s| && s[k] == c;
      assert s[1..][k - 1] == c;
    }
  }
}

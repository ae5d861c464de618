/** The string operations the bot applies to messages and arguments, with
    Python's semantics: `s.split(sep)`, `sep.join(parts)`, `s.upper()` and the
    substring test `a in s`. */
module Text {

  /** True if `a` occurs in `s` starting at position i. */
  predicate OccursAt(a: string, s: string, i: nat)
  {
    i + |a| <= |s| && s[i..i + |a|] == a
  }

  /** True if `a` occurs in `s` as a contiguous block (Python's `a in s` on strings). */
  predicate IsSubstring(a: string, s: string)
  {
    exists i :: 0 <= i <= |s| - |a| && OccursAt(a, s, i)
  }

  /** Upper case of one character: the ASCII letters a-z map to A-Z. */
  function UpperChar(c: char): (u: char)
    ensures !('a' <= u <= 'z')
    ensures !('a' <= c <= 'z') ==> u == c
    ensures 'a' <= c <= 'z' ==> 'A' <= u <= 'Z' && u as int - 'A' as int == c as int - 'a' as int
  {
    if 'a' <= c <= 'z' then (c as int - 'a' as int + 'A' as int) as char else c
  }

  /** Python's `s.upper()`, restricted to ASCII letters. */
  function Upper(s: string): (u: string)
    ensures |u| == |s|
    ensures forall i :: 0 <= i < |s| ==> u[i] == UpperChar(s[i])
  {
    seq(|s|, i requires 0 <= i < |s| => UpperChar(s[i]))
  }

  /** Upper-casing twice is upper-casing once. */
  lemma UpperIdempotent(s: string)
    ensures Upper(Upper(s)) == Upper(s)
  {
  }

  /** Python's `s.split(sep)` for a one-character separator: the pieces
      between separators, so one more piece than there are separators. */
  function Split(sep: char, s: string): (parts: seq<string>)
    ensures |parts| >= 1
    ensures forall k :: 0 <= k < |parts| ==> sep !in parts[k]
    decreases |s|
  {
    if s == [] then [[]]
    else
      assert s == [s[0]] + s[1..];
      var rest := Split(sep, s[1..]);
      if s[0] == sep then [[]] + rest
      else [[s[0]] + rest[0]] + rest[1..]
  }

  /** A split has one more piece than the string has separators. */
  lemma {:induction false} SplitCount(sep: char, s: string)
    ensures |Split(sep, s)| == multiset(s)[sep] + 1
    decreases |s|
  {
    if s != [] {
      SplitCount(sep, s[1..]);
      assert s == [s[0]] + s[1..];
      assert multiset(s) == multiset([s[0]]) + multiset(s[1..]);
    }
  }

  /** Python's `sep.join(parts)` for a one-character separator. */
  function Join(sep: char, parts: seq<string>): (s: string)
    ensures |parts| == 1 ==> s == parts[0]
    ensures |parts| == 0 ==> s == []
  {
    if |parts| == 0 then []
    else if |parts| == 1 then parts[0]
    else parts[0] + [sep] + Join(sep, parts[1..])
  }

  /** Joining a piece in front of at least one more adds it and a separator. */
  lemma JoinCons(sep: char, p: string, rest: seq<string>)
    requires |rest| >= 1
    ensures Join(sep, [p] + rest) == p + [sep] + Join(sep, rest)
  {
    assert ([p] + rest)[1..] == rest;
  }

  /** Putting a character in front of the first piece puts it in front of the join. */
  lemma JoinPrepend(sep: char, c: char, parts: seq<string>)
    requires |parts| >= 1
    ensures Join(sep, [[c] + parts[0]] + parts[1..]) == [c] + Join(sep, parts)
  {
    if |parts| > 1 {
      JoinCons(sep, [c] + parts[0], parts[1..]);
      JoinCons(sep, parts[0], parts[1..]);
      assert [parts[0]] + parts[1..] == parts;
    }
  }

  /** The step of JoinSplit for a string that starts with the separator. */
  lemma JoinSplitAtSeparator(sep: char, s: string)
    requires s != [] && s[0] == sep
    requires Join(sep, Split(sep, s[1..])) == s[1..]
    ensures Join(sep, Split(sep, s)) == s
  {
    var rest := Split(sep, s[1..]);
    assert Split(sep, s) == [[]] + rest;
    assert Join(sep, [[]] + rest) == [sep] + s[1..] by {
      JoinCons(sep, [], rest);
    }
    assert [sep] + s[1..] == s;
  }

  /** The step of JoinSplit for a string that starts with another character. */
  lemma JoinSplitAtOther(sep: char, s: string)
    requires s != [] && s[0] != sep
    requires Join(sep, Split(sep, s[1..])) == s[1..]
    ensures Join(sep, Split(sep, s)) == s
  {
    var rest := Split(sep, s[1..]);
    assert Split(sep, s) == [[s[0]] + rest[0]] + rest[1..];
    JoinPrepend(sep, s[0], rest);
    assert s == [s[0]] + s[1..];
  }

  /** Joining the pieces of a split gives back the string. */
  lemma {:induction false} JoinSplit(sep: char, s: string)
    ensures Join(sep, Split(sep, s)) == s
    decreases |s|
  {
    if s != [] {
      JoinSplit(sep, s[1..]);
      if s[0] == sep {
        JoinSplitAtSeparator(sep, s);
      } else {
        JoinSplitAtOther(sep, s);
      }
    }
  }

  /** Splitting at a separator that was placed between two strings splits
      each side on its own. */
  lemma {:induction false} SplitAround(sep: char, a: string, b: string)
    ensures Split(sep, a + [sep] + b) == Split(sep, a) + Split(sep, b)
    decreases |a|
  {
    var s := a + [sep] + b;
    if a == [] {
      assert s[1..] == b;
    } else {
      assert s[0] == a[0] && s[1..] == a[1..] + [sep] + b;
      SplitAround(sep, a[1..], b);
    }
  }

  /** A string with no separator splits into itself alone. */
  lemma {:induction false} SplitNoSeparator(sep: char, p: string)
    requires sep !in p
    ensures Split(sep, p) == [p]
    decreases |p|
  {
    if p != [] {
      SplitNoSeparator(sep, p[1..]);
      assert p == [p[0]] + p[1..];
    }
  }

  /** Splitting a join gives back the pieces, when there is at least one piece
      and no piece contains the separator. */
  lemma {:induction false} SplitJoin(sep: char, parts: seq<string>)
    requires |parts| >= 1
    requires forall k :: 0 <= k < |parts| ==> sep !in parts[k]
    ensures Split(sep, Join(sep, parts)) == parts
    decreases |parts|
  {
    if |parts| == 1 {
      SplitNoSeparator(sep, parts[0]);
    } else {
      SplitJoin(sep, parts[1..]);
      SplitAround(sep, parts[0], Join(sep, parts[1..]));
      SplitNoSeparator(sep, parts[0]);
      assert parts == [parts[0]] + parts[1..];
    }
  }

  /** A string without separators up to position n lies at the start of the
      first piece of a split. */
  lemma {:induction false} PrefixInFirstPiece(sep: char, s: string, n: nat)
    requires n <= |s| && sep !in s[..n]
    ensures n <= |Split(sep, s)[0]| && Split(sep, s)[0][..n] == s[..n]
    decreases |s|
  {
    if n > 0 {
      assert s[0] == s[..n][0];
      assert s[1..][..n - 1] == s[1..n];
      assert forall c :: c in s[1..][..n - 1] ==> c in s[..n];
      PrefixInFirstPiece(sep, s[1..], n - 1);
    }
  }

  /** A string occurs in any concatenation it sits in the middle of. */
  lemma InMiddle(x: string, a: string, y: string)
    ensures IsSubstring(a, x + a + y)
  {
    assert (x + a + y)[|x|..|x| + |a|] == a;
    assert OccursAt(a, x + a + y, |x|);
  }

  /** A substring of a suffix is a substring of the whole. */
  lemma SubstringOfTail(a: string, c: char, t: string)
    requires IsSubstring(a, t)
    ensures IsSubstring(a, [c] + t)
  {
    var i :| 0 <= i <= |t| - |a| && OccursAt(a, t, i);
    assert ([c] + t)[i + 1..i + 1 + |a|] == t[i..i + |a|];
    assert OccursAt(a, [c] + t, i + 1);
  }

  /** An occurrence of a string without separators lies inside one piece of the split. */
  lemma {:induction false} OccurrenceInSomePiece(sep: char, a: string, s: string, i: nat)
    requires sep !in a
    requires OccursAt(a, s, i)
    ensures exists k :: 0 <= k < |Split(sep, s)| && IsSubstring(a, Split(sep, s)[k])
    decreases i
  {
    var parts := Split(sep, s);
    if i == 0 {
      assert s[..|a|] == a;
      PrefixInFirstPiece(sep, s, |a|);
      assert parts[0][0..|a|] == a;
      assert OccursAt(a, parts[0], 0);
    } else {
      var rest := Split(sep, s[1..]);
      assert s[1..][i - 1..i - 1 + |a|] == a;
      assert OccursAt(a, s[1..], i - 1);
      OccurrenceInSomePiece(sep, a, s[1..], i - 1);
      var k :| 0 <= k < |rest| && IsSubstring(a, rest[k]);
      if s[0] == sep {
        assert parts[k + 1] == rest[k];
      } else if k == 0 {
        SubstringOfTail(a, s[0], rest[0]);
        assert IsSubstring(a, parts[0]);
      } else {
        assert parts[k] == rest[k];
      }
    }
  }

  /** Upper-casing commutes with joining, for a separator that is not a
      lower-case letter. */
  lemma {:induction false} UpperJoin(sep: char, parts: seq<string>)
    requires !('a' <= sep <= 'z')
    ensures Upper(Join(sep, parts)) == Join(sep, seq(|parts|, k requires 0 <= k < |parts| => Upper(parts[k])))
    decreases |parts|
  {
    var ups := seq(|parts|, k requires 0 <= k < |parts| => Upper(parts[k]));
    if |parts| > 1 {
      UpperJoin(sep, parts[1..]);
      assert ups[1..] == seq(|parts[1..]|, k requires 0 <= k < |parts[1..]| => Upper(parts[1..][k]));
      assert Upper(parts[0] + [sep] + Join(sep, parts[1..])) ==
             Upper(parts[0]) + [sep] + Upper(Join(sep, parts[1..]));
    }
  }
}

/** The java.lang.String operations the core relies on: String.join,
    String.trim, the natural ordering String.compareTo that Arrays.sort uses,
    and splitting on a separator character (the reference the CSV reader is
    compared against). Strings are seq<char>. */
module Strings {

  // ---------------------------------------------------------------- join

  /** String.join(sep, xs): the elements separated by exactly one sep. */
  function Join(xs: seq<string>, sep: string): string
  {
    if |xs| == 0 then ""
    else if |xs| == 1 then xs[0]
    else Join(xs[..|xs| - 1], sep) + sep + xs[|xs| - 1]
  }

  /** Joining one more element at the end adds one separator and the element. */
  lemma JoinSnoc(xs: seq<string>, x: string, sep: string)
    requires |xs| > 0
    ensures Join(xs + [x], sep) == Join(xs, sep) + sep + x
  {
    assert (xs + [x])[..|xs|] == xs;
  }

  /** Joining one more element at the front adds the element and one separator. */
  lemma {:induction false} JoinCons(x: string, xs: seq<string>, sep: string)
    requires |xs| > 0
    ensures Join([x] + xs, sep) == x + sep + Join(xs, sep)
    decreases |xs|
  {
    var n := |xs|;
    if n == 1 {
      assert [x] + xs == [x, xs[0]];
      assert [x, xs[0]][..1] == [x];
    } else {
      var init := xs[..n - 1];
      assert ([x] + xs)[..n] == [x] + init;
      JoinCons(x, init, sep);
      assert Join([x] + xs, sep) == Join([x] + init, sep) + sep + xs[n - 1];
    }
  }

  // --------------------------------------------------------------- count

  /** Number of occurrences of c in s. */
  function Count(c: char, s: string): nat
  {
    if |s| == 0 then 0 else (if s[0] == c then 1 else 0) + Count(c, s[1..])
  }

  lemma {:induction false} CountAppend(c: char, a: string, b: string)
    ensures Count(c, a + b) == Count(c, a) + Count(c, b)
    decreases |a|
  {
    if |a| == 0 {
      assert a + b == b;
    } else {
      assert (a + b)[1..] == a[1..] + b;
      CountAppend(c, a[1..], b);
    }
  }

  lemma {:induction false} CountAbsent(c: char, s: string)
    requires c !in s
    ensures Count(c, s) == 0
    decreases |s|
  {
    if |s| > 0 {
      assert c !in s[1..] by {
        forall i | 0 <= i < |s| - 1 ensures s[1..][i] != c { assert s[1..][i] == s[i + 1]; }
      }
      CountAbsent(c, s[1..]);
    }
  }

  /** Separators in a join: if no element holds the one-character separator,
      n elements are joined with exactly n - 1 separators. */
  lemma {:induction false} JoinSeparatorCount(xs: seq<string>, c: char)
    requires |xs| > 0
    requires forall i :: 0 <= i < |xs| ==> c !in xs[i]
    ensures Count(c, Join(xs, [c])) == |xs| - 1
    decreases |xs|
  {
    var n := |xs|;
    CountAbsent(c, xs[n - 1]);
    if n > 1 {
      var init := xs[..n - 1];
      JoinSeparatorCount(init, c);
      CountAppend(c, Join(init, [c]) + [c], xs[n - 1]);
      CountAppend(c, Join(init, [c]), [c]);
    }
  }

  // ---------------------------------------------------------------- trim

  /** The characters String.trim removes: every code point up to U+0020. */
  predicate IsTrimmable(c: char)
  {
    c <= ' '
  }

  function TrimStart(s: string): string
  {
    if |s| > 0 && IsTrimmable(s[0]) then TrimStart(s[1..]) else s
  }

  function TrimEnd(s: string): string
  {
    if |s| > 0 && IsTrimmable(s[|s| - 1]) then TrimEnd(s[..|s| - 1]) else s
  }

  /** String.trim(). */
  function Trim(s: string): string
  {
    TrimEnd(TrimStart(s))
  }

  /** Neither end of s is a character String.trim would remove. */
  predicate IsTrimmed(s: string)
  {
    |s| == 0 || (!IsTrimmable(s[0]) && !IsTrimmable(s[|s| - 1]))
  }

  /** s.trim().isEmpty(): every character is one trim removes. */
  predicate IsBlank(s: string)
  {
    forall i :: 0 <= i < |s| ==> IsTrimmable(s[i])
  }

  lemma {:induction false} TrimStartShape(s: string)
    ensures |TrimStart(s)| <= |s| && TrimStart(s) == s[|s| - |TrimStart(s)|..]
    ensures |TrimStart(s)| > 0 ==> !IsTrimmable(TrimStart(s)[0])
    ensures TrimStart(s) == [] <==> IsBlank(s)
    decreases |s|
  {
    if |s| > 0 && IsTrimmable(s[0]) {
      TrimStartShape(s[1..]);
      assert IsBlank(s[1..]) <==> IsBlank(s) by {
        if IsBlank(s[1..]) {
          forall i | 0 <= i < |s| ensures IsTrimmable(s[i]) {
            if i > 0 { assert s[i] == s[1..][i - 1]; }
          }
        }
        if IsBlank(s) {
          forall i | 0 <= i < |s| - 1 ensures IsTrimmable(s[1..][i]) { assert s[1..][i] == s[i + 1]; }
        }
      }
    } else if |s| > 0 {
      assert !IsBlank(s);
    }
  }

  lemma {:induction false} TrimEndShape(s: string)
    ensures |TrimEnd(s)| <= |s| && TrimEnd(s) == s[..|TrimEnd(s)|]
    ensures |TrimEnd(s)| > 0 ==> !IsTrimmable(TrimEnd(s)[|TrimEnd(s)| - 1])
    ensures TrimEnd(s) == [] <==> IsBlank(s)
    decreases |s|
  {
    if |s| > 0 && IsTrimmable(s[|s| - 1]) {
      var init := s[..|s| - 1];
      TrimEndShape(init);
      assert IsBlank(init) <==> IsBlank(s) by {
        if IsBlank(init) {
          forall i | 0 <= i < |s| ensures IsTrimmable(s[i]) {
            if i < |s| - 1 { assert s[i] == init[i]; }
          }
        }
      }
    } else if |s| > 0 {
      assert !IsBlank(s);
    }
  }

  /** String.trim returns a trimmed string, and it is empty exactly when
      the input is blank. */
  lemma TrimProperties(s: string)
    ensures IsTrimmed(Trim(s))
    ensures Trim(s) == [] <==> IsBlank(s)
  {
    var t := TrimStart(s);
    TrimStartShape(s);
    TrimEndShape(t);
    if |Trim(s)| > 0 {
      assert Trim(s)[0] == t[0];
    }
  }

  // ------------------------------------------------------------ ordering

  /** a.compareTo(b) <= 0: lexicographic order by character, a proper
      prefix coming first. */
  predicate LexLe(a: string, b: string)
    decreases |a|
  {
    |a| == 0 || (|b| > 0 && (a[0] < b[0] || (a[0] == b[0] && LexLe(a[1..], b[1..]))))
  }

  lemma {:induction false} LexLeTotal(a: string, b: string)
    ensures LexLe(a, b) || LexLe(b, a)
    decreases |a|
  {
    if |a| > 0 && |b| > 0 && a[0] == b[0] {
      LexLeTotal(a[1..], b[1..]);
    }
  }

  lemma {:induction false} LexLeReflexive(a: string)
    ensures LexLe(a, a)
    decreases |a|
  {
    if |a| > 0 { LexLeReflexive(a[1..]); }
  }

  lemma {:induction false} LexLeAntisymmetric(a: string, b: string)
    requires LexLe(a, b) && LexLe(b, a)
    ensures a == b
    decreases |a|
  {
    if |a| > 0 {
      LexLeAntisymmetric(a[1..], b[1..]);
      assert a == [a[0]] + a[1..] && b == [b[0]] + b[1..];
    }
  }

  lemma {:induction false} LexLeTransitive(a: string, b: string, c: string)
    requires LexLe(a, b) && LexLe(b, c)
    ensures LexLe(a, c)
    decreases |a|
  {
    if |a| > 0 && a[0] == b[0] && b[0] == c[0] {
      LexLeTransitive(a[1..], b[1..], c[1..]);
    }
  }

  // ----------------------------------------------------------- sorting

  predicate Sorted(s: seq<string>)
  {
    forall i, j :: 0 <= i < j < |s| ==> LexLe(s[i], s[j])
  }

  /** Insertion of x into a sorted sequence, before the first element it
      does not exceed. */
  function Insert(x: string, s: seq<string>): seq<string>
  {
    if |s| == 0 then [x]
    else if LexLe(x, s[0]) then [x] + s
    else [s[0]] + Insert(x, s[1..])
  }

  /** Arrays.sort on a copy of the array: the sorted permutation. */
  function Sort(s: seq<string>): seq<string>
  {
    if |s| == 0 then [] else Insert(s[0], Sort(s[1..]))
  }

  lemma {:induction false} InsertPermutes(x: string, s: seq<string>)
    ensures multiset(Insert(x, s)) == multiset(s) + multiset{x}
    decreases |s|
  {
    if |s| > 0 && !LexLe(x, s[0]) {
      InsertPermutes(x, s[1..]);
      assert s == [s[0]] + s[1..];
    }
  }

  lemma {:induction false} InsertSorted(x: string, s: seq<string>)
    requires Sorted(s)
    ensures Sorted(Insert(x, s))
    decreases |s|
  {
    if |s| > 0 {
      if LexLe(x, s[0]) {
        var r := [x] + s;
        forall i, j | 0 <= i < j < |r| ensures LexLe(r[i], r[j]) {
          if i == 0 {
            if j > 1 { LexLeTransitive(x, s[0], s[j - 1]); }
          }
        }
      } else {
        LexLeTotal(x, s[0]);
        var tail := Insert(x, s[1..]);
        InsertSorted(x, s[1..]);
        InsertPermutes(x, s[1..]);
        var r := [s[0]] + tail;
        forall i, j | 0 <= i < j < |r| ensures LexLe(r[i], r[j]) {
          if i == 0 {
            assert r[j] in multiset(tail);
            assert r[j] == x || r[j] in multiset(s[1..]);
            if r[j] != x {
              var k :| 0 <= k < |s[1..]| && s[1..][k] == r[j];
              assert s[k + 1] == r[j];
            }
          }
        }
      }
    }
  }

  lemma {:induction false} SortPermutes(s: seq<string>)
    ensures multiset(Sort(s)) == multiset(s)
    decreases |s|
  {
    if |s| > 0 {
      SortPermutes(s[1..]);
      InsertPermutes(s[0], Sort(s[1..]));
      assert s == [s[0]] + s[1..];
    }
  }

  lemma {:induction false} SortSorted(s: seq<string>)
    ensures Sorted(Sort(s))
    decreases |s|
  {
    if |s| > 0 {
      SortSorted(s[1..]);
      InsertSorted(s[0], Sort(s[1..]));
    }
  }

  /** The head of a sorted sequence is below every element of it. */
  lemma SortedHeadLeast(a: seq<string>, x: string)
    requires Sorted(a) && x in multiset(a)
    ensures |a| > 0 && LexLe(a[0], x)
  {
    var i :| 0 <= i < |a| && a[i] == x;
    if i == 0 { LexLeReflexive(x); }
  }

  lemma TailMultiset(a: seq<string>)
    requires |a| > 0
    ensures multiset(a[1..]) == multiset(a) - multiset{a[0]}
  {
    assert a == [a[0]] + a[1..];
  }

  /** A multiset has exactly one sorted arrangement. */
  lemma {:induction false} SortedUnique(a: seq<string>, b: seq<string>)
    requires Sorted(a) && Sorted(b) && multiset(a) == multiset(b)
    ensures a == b
    decreases |a|
  {
    if |a| == 0 {
      assert |b| == |multiset(b)| == 0;
    } else {
      assert a[0] in multiset(a);
      SortedHeadLeast(b, a[0]);
      SortedHeadLeast(a, b[0]);
      LexLeAntisymmetric(a[0], b[0]);
      TailMultiset(a);
      TailMultiset(b);
      SortedUnique(a[1..], b[1..]);
      assert a == [a[0]] + a[1..] && b == [b[0]] + b[1..];
    }
  }

  // ----------------------------------------------------------- splitting

  /** Splitting on every occurrence of sep, keeping empty pieces: the pieces
      between consecutive separators. */
  function Split(s: string, sep: char): (pieces: seq<string>)
    ensures |pieces| >= 1
  {
    if |s| == 0 then [""]
    else
      var rest := Split(s[1..], sep);
      if s[0] == sep then [""] + rest else [[s[0]] + rest[0]] + rest[1..]
  }

  /** One piece more than there are separators. */
  lemma {:induction false} SplitCount(s: string, sep: char)
    ensures |Split(s, sep)| == Count(sep, s) + 1
    decreases |s|
  {
    if |s| > 0 { SplitCount(s[1..], sep); }
  }

  /** Joining the pieces with the separator gives back the string. */
  lemma {:induction false} JoinSplit(s: string, sep: char)
    ensures Join(Split(s, sep), [sep]) == s
    decreases |s|
  {
    if |s| > 0 {
      var rest := Split(s[1..], sep);
      JoinSplit(s[1..], sep);
      if s[0] == sep {
        JoinCons("", rest, [sep]);
        assert s == [sep] + s[1..];
      } else if |rest| == 1 {
        assert s == [s[0]] + s[1..];
      } else {
        JoinCons([s[0]] + rest[0], rest[1..], [sep]);
        assert rest == [rest[0]] + rest[1..];
        JoinCons(rest[0], rest[1..], [sep]);
        assert s == [s[0]] + s[1..];
      }
    }
  }
}

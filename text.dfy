/** The string operations the resolver uses, written out as Python defines
    them: `sep.join(parts)`, `s.split(d)`, `s.replace(c, "")`, string
    comparison (code point by code point, a proper prefix first) and
    `sorted(set(xs), reverse=True)`. */
module Text {

  /** The parts concatenated with `sep` between neighbours. */
  function Join(parts: seq<string>, sep: string): string
  {
    if |parts| == 0 then ""
    else if |parts| == 1 then parts[0]
    else parts[0] + sep + Join(parts[1..], sep)
  }

  /** A join of three parts, written out. */
  lemma JoinThree(xs: seq<string>, sep: string)
    requires |xs| == 3
    ensures Join(xs, sep) == xs[0] + sep + (xs[1] + sep + xs[2])
  {
    var tail := xs[1..];
    assert tail[1..] == [xs[2]] && tail[0] == xs[1];
    assert Join(tail, sep) == xs[1] + sep + Join([xs[2]], sep);
  }

  /** The pieces of `s` between occurrences of the one-character separator `d`:
      never empty, and no piece holds `d`. */
  function Split(s: string, d: char): (r: seq<string>)
    ensures |r| >= 1
    ensures forall i :: 0 <= i < |r| ==> d !in r[i]
  {
    if |s| == 0 then [""]
    else if s[0] == d then [""] + Split(s[1..], d)
    else
      var rest := Split(s[1..], d);
      [[s[0]] + rest[0]] + rest[1..]
  }

  /** Splitting then joining with the same separator gives back the string. */
  lemma {:induction false} JoinSplit(s: string, d: char)
    ensures Join(Split(s, d), [d]) == s
  {
    if |s| > 0 {
      var rest := Split(s[1..], d);
      JoinSplit(s[1..], d);
      if s[0] == d {
        assert ([""] + rest)[1..] == rest;
      } else if |rest| > 1 {
        assert ([[s[0]] + rest[0]] + rest[1..])[1..] == rest[1..];
      }
    }
  }

  /** A piece with no separator in front of a separator splits off as one piece. */
  lemma {:induction false} SplitPiece(a: string, d: char, rest: string)
    requires d !in a
    ensures Split(a + [d] + rest, d) == [a] + Split(rest, d)
  {
    if |a| > 0 {
      assert (a + [d] + rest)[1..] == a[1..] + [d] + rest;
      SplitPiece(a[1..], d, rest);
      assert [a[0]] + a[1..] == a;
    } else {
      assert a + [d] + rest == [d] + rest;
      assert ([d] + rest)[1..] == rest;
    }
  }

  lemma {:induction false} SplitNone(a: string, d: char)
    requires d !in a
    ensures Split(a, d) == [a]
  {
    if |a| > 0 {
      SplitNone(a[1..], d);
      assert [a[0]] + a[1..] == a;
    }
  }

  /** `s` with every `c` removed and everything else kept in order. */
  function Strip(s: string, c: char): (r: string)
    ensures c !in r
    ensures forall x :: x in r ==> x in s
  {
    if |s| == 0 then ""
    else Strip(s[..|s| - 1], c) + (if s[|s| - 1] == c then "" else [s[|s| - 1]])
  }

  lemma {:induction false} StripUnchanged(s: string, c: char)
    requires c !in s
    ensures Strip(s, c) == s
  {
    if |s| > 0 {
      StripUnchanged(s[..|s| - 1], c);
    }
  }

  /** Appending the marker does not change what is left once markers are stripped. */
  lemma StripMarker(s: string, c: char)
    ensures Strip(s + [c], c) == Strip(s, c)
  {
    assert (s + [c])[..|s|] == s;
  }

  /** Python's `a < b` on strings. */
  predicate Less(a: string, b: string)
  {
    if |a| == 0 then |b| > 0
    else if |b| == 0 then false
    else if a[0] != b[0] then a[0] < b[0]
    else Less(a[1..], b[1..])
  }

  lemma {:induction false} LessIrreflexive(a: string)
    ensures !Less(a, a)
  {
    if |a| > 0 {
      LessIrreflexive(a[1..]);
    }
  }

  lemma {:induction false} LessTransitive(a: string, b: string, c: string)
    requires Less(a, b) && Less(b, c)
    ensures Less(a, c)
  {
    if |a| > 0 && |b| > 0 && |c| > 0 && a[0] == b[0] && b[0] == c[0] {
      LessTransitive(a[1..], b[1..], c[1..]);
    }
  }

  lemma {:induction false} LessTotal(a: string, b: string)
    requires a != b
    ensures Less(a, b) || Less(b, a)
  {
    if |a| > 0 && |b| > 0 && a[0] == b[0] {
      assert a == [a[0]] + a[1..] && b == [b[0]] + b[1..];
      LessTotal(a[1..], b[1..]);
    }
  }

  /** Strictly decreasing in Python's string order, hence free of duplicates. */
  ghost predicate StrictlyDescending(r: seq<string>)
  {
    forall i, j :: 0 <= i < j < |r| ==> Less(r[j], r[i])
  }

  /** Puts `x` into its place in a strictly descending list, unless present. */
  function InsertDescending(x: string, r: seq<string>): (q: seq<string>)
    requires StrictlyDescending(r)
    ensures StrictlyDescending(q)
    ensures forall y :: y in q <==> y == x || y in r
  {
    if |r| == 0 then [x]
    else if x == r[0] then r
    else if Less(r[0], x) then
      assert forall j :: 0 < j < |r| ==> Less(r[j], x) by {
        forall j | 0 < j < |r| ensures Less(r[j], x) {
          LessTransitive(r[j], r[0], x);
        }
      }
      [x] + r
    else
      LessTotal(x, r[0]);
      var tail := InsertDescending(x, r[1..]);
      assert forall y :: y in r <==> y == r[0] || y in r[1..] by {
        assert r == [r[0]] + r[1..];
      }
      assert forall y :: y in tail ==> Less(y, r[0]);
      [r[0]] + tail
  }

  /** The distinct values of `xs`, largest first. */
  function SortedDistinctDescending(xs: seq<string>): (r: seq<string>)
    ensures StrictlyDescending(r)
    ensures forall y :: y in r <==> y in xs
  {
    if |xs| == 0 then []
    else
      var n := |xs| - 1;
      assert forall y :: y in xs <==> y in xs[..n] || y == xs[n] by {
        assert xs == xs[..n] + [xs[n]];
      }
      InsertDescending(xs[n], SortedDistinctDescending(xs[..n]))
  }

  lemma {:induction false} LessAsymmetric(a: string, b: string)
    ensures !(Less(a, b) && Less(b, a))
  {
    if |a| > 0 && |b| > 0 && a[0] == b[0] {
      LessAsymmetric(a[1..], b[1..]);
    }
  }

  lemma FirstIsLargest(r: seq<string>, y: string)
    requires StrictlyDescending(r) && y in r
    ensures y == r[0] || Less(y, r[0])
  {
  }

  /** A strictly descending list is determined by its elements, so the order
      in which a set hands them out cannot change the sorted result. */
  lemma {:induction false} DescendingUnique(r: seq<string>, q: seq<string>)
    requires StrictlyDescending(r) && StrictlyDescending(q)
    requires forall y :: y in r <==> y in q
    ensures r == q
    decreases |r|
  {
    SameElementsSameEmptiness(r, q);
    if |r| > 0 && |q| > 0 {
      FirstIsLargest(r, q[0]);
      FirstIsLargest(q, r[0]);
      LessAsymmetric(r[0], q[0]);
      LessIrreflexive(r[0]);
      assert r == [r[0]] + r[1..] && q == [q[0]] + q[1..];
      forall y | y in r[1..] ensures y in q[1..] {
        var k :| 0 <= k < |r[1..]| && r[1..][k] == y;
        assert Less(r[k + 1], r[0]);
        assert y in q;
        var m :| 0 <= m < |q| && q[m] == y;
        assert m != 0;
        assert q[1..][m - 1] == y;
      }
      forall y | y in q[1..] ensures y in r[1..] {
        var k :| 0 <= k < |q[1..]| && q[1..][k] == y;
        assert Less(q[k + 1], q[0]);
        assert y in r;
        var m :| 0 <= m < |r| && r[m] == y;
        assert m != 0;
        assert r[1..][m - 1] == y;
      }
      DescendingUnique(r[1..], q[1..]);
    }
  }

  lemma SameElementsSameEmptiness(r: seq<string>, q: seq<string>)
    requires forall y :: y in r <==> y in q
    ensures |r| == 0 <==> |q| == 0
  {
    if |r| > 0 {
      assert r[0] in q;
    }
    if |q| > 0 {
      assert q[0] in r;
    }
  }
}

/** The handful of Python `str` operations the metadata layer and the HTTP
    handler build on, each with the semantics CPython gives it:
    `sep.join(parts)`, `s.split(c)`, `s.split(sep, 1)`, `s.rsplit(c, 1)[-1]`,
    `s.startswith(p)`, `s.replace(c, rep)` and `s[:n]`. */
module PyStrings {
  import opened Wrappers

  /** `p` is a prefix of `s` (Python's `s.startswith(p)`): `s` is `p`
      followed by the rest of `s`. */
  predicate StartsWith(s: string, p: string)
  {
    |p| <= |s| && s[..|p|] == p
  }

  /** `s.startswith(p)` holds exactly when `s` is `p` followed by more
      text. */
  lemma StartsWithIsPrefix(s: string, p: string)
    ensures StartsWith(s, p) <==> exists rest :: s == p + rest
  {
    if StartsWith(s, p) {
      assert s == p + s[|p|..];
    }
  }

  /** `pat` occurs in `s` starting at index `j`. */
  predicate OccursAt(s: string, pat: string, j: int) {
    0 <= j && j + |pat| <= |s| && s[j..j + |pat|] == pat
  }

  /** `pat` occurs somewhere in `s` (Python's `pat in s`). */
  predicate Occurs(s: string, pat: string) {
    exists j | 0 <= j <= |s| :: OccursAt(s, pat, j)
  }

  /** The total length of the parts. */
  function TotalLength(parts: seq<string>): (total: nat)
  {
    if |parts| == 0 then 0 else |parts[0]| + TotalLength(parts[1..])
  }

  /** `sep.join(parts)`: the parts in order with `sep` between neighbours,
      so one separator fewer than there are parts, and starting with the
      first part. */
  function Join(parts: seq<string>, sep: string): (joined: string)
    ensures |parts| >= 1 ==> |joined| == TotalLength(parts) + (|parts| - 1) * |sep|
  {
    if |parts| == 0 then ""
    else if |parts| == 1 then parts[0]
    else parts[0] + sep + Join(parts[1..], sep)
  }

  /** `s.split(c)` for a one-character separator: every occurrence of `c`
      cuts, so `k` separators give `k + 1` pieces, none of which holds `c`. */
  function Split(s: string, c: char): (pieces: seq<string>)
    ensures |pieces| >= 1
    ensures forall i :: 0 <= i < |pieces| ==> c !in pieces[i]
    ensures c !in s ==> pieces == [s]
  {
    if s == [] then [""]
    else
      var rest := Split(s[1..], c);
      assert s == [s[0]] + s[1..];
      if s[0] == c then [""] + rest
      else [[s[0]] + rest[0]] + rest[1..]
  }

  /** Index of the first occurrence of `pat` in `s` (Python's `s.find(pat)`,
      with `None` for -1). */
  function FindFirst(s: string, pat: string): (r: Option<nat>)
    ensures r.Some? ==> OccursAt(s, pat, r.value)
    ensures r.Some? ==> forall j :: 0 <= j < r.value ==> !OccursAt(s, pat, j)
    ensures r.None? <==> !Occurs(s, pat)
  {
    if |s| < |pat| then
      assert forall j :: !OccursAt(s, pat, j);
      None
    else if s[..|pat|] == pat then
      assert OccursAt(s, pat, 0);
      Some(0)
    else
      assert !OccursAt(s, pat, 0);
      ShiftOccurrence(s, pat);
      match FindFirst(s[1..], pat)
      case None =>
        assert forall j :: 1 <= j ==> !OccursAt(s, pat, j) by {
          forall j | 1 <= j ensures !OccursAt(s, pat, j) {
            assert !OccursAt(s[1..], pat, j - 1);
          }
        }
        None
      case Some(i) =>
        assert forall j :: 0 <= j < i + 1 ==> !OccursAt(s, pat, j) by {
          forall j | 1 <= j < i + 1 ensures !OccursAt(s, pat, j) {
            assert !OccursAt(s[1..], pat, j - 1);
          }
        }
        Some(i + 1)
  }

  /** Occurrences in `s[1..]` are the occurrences in `s` moved one to the left. */
  lemma ShiftOccurrence(s: string, pat: string)
    requires |s| >= 1
    ensures forall j :: 0 <= j ==> (OccursAt(s[1..], pat, j) <==> OccursAt(s, pat, j + 1))
  {
    forall j | 0 <= j
      ensures OccursAt(s[1..], pat, j) <==> OccursAt(s, pat, j + 1)
    {
      if j + |pat| <= |s| - 1 {
        assert s[1..][j..j + |pat|] == s[j + 1..j + 1 + |pat|];
      }
    }
  }

  /** `s.split(sep, 1)`: the whole string when `sep` does not occur,
      otherwise the text before and after its FIRST occurrence. Python
      raises ValueError for an empty separator, hence the precondition. */
  function SplitOnce(s: string, sep: string): (r: seq<string>)
    requires |sep| > 0
    ensures |r| == 1 <==> !Occurs(s, sep)
    ensures |r| == 1 ==> r[0] == s
    ensures |r| == 2 ==> s == r[0] + sep + r[1]
    ensures |r| == 2 ==> forall j :: 0 <= j < |r[0]| ==> !OccursAt(s, sep, j)
    ensures |r| == 2 ==> FindFirst(s, sep) == Some(|r[0]|)
    ensures 1 <= |r| <= 2
  {
    match FindFirst(s, sep)
    case None => [s]
    case Some(i) =>
      assert s == s[..i] + s[i..i + |sep|] + s[i + |sep|..];
      [s[..i], s[i + |sep|..]]
  }

  /** `s.rsplit(c, 1)[-1]`: the text after the last `c`, or all of `s`. */
  function AfterLast(s: string, c: char): (r: string)
    ensures c !in r
    ensures |r| <= |s| && s[|s| - |r|..] == r
    ensures |r| < |s| ==> s[|s| - |r| - 1] == c
  {
    if s == [] then ""
    else if s[|s| - 1] == c then ""
    else
      var r := AfterLast(s[..|s| - 1], c);
      assert s[|s| - |r| - 1..] == s[..|s| - 1][|s| - 1 - |r|..] + [s[|s| - 1]];
      r + [s[|s| - 1]]
  }

  /** `s.replace(c, rep)` for a one-character pattern. */
  function ReplaceChar(s: string, c: char, rep: string): (r: string)
    ensures forall x :: x in r ==> x in rep || (x in s && x != c)
  {
    if s == [] then ""
    else
      (if s[0] == c then rep else [s[0]]) + ReplaceChar(s[1..], c, rep)
  }

  /** Replacing in a concatenation replaces in each side. */
  lemma {:induction false} ReplaceCharConcat(a: string, b: string, c: char, rep: string)
    ensures ReplaceChar(a + b, c, rep) == ReplaceChar(a, c, rep) + ReplaceChar(b, c, rep)
    decreases |a|
  {
    if a != [] {
      assert (a + b)[0] == a[0] && (a + b)[1..] == a[1..] + b;
      ReplaceCharConcat(a[1..], b, c, rep);
    } else {
      assert a + b == b;
    }
  }

  /** `s.replace(c, rep)` is `rep.join(s.split(c))`: every occurrence of
      `c`, and nothing else, is replaced, in place. */
  lemma {:induction false} ReplaceCharIsSplitJoin(s: string, c: char, rep: string)
    ensures ReplaceChar(s, c, rep) == Join(Split(s, c), rep)
    decreases |s|
  {
    if s != [] {
      var rest := Split(s[1..], c);
      ReplaceCharIsSplitJoin(s[1..], c, rep);
      if s[0] == c {
        assert Split(s, c) == [""] + rest;
        JoinEmptyFirst(rest, rep);
      } else {
        assert Split(s, c) == [[s[0]] + rest[0]] + rest[1..];
        JoinCons(s[0], rest, rep);
      }
    }
  }

  /** A string without the pattern character is left as it is. */
  lemma {:induction false} ReplaceCharAbsent(s: string, c: char, rep: string)
    requires c !in s
    ensures ReplaceChar(s, c, rep) == s
    decreases |s|
  {
    if s != [] {
      assert s[0] != c && c !in s[1..];
      ReplaceCharAbsent(s[1..], c, rep);
      assert s == [s[0]] + s[1..];
    }
  }

  /** `s[:n]` for a non-negative bound: at most `n` characters from the front. */
  function Take(s: string, n: nat): (r: string)
    ensures |r| <= n && |r| <= |s|
    ensures StartsWith(s, r)
    ensures |s| <= n ==> r == s
    ensures |s| > n ==> |r| == n
  {
    if |s| <= n then s else s[..n]
  }

  /** Joining the pieces of a split with the separator restores the string. */
  lemma {:induction false} JoinSplit(s: string, c: char)
    ensures Join(Split(s, c), [c]) == s
    decreases |s|
  {
    if s != [] {
      var rest := Split(s[1..], c);
      JoinSplit(s[1..], c);
      assert s == [s[0]] + s[1..];
      if s[0] == c {
        assert Split(s, c) == [""] + rest;
        JoinEmptyFirst(rest, [c]);
      } else {
        assert Split(s, c) == [[s[0]] + rest[0]] + rest[1..];
        JoinCons(s[0], rest, [c]);
      }
    }
  }

  /** An empty first part contributes only its separator to the join. */
  lemma JoinEmptyFirst(parts: seq<string>, sep: string)
    requires |parts| >= 1
    ensures Join([""] + parts, sep) == sep + Join(parts, sep)
  {
    JoinPrepend("", parts, sep);
    assert "" + sep == sep;
  }

  /** Prepending a character to the first part prepends it to the join. */
  lemma JoinCons(x: char, parts: seq<string>, sep: string)
    requires |parts| >= 1
    ensures Join([[x] + parts[0]] + parts[1..], sep) == [x] + Join(parts, sep)
  {
    var ps := [[x] + parts[0]] + parts[1..];
    assert ps[1..] == parts[1..];
  }

  /** Splitting at a separator splits the two sides independently. */
  lemma {:induction false} SplitConcat(x: string, y: string, c: char)
    ensures Split(x + [c] + y, c) == Split(x, c) + Split(y, c)
    decreases |x|
  {
    if x == [] {
      assert x + [c] + y == [c] + y;
      assert ([c] + y)[1..] == y;
    } else {
      assert (x + [c] + y)[1..] == x[1..] + [c] + y;
      SplitConcat(x[1..], y, c);
      SplitConcatStep(x, y, c);
    }
  }

  /** The inductive step of `SplitConcat`: the first character either cuts
      or extends the first piece, on both sides alike. */
  lemma SplitConcatStep(x: string, y: string, c: char)
    requires x != []
    requires Split(x[1..] + [c] + y, c) == Split(x[1..], c) + Split(y, c)
    ensures Split(x + [c] + y, c) == Split(x, c) + Split(y, c)
  {
    var s := x + [c] + y;
    assert s[0] == x[0] && s[1..] == x[1..] + [c] + y;
    if x[0] == c {
      CutStep(x, s, c, Split(x[1..], c), Split(y, c));
    } else {
      ExtendStep(x, s, c, Split(x[1..], c), Split(y, c));
    }
  }

  /** `SplitConcatStep` when the first character is the separator. */
  lemma CutStep(x: string, s: string, c: char, ps: seq<string>, qs: seq<string>)
    requires x != [] && s != [] && s[0] == x[0] == c
    requires Split(s[1..], c) == ps + qs && Split(x[1..], c) == ps
    ensures Split(s, c) == Split(x, c) + qs
  {
    assert Split(s, c) == [""] + (ps + qs);
    assert Split(x, c) == [""] + ps;
    ConcatAssoc([""], ps, qs);
  }

  /** `SplitConcatStep` when the first character is not the separator. */
  lemma ExtendStep(x: string, s: string, c: char, ps: seq<string>, qs: seq<string>)
    requires x != [] && s != [] && s[0] == x[0] != c
    requires Split(s[1..], c) == ps + qs && Split(x[1..], c) == ps
    ensures Split(s, c) == Split(x, c) + qs
  {
    assert |ps| >= 1;
    assert Split(s, c) == [[x[0]] + (ps + qs)[0]] + (ps + qs)[1..];
    assert Split(x, c) == [[x[0]] + ps[0]] + ps[1..];
    FirstPieceExtended(x[0], ps, qs);
  }

  /** Extending the first piece commutes with appending further pieces. */
  lemma FirstPieceExtended(h: char, ps: seq<string>, qs: seq<string>)
    requires |ps| >= 1
    ensures [[h] + (ps + qs)[0]] + (ps + qs)[1..] == [[h] + ps[0]] + ps[1..] + qs
  {
    assert (ps + qs)[0] == ps[0];
    assert (ps + qs)[1..] == ps[1..] + qs;
  }

  /** Appending a non-separator character extends the last piece. */
  lemma {:induction false} SplitSnoc(s: string, x: char, c: char)
    requires x != c
    ensures var ps := Split(s, c);
      Split(s + [x], c) == ps[..|ps| - 1] + [ps[|ps| - 1] + [x]]
    decreases |s|
  {
    if s == [] {
      assert [x][1..] == [];
    } else {
      assert (s + [x])[1..] == s[1..] + [x];
      assert (s + [x])[0] == s[0];
      SplitSnoc(s[1..], x, c);
      if s[0] == c {
        SnocAfterSeparator(Split(s[1..], c), Split(s[1..] + [x], c), x);
      } else {
        SnocInFirstPiece(s[0], Split(s[1..], c), Split(s[1..] + [x], c), x);
      }
    }
  }

  /** The inductive step of `SplitSnoc` when the string starts with the
      separator: a new empty first piece is put in front. */
  lemma SnocAfterSeparator(ps: seq<string>, rest: seq<string>, x: char)
    requires |ps| >= 1
    requires rest == ps[..|ps| - 1] + [ps[|ps| - 1] + [x]]
    ensures var qs := [""] + ps; [""] + rest == qs[..|qs| - 1] + [qs[|qs| - 1] + [x]]
  {
    var qs := [""] + ps;
    assert qs[..|qs| - 1] == [""] + ps[..|ps| - 1];
  }

  /** The inductive step of `SplitSnoc` when the string starts with another
      character: it is prepended to the first piece. */
  lemma SnocInFirstPiece(y: char, ps: seq<string>, rest: seq<string>, x: char)
    requires |ps| >= 1
    requires rest == ps[..|ps| - 1] + [ps[|ps| - 1] + [x]]
    ensures var qs := [[y] + ps[0]] + ps[1..];
      [[y] + rest[0]] + rest[1..] == qs[..|qs| - 1] + [qs[|qs| - 1] + [x]]
  {
    var qs := [[y] + ps[0]] + ps[1..];
    if |ps| == 1 {
      assert rest == [ps[0] + [x]];
      assert [y] + (ps[0] + [x]) == ([y] + ps[0]) + [x];
    } else {
      assert rest[0] == ps[0];
      assert rest[1..] == ps[1..|ps| - 1] + [ps[|ps| - 1] + [x]];
      assert qs[..|qs| - 1] == [[y] + ps[0]] + ps[1..|ps| - 1];
    }
  }

  /** `s.rsplit(c, 1)[-1]` is the last piece of `s.split(c)`. */
  lemma {:induction false} AfterLastIsLastPiece(s: string, c: char)
    ensures var ps := Split(s, c); AfterLast(s, c) == ps[|ps| - 1]
    decreases |s|
  {
    if s != [] {
      var init := s[..|s| - 1];
      var x := s[|s| - 1];
      assert s == init + [x];
      if x == c {
        SplitConcat(init, "", c);
        assert init + [c] + "" == s;
      } else {
        AfterLastIsLastPiece(init, c);
        SplitSnoc(init, x, c);
      }
    }
  }

  /** Joining with one more part appends the separator and that part. */
  lemma {:induction false} JoinSnoc(parts: seq<string>, p: string, sep: string)
    requires |parts| >= 1
    ensures Join(parts + [p], sep) == Join(parts, sep) + sep + p
    decreases |parts|
  {
    if |parts| > 1 {
      assert (parts + [p])[1..] == parts[1..] + [p];
      JoinSnoc(parts[1..], p, sep);
    }
  }

  /** Splitting the join of separator-free parts gives the parts back. */
  lemma {:induction false} SplitJoin(ws: seq<string>, c: char)
    requires |ws| >= 1
    requires forall i :: 0 <= i < |ws| ==> c !in ws[i]
    ensures Split(Join(ws, [c]), c) == ws
    decreases |ws|
  {
    if |ws| > 1 {
      var tail := ws[1..];
      assert forall i :: 0 <= i < |tail| ==> c !in tail[i] by {
        forall i | 0 <= i < |tail| ensures c !in tail[i] {
          assert tail[i] == ws[i + 1];
        }
      }
      SplitJoin(tail, c);
      var rest := Join(tail, [c]);
      assert Join(ws, [c]) == ws[0] + [c] + rest;
      assert Split(ws[0], c) == [ws[0]];
      SplitConcat(ws[0], rest, c);
      assert Split(Join(ws, [c]), c) == [ws[0]] + tail;
      assert ws == [ws[0]] + tail;
    }
  }

  /** Concatenation regrouped to the right. */
  lemma ConcatAssoc<T>(a: seq<T>, b: seq<T>, c: seq<T>)
    ensures a + b + c == a + (b + c)
  {
  }

  /** Joining one more part in front prepends that part and the separator. */
  lemma JoinPrepend(p: string, parts: seq<string>, sep: string)
    requires |parts| >= 1
    ensures Join([p] + parts, sep) == p + sep + Join(parts, sep)
  {
    assert ([p] + parts)[1..] == parts;
  }

  /** The text after the last separator, when it is known to follow one. */
  lemma AfterLastOfSuffix(x: string, n: string, c: char)
    requires c !in n
    ensures AfterLast(x + [c] + n, c) == n
  {
    AfterLastIsLastPiece(x + [c] + n, c);
    SplitConcat(x, n, c);
  }

  /** A string has more than one piece exactly when it holds the separator. */
  lemma SplitSeveral(s: string, c: char)
    ensures |Split(s, c)| > 1 <==> c in s
  {
    var ps := Split(s, c);
    if |ps| == 1 {
      JoinSplit(s, c);
    }
  }

  /** The head of `s.split(c, 1)` is the text before the first `c`. */
  lemma SplitOnceHead(s: string, c: char)
    ensures var head := SplitOnce(s, [c])[0];
      c !in head && StartsWith(s, head) && (|head| == |s| || s[|head|] == c)
  {
    var r := SplitOnce(s, [c]);
    var head := r[0];
    if |r| == 2 {
      assert s == head + [c] + r[1];
      if c in head {
        var k :| 0 <= k < |head| && head[k] == c;
        assert s[k..k + 1] == [c];
        assert OccursAt(s, [c], k);
      }
    } else {
      if c in s {
        var k :| 0 <= k < |s| && s[k] == c;
        assert s[k..k + 1] == [c];
        assert OccursAt(s, [c], k);
      }
    }
  }
}

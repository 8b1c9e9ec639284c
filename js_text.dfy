/**
 * The JavaScript string operations the scripts and components rely on:
 * `trim`, `split` on one separator character, `join`, `startsWith`,
 * `endsWith` and `indexOf` on arrays, with the lemmas that relate them.
 */
module JsText {

  /** ECMAScript WhiteSpace and LineTerminator code points: what `trim`
      removes and what a regular expression's `\s` matches. */
  predicate IsSpace(c: char)
  {
    || c == ' ' || c == '\t' || c == '\n' || c == '\r'
    || c == '\U{000B}' || c == '\U{000C}' || c == '\U{00A0}' || c == '\U{1680}'
    || ('\U{2000}' <= c <= '\U{200A}')
    || c == '\U{2028}' || c == '\U{2029}' || c == '\U{202F}' || c == '\U{205F}'
    || c == '\U{3000}' || c == '\U{FEFF}'
  }

  predicate AllSpace(s: string)
  {
    forall i :: 0 <= i < |s| ==> IsSpace(s[i])
  }

  function TrimStart(s: string): (r: string)
    ensures |r| <= |s|
    ensures r == [] || !IsSpace(r[0])
  {
    if s != [] && IsSpace(s[0]) then TrimStart(s[1..]) else s
  }

  /** `trimStart` keeps a suffix of the text. */
  lemma {:induction false} TrimStartSuffix(s: string)
    ensures TrimStart(s) == s[|s| - |TrimStart(s)|..]
  {
    if s != [] && IsSpace(s[0]) {
      TrimStartSuffix(s[1..]);
      assert s[1..][|s| - 1 - |TrimStart(s)|..] == s[|s| - |TrimStart(s)|..];
    }
  }

  function TrimEnd(s: string): (r: string)
    ensures |r| <= |s| && r == s[..|r|]
    ensures r == [] || !IsSpace(r[|r| - 1])
  {
    if s != [] && IsSpace(s[|s| - 1]) then TrimEnd(s[..|s| - 1]) else s
  }

  /** `s.trim()`: no whitespace is left at either end. */
  function Trim(s: string): (r: string)
    ensures r == [] || (!IsSpace(r[0]) && !IsSpace(r[|r| - 1]))
  {
    var t := TrimStart(s);
    var r := TrimEnd(t);
    assert r == [] || r[0] == t[0];
    r
  }

  /** Every character is whitespace: exactly when `s.trim() === ''`
      (`BlankIffTrimmedEmpty`), the test the scripts' line filters make. */
  predicate IsBlank(s: string)
  {
    s == [] || (IsSpace(s[0]) && IsBlank(s[1..]))
  }

  lemma {:induction false} BlankAllSpace(s: string)
    ensures IsBlank(s) <==> AllSpace(s)
  {
    if s != [] {
      BlankAllSpace(s[1..]);
      assert forall i :: 1 <= i < |s| ==> s[1..][i - 1] == s[i];
    }
  }

  /** `trimStart` removes whitespace only. */
  lemma {:induction false} TrimStartDropsSpace(s: string)
    ensures AllSpace(s[..|s| - |TrimStart(s)|])
  {
    if s != [] && IsSpace(s[0]) {
      var r := TrimStart(s[1..]);
      TrimStartDropsSpace(s[1..]);
      var front := s[1..][..|s| - 1 - |r|];
      forall i | 1 <= i < |s| - |r|
        ensures IsSpace(s[i])
      {
        assert s[i] == front[i - 1];
      }
    }
  }

  /** `trimEnd` removes whitespace only. */
  lemma {:induction false} TrimEndDropsSpace(s: string)
    ensures AllSpace(s[|TrimEnd(s)|..])
  {
    if s != [] && IsSpace(s[|s| - 1]) {
      var r := TrimEnd(s[..|s| - 1]);
      TrimEndDropsSpace(s[..|s| - 1]);
      assert s[..|s| - 1][|r|..] + [s[|s| - 1]] == s[|r|..];
    }
  }

  lemma AllSpaceConcat(a: string, b: string)
    requires AllSpace(a) && AllSpace(b)
    ensures AllSpace(a + b)
  {
  }

  lemma {:induction false} TrimStartOfAllSpace(s: string)
    requires AllSpace(s)
    ensures TrimStart(s) == []
  {
    if s != [] {
      TrimStartOfAllSpace(s[1..]);
    }
  }

  /** `s.trim() === ''` exactly when the string is blank. */
  lemma BlankIffTrimmedEmpty(s: string)
    ensures IsBlank(s) <==> Trim(s) == []
  {
    BlankAllSpace(s);
    if AllSpace(s) {
      TrimStartOfAllSpace(s);
    }
    if Trim(s) == [] {
      var t := TrimStart(s);
      TrimStartDropsSpace(s);
      TrimEndDropsSpace(t);
      assert t[0..] == t;
      assert s == s[..|s| - |t|] + t;
      AllSpaceConcat(s[..|s| - |t|], t);
    }
  }

  /** Trimming leaves a string without edge whitespace unchanged. */
  lemma TrimNoEdgeSpace(s: string)
    requires s == [] || (!IsSpace(s[0]) && !IsSpace(s[|s| - 1]))
    ensures Trim(s) == s
  {
  }

  /** `s.trim()` is `s` with a whitespace-only prefix and suffix cut off:
      the middle of `s` from the first to the last non-whitespace character. */
  lemma TrimSpec(s: string)
    ensures var r := Trim(s); var k := |s| - |TrimStart(s)|;
      && k + |r| <= |s|
      && r == s[k..k + |r|]
      && AllSpace(s[..k]) && AllSpace(s[k + |r|..])
  {
    var t := TrimStart(s);
    TrimStartSuffix(s);
    TrimStartDropsSpace(s);
    TrimEndDropsSpace(t);
    MiddleOfSuffix(s, |s| - |t|, t, TrimEnd(t));
  }

  /** A prefix `r` of the suffix `t` of `s` starting at `k` is the slice of
      `s` from `k`, and what follows it in `t` is what follows it in `s`. */
  lemma MiddleOfSuffix(s: string, k: nat, t: string, r: string)
    requires k <= |s| && t == s[k..] && |r| <= |t| && r == t[..|r|] && AllSpace(t[|r|..])
    ensures k + |r| <= |s| && r == s[k..k + |r|] && AllSpace(s[k + |r|..])
  {
    assert t[|r|..] == s[k + |r|..];
  }

  predicate StartsWith(s: string, prefix: string)
  {
    |prefix| <= |s| && s[..|prefix|] == prefix
  }

  predicate EndsWith(s: string, suffix: string)
  {
    |suffix| <= |s| && s[|s| - |suffix|..] == suffix
  }

  /** Number of occurrences of `c` in `s`. */
  function Count(s: string, c: char): nat
  {
    if s == [] then 0 else (if s[0] == c then 1 else 0) + Count(s[1..], c)
  }

  /** `s.split(sep)` for a one-character separator: the pieces between
      separators, empty pieces included; '' splits to ['']. */
  function SplitOn(s: string, sep: char): (r: seq<string>)
    ensures |r| >= 1
  {
    if s == [] then [[]]
    else
      var tail := SplitOn(s[1..], sep);
      if s[0] == sep then [[]] + tail
      else [[s[0]] + tail[0]] + tail[1..]
  }

  /** `xs.join(sep)` */
  function JoinWith(xs: seq<string>, sep: char): string
  {
    if |xs| == 0 then []
    else if |xs| == 1 then xs[0]
    else xs[0] + [sep] + JoinWith(xs[1..], sep)
  }

  /** `split` yields one more piece than there are separators. */
  lemma {:induction false} SplitCount(s: string, sep: char)
    ensures |SplitOn(s, sep)| == Count(s, sep) + 1
  {
    if s != [] {
      SplitCount(s[1..], sep);
    }
  }

  /** A character absent from the string is absent from every piece. */
  lemma {:induction false} SplitPiecesWithout(s: string, sep: char, c: char)
    requires c !in s
    ensures forall i :: 0 <= i < |SplitOn(s, sep)| ==> c !in SplitOn(s, sep)[i]
  {
    if s != [] {
      SplitPiecesWithout(s[1..], sep, c);
    }
  }

  /** No piece of a split contains the separator. */
  lemma {:induction false} SplitPiecesFree(s: string, sep: char)
    ensures forall i :: 0 <= i < |SplitOn(s, sep)| ==> sep !in SplitOn(s, sep)[i]
  {
    if s != [] {
      SplitPiecesFree(s[1..], sep);
    }
  }

  /** Joining the pieces of a split gives back the string. */
  lemma {:induction false} JoinSplit(s: string, sep: char)
    ensures JoinWith(SplitOn(s, sep), sep) == s
  {
    if s != [] {
      var tail := SplitOn(s[1..], sep);
      JoinSplit(s[1..], sep);
      if s[0] == sep {
        assert ([[]] + tail)[1..] == tail;
      } else {
        var r := [[s[0]] + tail[0]] + tail[1..];
        assert r[1..] == tail[1..];
        if |tail| > 1 {
          assert tail[1..][..] == tail[1..];
          assert JoinWith(tail, sep) == tail[0] + [sep] + JoinWith(tail[1..], sep);
        }
      }
    }
  }

  /** Splitting a word without separators in front of `t` glues the word
      onto the first piece of `t`. */
  lemma {:induction false} SplitPrefix(w: string, t: string, sep: char)
    requires sep !in w
    ensures SplitOn(w + t, sep) == [w + SplitOn(t, sep)[0]] + SplitOn(t, sep)[1..]
  {
    if w == [] {
      var r := SplitOn(t, sep);
      assert w + t == t;
      assert w + r[0] == r[0];
      assert [r[0]] + r[1..] == r;
    } else {
      assert (w + t)[1..] == w[1..] + t;
      SplitPrefix(w[1..], t, sep);
      assert [w[0]] + (w[1..] + SplitOn(t, sep)[0]) == w + SplitOn(t, sep)[0];
    }
  }

  /** Splitting a join gives back the pieces, when no piece holds the separator. */
  lemma {:induction false} SplitJoin(xs: seq<string>, sep: char)
    requires |xs| >= 1
    requires forall i :: 0 <= i < |xs| ==> sep !in xs[i]
    ensures SplitOn(JoinWith(xs, sep), sep) == xs
  {
    if |xs| == 1 {
      SplitPrefix(xs[0], [], sep);
      assert xs[0] + [] == xs[0];
    } else {
      var rest := JoinWith(xs[1..], sep);
      SplitJoin(xs[1..], sep);
      assert xs[0] + [sep] + rest == xs[0] + ([sep] + rest);
      SplitPrefix(xs[0], [sep] + rest, sep);
      assert ([sep] + rest)[1..] == rest;
      assert SplitOn([sep] + rest, sep) == [[]] + xs[1..];
      assert xs[0] + [] == xs[0];
      assert ([[]] + xs[1..])[1..] == xs[1..];
    }
  }

  /** A character that is not the separator and occurs in no piece does not occur in the join. */
  lemma {:induction false} JoinExcludes(xs: seq<string>, sep: char, c: char)
    requires c != sep
    requires forall i :: 0 <= i < |xs| ==> c !in xs[i]
    ensures c !in JoinWith(xs, sep)
  {
    if |xs| > 1 {
      JoinExcludes(xs[1..], sep, c);
    }
  }

  /** The lines that are not blank, in order (`lines.filter(l => l.trim() !== '')`). */
  function NonBlank(lines: seq<string>): (r: seq<string>)
    ensures forall i :: 0 <= i < |r| ==> !IsBlank(r[i])
  {
    if lines == [] then []
    else
      var last := lines[|lines| - 1];
      NonBlank(lines[..|lines| - 1]) + (if IsBlank(last) then [] else [last])
  }

  /** A string holding a non-whitespace character is not blank. */
  lemma NotBlank(s: string, i: int)
    requires 0 <= i < |s| && !IsSpace(s[i])
    ensures !IsBlank(s)
  {
    BlankAllSpace(s);
  }

  /** `xs.indexOf(x)`: the first index holding `x`, or -1. */
  function IndexOf<T(==)>(xs: seq<T>, x: T): (r: int)
    ensures -1 <= r < |xs|
    ensures r == -1 <==> x !in xs
    ensures r >= 0 ==> xs[r] == x && x !in xs[..r]
  {
    if xs == [] then -1
    else if xs[0] == x then 0
    else
      var k := IndexOf(xs[1..], x);
      assert k >= 0 ==> xs[..k + 1] == [xs[0]] + xs[1..][..k];
      if k == -1 then -1 else k + 1
  }

  /** `sub` is `ds` with some elements left out, the rest in order. */
  predicate IsSubsequence<T(==)>(sub: seq<T>, ds: seq<T>)
  {
    if sub == [] then true
    else if ds == [] then false
    else if sub[0] == ds[0] then IsSubsequence(sub[1..], ds[1..])
    else IsSubsequence(sub, ds[1..])
  }

  lemma SubsequenceSkip<T>(sub: seq<T>, ds: seq<T>)
    requires ds != [] && IsSubsequence(sub, ds[1..])
    ensures IsSubsequence(sub, ds)
  {
    if sub != [] && sub[0] == ds[0] {
      SubsequenceDrop(sub, ds[1..]);
    }
  }

  lemma {:induction false} SubsequenceDrop<T>(sub: seq<T>, ds: seq<T>)
    requires sub != [] && IsSubsequence(sub, ds)
    ensures IsSubsequence(sub[1..], ds)
  {
    if ds != [] {
      if sub[0] == ds[0] {
        if sub[1..] != [] {
          SubsequenceDrop(sub[1..], ds[1..]);
          SubsequenceSkip(sub[1..], ds);
        }
      } else {
        SubsequenceDrop(sub, ds[1..]);
        SubsequenceSkip(sub[1..], ds);
      }
    }
  }

  /** A selection from a list is no longer than the list. */
  lemma {:induction false} SubsequenceLength<T>(sub: seq<T>, ds: seq<T>)
    requires IsSubsequence(sub, ds)
    ensures |sub| <= |ds|
  {
    if sub != [] {
      if sub[0] == ds[0] {
        SubsequenceLength(sub[1..], ds[1..]);
      } else {
        SubsequenceLength(sub, ds[1..]);
      }
    }
  }

  /** Every element of a subsequence is an element of the sequence. */
  lemma {:induction false} SubsequenceMembers<T>(sub: seq<T>, ds: seq<T>)
    requires IsSubsequence(sub, ds)
    ensures forall x :: x in sub ==> x in ds
  {
    if sub != [] {
      if sub[0] == ds[0] {
        SubsequenceMembers(sub[1..], ds[1..]);
        assert forall x :: x in sub ==> x == sub[0] || x in sub[1..];
      } else {
        SubsequenceMembers(sub, ds[1..]);
      }
    }
  }

  /** No element occurs twice. */
  predicate Distinct<T(==)>(s: seq<T>)
  {
    forall i, j :: 0 <= i < j < |s| ==> s[i] != s[j]
  }

  /** A subsequence of a sequence without repeats has no repeats. */
  lemma {:induction false} SubsequenceDistinct<T>(sub: seq<T>, ds: seq<T>)
    requires IsSubsequence(sub, ds) && Distinct(ds)
    ensures Distinct(sub)
  {
    if sub != [] {
      assert Distinct(ds[1..]) by {
        forall i, j | 0 <= i < j < |ds[1..]| ensures ds[1..][i] != ds[1..][j] {
          assert ds[1..][i] == ds[i + 1] && ds[1..][j] == ds[j + 1];
        }
      }
      if sub[0] == ds[0] {
        SubsequenceDistinct(sub[1..], ds[1..]);
        SubsequenceMembers(sub[1..], ds[1..]);
        assert ds[0] !in ds[1..] by {
          forall j | 0 <= j < |ds[1..]| ensures ds[1..][j] != ds[0] {
            assert ds[1..][j] == ds[j + 1];
          }
        }
        forall i, j | 0 <= i < j < |sub| ensures sub[i] != sub[j] {
          if i == 0 {
            assert sub[j] == sub[1..][j - 1];
          } else {
            assert sub[i] == sub[1..][i - 1] && sub[j] == sub[1..][j - 1];
          }
        }
      } else {
        SubsequenceDistinct(sub, ds[1..]);
      }
    }
  }

  /** `pieces.map(v => v.trim())` */
  function TrimAll(pieces: seq<string>): (r: seq<string>)
    ensures |r| == |pieces|
    ensures forall i :: 0 <= i < |r| ==> r[i] == Trim(pieces[i])
  {
    seq(|pieces|, i requires 0 <= i < |pieces| => Trim(pieces[i]))
  }

  /** `pieces.filter(v => v !== '')` */
  function DropEmpty(pieces: seq<string>): (r: seq<string>)
    ensures forall i :: 0 <= i < |r| ==> r[i] != []
    ensures forall p :: p in r <==> p in pieces && p != []
    ensures IsSubsequence(r, pieces)
  {
    if pieces == [] then []
    else
      var rest := DropEmpty(pieces[1..]);
      if pieces[0] != [] then
        assert ([pieces[0]] + rest)[1..] == rest;
        [pieces[0]] + rest
      else
        SubsequenceSkip(rest, pieces);
        rest
  }

  /** A list without empty pieces passes the filter unchanged. */
  lemma {:induction false} DropEmptyKeeps(pieces: seq<string>)
    requires forall i :: 0 <= i < |pieces| ==> pieces[i] != []
    ensures DropEmpty(pieces) == pieces
  {
    if pieces != [] {
      DropEmptyKeeps(pieces[1..]);
    }
  }

  /** `xs.join(', ')` */
  function JoinCommaSpace(xs: seq<string>): string
  {
    if |xs| == 0 then []
    else if |xs| == 1 then xs[0]
    else xs[0] + ", " + JoinCommaSpace(xs[1..])
  }

  /** The pieces of a `', '` join split at the commas: each but the first
      keeps the space. */
  function Spaced(xs: seq<string>): (r: seq<string>)
    ensures |r| == |xs|
  {
    seq(|xs|, i requires 0 <= i < |xs| => if i == 0 then xs[0] else " " + xs[i])
  }

  lemma {:induction false} JoinCommaSpaceSpaced(xs: seq<string>)
    ensures JoinCommaSpace(xs) == JoinWith(Spaced(xs), ',')
  {
    if |xs| > 1 {
      JoinCommaSpaceSpaced(xs[1..]);
      var t := Spaced(xs[1..]);
      var u := Spaced(xs)[1..];
      assert u == [" " + xs[1]] + t[1..];
      assert JoinWith(t, ',') == if |t| == 1 then t[0] else t[0] + [','] + JoinWith(t[1..], ',');
      assert JoinWith(u, ',') == " " + JoinWith(t, ',');
    }
  }

  lemma CommaFreeSpaced(x: string)
    requires ',' !in x
    ensures ',' !in " " + x
  {
  }

  /** Trimming ignores a space in front. */
  lemma TrimSpaced(x: string)
    ensures Trim(" " + x) == Trim(x)
  {
    assert (" " + x)[1..] == x;
  }

  lemma SpacedCommaFree(xs: seq<string>)
    requires forall i :: 0 <= i < |xs| ==> ',' !in xs[i]
    ensures forall i :: 0 <= i < |Spaced(xs)| ==> ',' !in Spaced(xs)[i]
  {
    forall i | 0 <= i < |xs| ensures ',' !in Spaced(xs)[i] {
      if i > 0 {
        CommaFreeSpaced(xs[i]);
      }
    }
  }

  lemma TrimSpacedAt(xs: seq<string>, i: int)
    requires 0 <= i < |xs| && Trim(xs[i]) == xs[i]
    ensures Trim(Spaced(xs)[i]) == xs[i]
  {
    var sp := Spaced(xs)[i];
    if i == 0 {
      assert sp == xs[0];
    } else {
      assert sp == " " + xs[i];
      TrimSpaced(xs[i]);
    }
  }

  lemma TrimAllSpaced(xs: seq<string>)
    requires forall i :: 0 <= i < |xs| ==> Trim(xs[i]) == xs[i]
    ensures TrimAll(Spaced(xs)) == xs
  {
    var r := TrimAll(Spaced(xs));
    forall i | 0 <= i < |xs| ensures r[i] == xs[i] {
      TrimSpacedAt(xs, i);
    }
  }

  /** A join whose first piece is not empty is not empty. */
  lemma JoinCommaSpaceNonEmpty(xs: seq<string>)
    requires xs != [] && xs[0] != []
    ensures JoinCommaSpace(xs) != []
  {
    if |xs| > 1 {
      assert JoinCommaSpace(xs) == xs[0] + ", " + JoinCommaSpace(xs[1..]);
    }
  }

  /** Reading back the text `xs.join(', ')` by splitting at the commas and
      trimming gives `xs` again, when each value is trimmed and holds no
      comma and the list is not the single value ''. */
  lemma SplitTrimJoin(xs: seq<string>)
    requires xs != []
    requires forall i :: 0 <= i < |xs| ==> Trim(xs[i]) == xs[i] && ',' !in xs[i]
    ensures TrimAll(SplitOn(JoinCommaSpace(xs), ',')) == xs
  {
    JoinCommaSpaceSpaced(xs);
    SpacedCommaFree(xs);
    SplitJoin(Spaced(xs), ',');
    TrimAllSpaced(xs);
  }
}

/**
 * The text rewrite of `updateGlazingRequirementsTypes` in
 * scripts/update-supabase-types.js: two global regular-expression
 * deletions of a whitespace run followed by a `length` field declaration,
 * then two global literal replacements renaming `panel_count` to
 * `panel_width`. Reading, backing up and writing the file are not modelled.
 */
module TypeRewrite {
  import opened JsText

  const LengthField := "length: number;"
  const OptionalLengthField := "length?: number;"
  const PanelCount := "panel_count: number | null;"
  const PanelWidth := "panel_width: number | null;"
  const OptionalPanelCount := "panel_count?: number | null;"
  const OptionalPanelWidth := "panel_width?: number | null;"

  /** Length of the whitespace run at the start of `s` (what a greedy `\s+` takes). */
  function SpaceRun(s: string): (n: nat)
    ensures n <= |s|
    ensures forall i :: 0 <= i < n ==> IsSpace(s[i])
    ensures n < |s| ==> !IsSpace(s[n])
  {
    if s != [] && IsSpace(s[0]) then 1 + SpaceRun(s[1..]) else 0
  }

  /** Whether `/\s+<lit>/` matches at the start of `s`. A literal that starts
      with a non-space character can only follow the whole run, so the
      greedy run is the only candidate. */
  predicate MatchesAt(s: string, lit: string)
  {
    var n := SpaceRun(s);
    n > 0 && StartsWith(s[n..], lit)
  }

  /** `s.replace(/\s+<lit>/g, '')`: from left to right, each match is
      deleted and the search resumes after it; elsewhere one character is
      kept and the search moves on by one. */
  function RemoveSpaced(s: string, lit: string): string
    decreases |s|
  {
    if s == [] then []
    else if MatchesAt(s, lit) then RemoveSpaced(s[SpaceRun(s) + |lit|..], lit)
    else [s[0]] + RemoveSpaced(s[1..], lit)
  }

  /** `s.replace(/<pat>/g, rep)` for a pattern without special characters. */
  function ReplaceAll(s: string, pat: string, rep: string): string
    requires pat != []
    decreases |s|
  {
    if s == [] then []
    else if StartsWith(s, pat) then rep + ReplaceAll(s[|pat|..], pat, rep)
    else [s[0]] + ReplaceAll(s[1..], pat, rep)
  }

  /** `updateGlazingRequirementsTypes(content)` */
  function UpdateTypes(content: string): string
  {
    var a := RemoveSpaced(content, LengthField);
    var b := RemoveSpaced(a, OptionalLengthField);
    var c := ReplaceAll(b, PanelCount, PanelWidth);
    ReplaceAll(c, OptionalPanelCount, OptionalPanelWidth)
  }

  /** No position of `s` starts a match. */
  predicate NoSpacedMatch(s: string, lit: string)
  {
    forall i :: 0 <= i < |s| ==> !MatchesAt(s[i..], lit)
  }

  predicate NoOccurrence(s: string, pat: string)
  {
    forall i :: 0 <= i < |s| ==> !StartsWith(s[i..], pat)
  }

  /** Text in which the pattern never matches is left as it is. */
  lemma {:induction false} RemoveSpacedNoMatch(s: string, lit: string)
    requires NoSpacedMatch(s, lit)
    ensures RemoveSpaced(s, lit) == s
  {
    if s != [] {
      assert s[0..] == s;
      assert NoSpacedMatch(s[1..], lit) by {
        forall i | 0 <= i < |s[1..]|
          ensures !MatchesAt(s[1..][i..], lit)
        {
          assert s[1..][i..] == s[i + 1..];
        }
      }
      RemoveSpacedNoMatch(s[1..], lit);
    }
  }

  /** A whitespace run followed by the literal is deleted, run and all. */
  lemma RemoveSpacedMatch(w: string, lit: string, v: string)
    requires w != [] && AllSpace(w)
    requires lit != [] && !IsSpace(lit[0])
    ensures RemoveSpaced(w + lit + v, lit) == RemoveSpaced(v, lit)
  {
    var s := w + lit + v;
    RunOfSpaces(w, lit + v);
    assert s == w + (lit + v);
    assert s[|w|..] == lit + v;
    assert (lit + v)[..|lit|] == lit;
    assert s[|w| + |lit|..] == v;
  }

  /** The run at the start of `w + t` is all of `w` when `t` starts with a non-space. */
  lemma {:induction false} RunOfSpaces(w: string, t: string)
    requires AllSpace(w)
    requires t != [] && !IsSpace(t[0])
    ensures SpaceRun(w + t) == |w|
  {
    if w != [] {
      assert (w + t)[1..] == w[1..] + t;
      RunOfSpaces(w[1..], t);
    } else {
      assert w + t == t;
    }
  }

  /** Text without an occurrence of the pattern is left as it is. */
  lemma {:induction false} ReplaceAllNoMatch(s: string, pat: string, rep: string)
    requires pat != []
    requires NoOccurrence(s, pat)
    ensures ReplaceAll(s, pat, rep) == s
  {
    if s != [] {
      assert s[0..] == s;
      assert NoOccurrence(s[1..], pat) by {
        forall i | 0 <= i < |s[1..]|
          ensures !StartsWith(s[1..][i..], pat)
        {
          assert s[1..][i..] == s[i + 1..];
        }
      }
      ReplaceAllNoMatch(s[1..], pat, rep);
    }
  }

  /** An occurrence of the pattern is replaced and the rest is rewritten after it. */
  lemma ReplaceAllMatch(pat: string, rep: string, v: string)
    requires pat != []
    ensures ReplaceAll(pat + v, pat, rep) == rep + ReplaceAll(v, pat, rep)
  {
    assert (pat + v)[..|pat|] == pat;
    assert (pat + v)[|pat|..] == v;
  }

  /** A pattern holding a character the text lacks never occurs in it. */
  lemma AbsentChar(s: string, lit: string, j: int)
    requires 0 <= j < |lit| && lit[j] !in s
    ensures NoSpacedMatch(s, lit) && NoOccurrence(s, lit)
  {
  }

  /** Text too short to hold a whitespace character and the literal is left as it is. */
  lemma {:induction false} ShortKept(s: string, lit: string)
    requires |s| <= |lit|
    ensures RemoveSpaced(s, lit) == s
  {
    if s != [] {
      ShortKept(s[1..], lit);
    }
  }

  /** A word without whitespace is kept whole, whatever follows it. */
  lemma {:induction false} KeepWord(w: string, t: string, lit: string)
    requires forall i :: 0 <= i < |w| ==> !IsSpace(w[i])
    ensures RemoveSpaced(w + t, lit) == w + RemoveSpaced(t, lit)
  {
    if w == [] {
      assert w + t == t;
    } else {
      ConsAppend(w, t);
      KeepFirst(w[0], w[1..] + t, lit);
      KeepWord(w[1..], t, lit);
      ConsAppend(w, RemoveSpaced(t, lit));
    }
  }

  /** Visible ASCII characters are not whitespace. */
  lemma VisibleWord(w: string)
    requires forall i :: 0 <= i < |w| ==> '!' <= w[i] <= '~'
    ensures forall i :: 0 <= i < |w| ==> !IsSpace(w[i])
  {
  }

  /** A whitespace run is kept when what follows it does not start with the literal. */
  lemma {:induction false} KeepSpaces(w: string, t: string, lit: string)
    requires AllSpace(w)
    requires t != [] && !IsSpace(t[0]) && !StartsWith(t, lit)
    ensures RemoveSpaced(w + t, lit) == w + RemoveSpaced(t, lit)
  {
    if w == [] {
      assert w + t == t;
    } else {
      var c, v, r := w[0], w[1..], RemoveSpaced(t, lit);
      NoMatchBeforeOther(w, t, lit);
      assert (w + t)[1..] == v + t;
      assert RemoveSpaced(w + t, lit) == [c] + RemoveSpaced(v + t, lit);
      KeepSpaces(v, t, lit);
      ConsAppend(w, r);
    }
  }

  /** Whitespace, then a word that does not start a match, are both kept. */
  lemma KeepPrefix(w: string, word: string, t: string, lit: string)
    requires AllSpace(w)
    requires word != [] && forall i :: 0 <= i < |word| ==> !IsSpace(word[i])
    requires !StartsWith(word + t, lit)
    ensures RemoveSpaced(w + word + t, lit) == w + word + RemoveSpaced(t, lit)
  {
    KeepWord(word, t, lit);
    KeepSpaces(w, word + t, lit);
    assert w + word + t == w + (word + t);
    assert w + (word + RemoveSpaced(t, lit)) == w + word + RemoveSpaced(t, lit);
  }

  lemma ConsAppend(w: string, r: string)
    requires w != []
    ensures w + r == [w[0]] + (w[1..] + r)
  {
    assert w == [w[0]] + w[1..];
  }

  lemma NoMatchBeforeOther(w: string, t: string, lit: string)
    requires AllSpace(w)
    requires t != [] && !IsSpace(t[0]) && !StartsWith(t, lit)
    ensures !MatchesAt(w + t, lit)
  {
    RunOfSpaces(w, t);
    assert (w + t)[|w|..] == t;
  }

  /** One pass keeps a first character that does not start a match. */
  lemma KeepFirst(c: char, t: string, lit: string)
    requires !MatchesAt([c] + t, lit)
    ensures RemoveSpaced([c] + t, lit) == [c] + RemoveSpaced(t, lit)
  {
    assert ([c] + t)[1..] == t;
  }

  /** Text without a `?` or a `c` is changed by the first pass only. */
  lemma OnlyFirstPass(s: string)
    requires 'c' !in RemoveSpaced(s, LengthField) && '?' !in RemoveSpaced(s, LengthField)
    ensures UpdateTypes(s) == RemoveSpaced(s, LengthField)
  {
    var a := RemoveSpaced(s, LengthField);
    assert OptionalLengthField[6] == '?' && PanelCount[6] == 'c' && OptionalPanelCount[6] == 'c';
    AbsentChar(a, OptionalLengthField, 6);
    RemoveSpacedNoMatch(a, OptionalLengthField);
    AbsentChar(a, PanelCount, 6);
    ReplaceAllNoMatch(a, PanelCount, PanelWidth);
    AbsentChar(a, OptionalPanelCount, 6);
    ReplaceAllNoMatch(a, OptionalPanelCount, OptionalPanelWidth);
  }

  lemma MergeInner(w: string, tail: string)
    requires w == " " && tail == "gth: number;"
    ensures RemoveSpaced(w + LengthField + tail, LengthField) == tail
  {
    ShortKept(tail, LengthField);
    RemoveSpacedMatch(w, LengthField, tail);
  }

  lemma MergeJoin(w: string, word: string, tail: string)
    requires w == " " && word == "len" && tail == "gth: number;"
    ensures w + word + tail == w + LengthField
  {
  }

  /** The first pass on ` len length: number;gth: number;` deletes the
      inner declaration and so joins `len` and `gth` into a new one. */
  lemma MergeFirstPass(w: string, word: string, tail: string)
    requires w == " " && word == "len" && tail == "gth: number;"
    ensures RemoveSpaced(w + word + (w + LengthField + tail), LengthField) == w + word + tail
  {
    var x := w + LengthField + tail;
    MergeInner(w, tail);
    VisibleWord(word);
    assert (word + x)[..|LengthField|][3] != LengthField[3];
    KeepPrefix(w, word, x, LengthField);
  }

  lemma MergeChars(w: string, word: string, tail: string)
    requires w == " " && word == "len" && tail == "gth: number;"
    ensures 'c' !in w + word + tail && '?' !in w + word + tail
  {
  }

  /** Deleting a match can bring together text that matches again, so a
      second run of the rewrite changes its own output. */
  lemma NotIdempotent(w: string, word: string, tail: string)
    requires w == " " && word == "len" && tail == "gth: number;"
    ensures UpdateTypes(w + word + (w + LengthField + tail)) == w + word + tail
    ensures UpdateTypes(w + word + tail) == []
  {
    MergeFirstPass(w, word, tail);
    MergeJoin(w, word, tail);
    MergeChars(w, word, tail);
    OnlyFirstPass(w + word + (w + LengthField + tail));
    assert w + LengthField == w + LengthField + [];
    RemoveSpacedMatch(w, LengthField, []);
    OnlyFirstPass(w + word + tail);
  }
}

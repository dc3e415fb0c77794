/** `getInitials`: the one or two upper-case letters shown in place of a
    missing avatar. */
module Initials {
  import opened Common
  import opened Text

  /** A text without whitespace. */
  predicate NoSpace(w: string)
  {
    forall i :: 0 <= i < |w| ==> !IsSpace(w[i])
  }

  /** Where the first whitespace character of `s` is (`|s|` when there is none). */
  function FirstSpace(s: string): (k: nat)
    ensures k <= |s|
    ensures forall i :: 0 <= i < k ==> !IsSpace(s[i])
    ensures k < |s| ==> IsSpace(s[k])
  {
    if s == [] || IsSpace(s[0]) then 0 else 1 + FirstSpace(s[1..])
  }

  /** `s.split(/\s+/)`: the pieces between the maximal runs of whitespace; a
      leading or trailing run gives an empty first or last piece, and the empty
      text gives a single empty piece. */
  function SplitSpaces(s: string): (r: seq<string>)
    ensures |r| >= 1
    decreases |s|
  {
    var k := FirstSpace(s);
    if k == |s| then [s]
    else
      var rest := s[k..];
      var n := LeadingSpaces(rest);
      assert n >= 1;
      [s[..k]] + SplitSpaces(rest[n..])
  }

  function Min(a: int, b: int): int { if a < b then a else b }

  /** `getInitials`: "?" for an absent or empty name; for a single word its first
      two characters; for several words the first characters of the first and
      the last; upper-cased. */
  function GetInitials(name: Option<string>): (r: string)
    ensures 1 <= |r| <= 2
  {
    if name.None? || name.value == "" then "?"
    else FromPieces(SplitSpaces(Trim(name.value)))
  }

  /** The choice `getInitials` makes from the pieces of the trimmed name. */
  function FromPieces(names: seq<string>): (r: string)
    requires |names| >= 1
    ensures 1 <= |r| <= 2
  {
    var first, last := names[0], names[|names| - 1];
    if |names| == 1 && |first| > 0 then ToUpper(first[..Min(2, |first|)])
    else if |names| > 1 && |first| > 0 && |last| > 0 then ToUpper([first[0], last[0]])
    else if |names| > 0 && |first| > 0 then ToUpper(first[..Min(2, |first|)])
    else "?"
  }

  /** Words separated by the whitespace run `sep`. */
  function JoinWith(ws: seq<string>, sep: string): string
    requires |ws| >= 1
  {
    if |ws| == 1 then ws[0] else ws[0] + sep + JoinWith(ws[1..], sep)
  }

  predicate Words(ws: seq<string>)
  {
    forall i :: 0 <= i < |ws| ==> ws[i] != [] && NoSpace(ws[i])
  }

  /** A joined text starts with the first word's first character and ends with
      the last word's last character. */
  lemma {:induction false} JoinEnds(ws: seq<string>, sep: string)
    requires |ws| >= 1 && Words(ws)
    ensures var j := JoinWith(ws, sep);
      j != [] && j[0] == ws[0][0] && j[|j| - 1] == ws[|ws| - 1][|ws[|ws| - 1]| - 1]
  {
    if |ws| > 1 {
      JoinEnds(ws[1..], sep);
    }
  }

  lemma FirstSpaceAfterWord(w: string, rest: string)
    requires NoSpace(w) && rest != [] && IsSpace(rest[0])
    ensures FirstSpace(w + rest) == |w|
  {
    var s := w + rest;
    assert s[|w|] == rest[0];
    assert forall i :: 0 <= i < |w| ==> s[i] == w[i];
  }

  /** A word without whitespace is a single piece. */
  lemma SplitWord(w: string)
    requires NoSpace(w)
    ensures SplitSpaces(w) == [w]
  {
  }

  /** A word followed by a whitespace run splits off as the first piece. */
  lemma SplitAfterWord(w: string, sep: string, j: string)
    requires NoSpace(w) && sep != [] && AllSpaces(sep) && j != [] && !IsSpace(j[0])
    ensures SplitSpaces(w + sep + j) == [w] + SplitSpaces(j)
  {
    var s := w + sep + j;
    assert s == w + (sep + j);
    FirstSpaceAfterWord(w, sep + j);
    assert s[..|w|] == w && s[|w|..] == sep + j;
    LeadingSpacesPadded(sep, j);
    assert (sep + j)[|sep|..] == j;
  }

  /** Splitting undoes joining. */
  lemma {:induction false} SplitJoin(ws: seq<string>, sep: string)
    requires |ws| >= 1 && Words(ws) && sep != [] && AllSpaces(sep)
    ensures SplitSpaces(JoinWith(ws, sep)) == ws
  {
    if |ws| == 1 {
      SplitWord(ws[0]);
    } else {
      JoinEnds(ws[1..], sep);
      SplitAfterWord(ws[0], sep, JoinWith(ws[1..], sep));
      SplitJoin(ws[1..], sep);
      assert ws == [ws[0]] + ws[1..];
    }
  }

  /** The pieces of a text that neither starts nor ends with whitespace are
      all non-empty. */
  lemma {:induction false} SplitUnpadded(t: string)
    requires Unpadded(t)
    ensures forall i :: 0 <= i < |SplitSpaces(t)| ==> SplitSpaces(t)[i] != []
    decreases |t|
  {
    var k := FirstSpace(t);
    if k < |t| {
      var rest := t[k..];
      var n := LeadingSpaces(rest);
      assert rest[|rest| - 1] == t[|t| - 1];
      var u := rest[n..];
      assert u[|u| - 1] == t[|t| - 1];
      SplitUnpadded(u);
      var r := SplitSpaces(t);
      assert r == [t[..k]] + SplitSpaces(u);
      forall i | 0 <= i < |r| ensures r[i] != [] {
        if i > 0 {
          assert r[i] == SplitSpaces(u)[i - 1];
        }
      }
    }
  }

  /** A name of whitespace only shows "?". */
  lemma BlankNameShowsQuestionMark(s: string)
    requires AllSpaces(s)
    ensures GetInitials(Some(s)) == "?"
  {
    TrimAllSpaces(s);
    assert SplitSpaces("") == [""];
  }

  /** A single word, with any whitespace around it, shows its first two
      characters (one for a one-letter word), upper-cased. */
  lemma OneWordInitials(a: string, w: string, b: string)
    requires AllSpaces(a) && AllSpaces(b) && w != [] && NoSpace(w)
    ensures GetInitials(Some(a + w + b)) == ToUpper(w[..Min(2, |w|)])
  {
    TrimPadded(a, w, b);
    SplitWord(w);
  }

  /** Several words, with any whitespace around and between them, show the
      first letters of the first and the last word, upper-cased. */
  lemma ManyWordsInitials(a: string, ws: seq<string>, sep: string, b: string)
    requires AllSpaces(a) && AllSpaces(b) && sep != [] && AllSpaces(sep)
    requires |ws| >= 2 && Words(ws)
    ensures GetInitials(Some(a + JoinWith(ws, sep) + b)) == ToUpper([ws[0][0], ws[|ws| - 1][0]])
  {
    var j := JoinWith(ws, sep);
    JoinEnds(ws, sep);
    TrimPadded(a, j, b);
    SplitJoin(ws, sep);
    PiecesGiveInitials(a + j + b, ws);
  }

  /** A name whose trimmed text splits into several pieces, the first and the
      last non-empty, shows their first letters. */
  lemma PiecesGiveInitials(s: string, ws: seq<string>)
    requires s != [] && SplitSpaces(Trim(s)) == ws
    requires |ws| >= 2 && ws[0] != [] && ws[|ws| - 1] != []
    ensures GetInitials(Some(s)) == ToUpper([ws[0][0], ws[|ws| - 1][0]])
  {
  }

  /** For a name that is not blank the third test of the source is never
      reached: one piece gives its prefix, several give the two first letters. */
  lemma NonBlankNameUsesItsWords(s: string)
    requires !AllSpaces(s)
    ensures var ws := SplitSpaces(Trim(s));
      && (forall i :: 0 <= i < |ws| ==> ws[i] != [])
      && GetInitials(Some(s)) == if |ws| == 1 then ToUpper(ws[0][..Min(2, |ws[0]|)])
                              else ToUpper([ws[0][0], ws[|ws| - 1][0]])
  {
    TrimUnpadded(s);
    var ws := SplitSpaces(Trim(s));
    SplitUnpadded(Trim(s));
    assert s != "";
    assert ws[0] != [] && ws[|ws| - 1] != [];
  }
}

/**
 * The reply normalizer of the chat page (`normalizeReply`): it unifies line
 * breaks, maps odd spaces to ordinary ones, strips each line's leading run of
 * space-like characters, drops the blank lines at the start and collapses
 * every run of blank lines to one empty line.
 */
module ReplyNormalizer {
  import opened Strings

  /** The characters ` `, ` `, ` ` and ` ` that are rewritten to `' '` before splitting. */
  predicate IsOddSpace(c: char)
  {
    c == '\U{00A0}' || c == '\U{2002}' || c == '\U{2003}' || c == '\U{2009}'
  }

  /** The character class `[﻿　     \t]` of the per-line leading-run pattern. */
  predicate IsLeadingSpace(c: char)
  {
    c == '\U{FEFF}' || c == '\U{3000}' || IsOddSpace(c) || c == ' ' || c == '\t'
  }

  function MapOddSpaces(s: string): string
  {
    seq(|s|, i requires 0 <= i < |s| => if IsOddSpace(s[i]) then ' ' else s[i])
  }

  /** `line.replace(/^[﻿　     \t]+/, "")`. */
  function StripLeading(line: string): (r: string)
    ensures |r| <= |line| && line[|line| - |r|..] == r
    ensures forall i :: 0 <= i < |line| - |r| ==> IsLeadingSpace(line[i])
    ensures r == "" || !IsLeadingSpace(r[0])
  {
    if line != "" && IsLeadingSpace(line[0]) then StripLeading(line[1..]) else line
  }

  /** The two space rewrites leave no odd space, keep the length and touch no other character. */
  lemma MapOddSpacesSpec(s: string)
    ensures |MapOddSpaces(s)| == |s|
    ensures forall i :: 0 <= i < |s| ==> !IsOddSpace(MapOddSpaces(s)[i])
    ensures forall i :: 0 <= i < |s| && !IsOddSpace(s[i]) ==> MapOddSpaces(s)[i] == s[i]
    ensures forall i :: 0 <= i < |s| && IsOddSpace(s[i]) ==> MapOddSpaces(s)[i] == ' '
    ensures MapOddSpaces(MapOddSpaces(s)) == MapOddSpaces(s)
  {
  }

  /** The lines after line-break unification, space mapping, splitting and per-line stripping. */
  function RawLines(text: string): seq<string>
  {
    var pieces := Split(MapOddSpaces(ReplaceCrlf(text)), '\n');
    seq(|pieces|, i requires 0 <= i < |pieces| => StripLeading(pieces[i]))
  }

  /** `lines.slice(start)` where `start` is the first line whose trim is not empty. */
  function DropLeadingBlank(lines: seq<string>): (r: seq<string>)
    ensures |r| <= |lines| && lines[|lines| - |r|..] == r
    ensures forall i :: 0 <= i < |lines| - |r| ==> IsBlank(lines[i])
    ensures r == [] || !IsBlank(r[0])
  {
    if lines != [] && IsBlank(lines[0]) then DropLeadingBlank(lines[1..]) else lines
  }

  /** One turn of the collapsing loop: a blank line is pushed as `""` only after a non-blank one. */
  function CollapseStep(acc: seq<string>, l: string): seq<string>
  {
    if IsBlank(l) then
      (if acc == [] || acc[|acc| - 1] == "" then acc else acc + [""])
    else acc + [l]
  }

  /**
   * The `collapsed` array built from `ls`. It never starts with a blank line,
   * every blank line in it is `""`, no two blank lines are adjacent, and each
   * entry is `""` or one of the input lines.
   */
  function Collapse(ls: seq<string>): (r: seq<string>)
    ensures r == [] || !IsBlank(r[0])
    ensures forall i :: 0 <= i < |r| ==> r[i] == "" || !IsBlank(r[i])
    ensures forall i :: 0 <= i < |r| - 1 ==> r[i] != "" || r[i + 1] != ""
  {
    if ls == [] then [] else CollapseStep(Collapse(ls[..|ls| - 1]), ls[|ls| - 1])
  }

  /** The lines of the normalized reply, before they are joined with `"\n"`. */
  function NormalizedLines(text: string): seq<string>
  {
    Collapse(DropLeadingBlank(RawLines(text)))
  }

  /** `normalizeReply(text)`: the empty string is returned as it is. */
  function Normalize(text: string): (r: string)
    ensures text == "" ==> r == ""
  {
    if text == "" then text else Join(NormalizedLines(text), '\n')
  }

  /** The imperative `normalizeReply`: the `start` scan, then the `collapsed` loop. */
  method NormalizeReply(text: string) returns (r: string)
    ensures r == Normalize(text)
  {
    if text == "" {
      return text;
    }
    var lines := RawLines(text);
    var start := SkipLeadingBlank(lines);
    var collapsed := CollapseLines(lines[start..]);
    r := Join(collapsed, '\n');
  }

  /** The `while` loop that advances `start` past the blank lines at the top. */
  method SkipLeadingBlank(lines: seq<string>) returns (start: nat)
    ensures start <= |lines| && lines[start..] == DropLeadingBlank(lines)
  {
    start := 0;
    while start < |lines| && Trim(lines[start]) == ""
      invariant 0 <= start <= |lines|
      invariant DropLeadingBlank(lines[start..]) == DropLeadingBlank(lines)
    {
      assert lines[start..][1..] == lines[start + 1..];
      start := start + 1;
    }
  }

  /** The `for` loop that pushes each kept line, and one `""` per run of blank lines, into `collapsed`. */
  method CollapseLines(cleaned: seq<string>) returns (collapsed: seq<string>)
    ensures collapsed == Collapse(cleaned)
  {
    collapsed := [];
    for i := 0 to |cleaned|
      invariant collapsed == Collapse(cleaned[..i])
    {
      assert cleaned[..i + 1][..i] == cleaned[..i];
      var l := cleaned[i];
      if Trim(l) == "" {
        if |collapsed| == 0 {
          continue;
        }
        if collapsed[|collapsed| - 1] == "" {
          continue;
        }
        collapsed := collapsed + [""];
      } else {
        collapsed := collapsed + [l];
      }
    }
    assert cleaned[..|cleaned|] == cleaned;
  }

  /** The non-blank lines of `ls`, in order. */
  function NonBlank(ls: seq<string>): seq<string>
  {
    if ls == [] then []
    else NonBlank(ls[..|ls| - 1]) + (if IsBlank(ls[|ls| - 1]) then [] else [ls[|ls| - 1]])
  }

  /** Collapsing keeps exactly the non-blank lines, in their original order. */
  lemma {:induction false} CollapseKeepsNonBlank(ls: seq<string>)
    ensures NonBlank(Collapse(ls)) == NonBlank(ls)
  {
    if ls != [] {
      var init := ls[..|ls| - 1];
      var l := ls[|ls| - 1];
      CollapseKeepsNonBlank(init);
      var prev := Collapse(init);
      if IsBlank(l) {
        if prev != [] && prev[|prev| - 1] != "" {
          assert (prev + [""])[..|prev|] == prev;
        }
      } else {
        assert (prev + [l])[..|prev|] == prev;
      }
    }
  }

  lemma {:induction false} NonBlankOfBlankPrefix(blanks: seq<string>, rest: seq<string>)
    requires forall i :: 0 <= i < |blanks| ==> IsBlank(blanks[i])
    ensures NonBlank(blanks + rest) == NonBlank(rest)
  {
    if rest == [] {
      assert blanks + rest == blanks;
      NonBlankOfBlanks(blanks);
    } else {
      NonBlankOfBlankPrefix(blanks, rest[..|rest| - 1]);
      assert (blanks + rest)[..|blanks + rest| - 1] == blanks + rest[..|rest| - 1];
    }
  }

  lemma {:induction false} NonBlankOfBlanks(blanks: seq<string>)
    requires forall i :: 0 <= i < |blanks| ==> IsBlank(blanks[i])
    ensures NonBlank(blanks) == []
  {
    if blanks != [] {
      NonBlankOfBlanks(blanks[..|blanks| - 1]);
    }
  }

  /** Dropping the leading blank lines and collapsing keeps exactly the non-blank lines, in order. */
  lemma CleanedKeepsNonBlank(raw: seq<string>)
    ensures NonBlank(Collapse(DropLeadingBlank(raw))) == NonBlank(raw)
  {
    var cleaned := DropLeadingBlank(raw);
    CollapseKeepsNonBlank(cleaned);
    assert raw == raw[..|raw| - |cleaned|] + cleaned;
    NonBlankOfBlankPrefix(raw[..|raw| - |cleaned|], cleaned);
  }

  /** The per-line strip keeps characters of its line only. */
  lemma StripLeadingChars(p: string)
    ensures forall c :: c in StripLeading(p) ==> c in p
  {
    var q := StripLeading(p);
    var d := |p| - |q|;
    forall c | c in q ensures c in p {
      var k :| 0 <= k < |q| && q[k] == c;
      assert q[k] == p[d + k];
    }
  }

  /** The raw lines hold no line break. */
  lemma RawLinesHaveNoBreak(text: string)
    ensures forall i :: 0 <= i < |RawLines(text)| ==> '\n' !in RawLines(text)[i]
  {
    var pieces := Split(MapOddSpaces(ReplaceCrlf(text)), '\n');
    forall i | 0 <= i < |RawLines(text)| ensures '\n' !in RawLines(text)[i] {
      assert RawLines(text)[i] == StripLeading(pieces[i]);
      StripLeadingChars(pieces[i]);
    }
  }

  /** Each line left after dropping and collapsing is empty or one of the lines it started from. */
  lemma CleanedEntry(raw: seq<string>, i: nat)
    requires i < |Collapse(DropLeadingBlank(raw))|
    ensures Collapse(DropLeadingBlank(raw))[i] == "" || Collapse(DropLeadingBlank(raw))[i] in raw
  {
    var cleaned := DropLeadingBlank(raw);
    CollapseEntries(cleaned, i);
    var x := Collapse(cleaned)[i];
    if x != "" {
      var k :| 0 <= k < |cleaned| && cleaned[k] == x;
      assert cleaned[k] == raw[|raw| - |cleaned| + k];
    }
  }

  /** Lines free of line breaks stay free of them through dropping and collapsing. */
  lemma CleanedHasNoBreak(raw: seq<string>)
    requires forall i :: 0 <= i < |raw| ==> '\n' !in raw[i]
    ensures forall i :: 0 <= i < |Collapse(DropLeadingBlank(raw))| ==> '\n' !in Collapse(DropLeadingBlank(raw))[i]
  {
    var ls := Collapse(DropLeadingBlank(raw));
    forall i | 0 <= i < |ls| ensures '\n' !in ls[i] {
      CleanedEntry(raw, i);
      if ls[i] != "" {
        var k :| 0 <= k < |raw| && raw[k] == ls[i];
      }
    }
  }

  /**
   * What `normalizeReply` promises about its output's lines: the output is
   * those lines joined with `"\n"` (and splits back into them); the first is
   * not blank; every blank one is `""` and never next to another; and the
   * non-blank ones are exactly the non-blank stripped input lines, in order.
   */
  lemma NormalizeShape(text: string)
    requires text != ""
    ensures var ls := NormalizedLines(text);
      && Normalize(text) == Join(ls, '\n')
      && (ls != [] ==> Split(Normalize(text), '\n') == ls)
      && (ls == [] || !IsBlank(ls[0]))
      && (forall i :: 0 <= i < |ls| ==> ls[i] == "" || !IsBlank(ls[i]))
      && (forall i :: 0 <= i < |ls| - 1 ==> ls[i] != "" || ls[i + 1] != "")
      && NonBlank(ls) == NonBlank(RawLines(text))
  {
    var raw := RawLines(text);
    CleanedKeepsNonBlank(raw);
    RawLinesHaveNoBreak(text);
    CleanedHasNoBreak(raw);
    var ls := Collapse(DropLeadingBlank(raw));
    if ls != [] {
      SplitJoin(ls, '\n');
    }
  }

  /** Every entry of a collapsed sequence is `""` or one of the input lines. */
  lemma {:induction false} CollapseEntries(ls: seq<string>, i: nat)
    requires i < |Collapse(ls)|
    ensures Collapse(ls)[i] == "" || Collapse(ls)[i] in ls
  {
    var init := ls[..|ls| - 1];
    var prev := Collapse(init);
    if i < |prev| {
      CollapseEntries(init, i);
      assert prev[i] in init ==> prev[i] in ls;
    }
  }

  /** Characters a normalized reply cannot contain when its input had no `'\r'`. */
  predicate CleanText(s: string)
  {
    forall k :: 0 <= k < |s| ==> s[k] != '\r' && !IsOddSpace(s[k])
  }

  /** A line as `normalizeReply` leaves it: clean, without a break and without a leading space-like character. */
  predicate SettledLine(l: string)
  {
    CleanText(l) && '\n' !in l && (l == "" || !IsLeadingSpace(l[0]))
  }

  lemma {:induction false} CleanPieces(ps: seq<string>, sep: char)
    requires CleanText(Join(ps, sep))
    ensures forall i :: 0 <= i < |ps| ==> CleanText(ps[i])
  {
    if |ps| > 1 {
      var j := Join(ps, sep);
      assert j == ps[0] + ([sep] + Join(ps[1..], sep));
      assert forall k :: 0 <= k < |ps[0]| ==> ps[0][k] == j[k];
      var tail := Join(ps[1..], sep);
      assert forall k :: 0 <= k < |tail| ==> tail[k] == j[|ps[0]| + 1 + k];
      CleanPieces(ps[1..], sep);
      assert forall i :: 1 <= i < |ps| ==> ps[i] == ps[1..][i - 1];
    }
  }

  lemma {:induction false} CleanJoin(ps: seq<string>, sep: char)
    requires sep != '\r' && !IsOddSpace(sep)
    requires forall i :: 0 <= i < |ps| ==> CleanText(ps[i])
    ensures CleanText(Join(ps, sep))
  {
    if |ps| > 1 {
      CleanJoin(ps[1..], sep);
      var tail := Join(ps[1..], sep);
      var j := Join(ps, sep);
      assert j == ps[0] + [sep] + tail;
      forall k | 0 <= k < |j| ensures j[k] != '\r' && !IsOddSpace(j[k]) {
        if k < |ps[0]| {
          assert j[k] == ps[0][k];
        } else if k > |ps[0]| {
          assert j[k] == tail[k - |ps[0]| - 1];
        }
      }
    }
  }

  /** The per-line strip of a clean line is clean. */
  lemma StripLeadingClean(p: string)
    requires CleanText(p)
    ensures CleanText(StripLeading(p))
  {
    var q := StripLeading(p);
    var d := |p| - |q|;
    forall k | 0 <= k < |q| ensures q[k] != '\r' && !IsOddSpace(q[k]) {
      assert q[k] == p[d + k];
    }
  }

  /** Without `'\r'` in the input, every raw line is settled. */
  lemma RawLinesSettled(text: string)
    requires '\r' !in text
    ensures forall i :: 0 <= i < |RawLines(text)| ==> SettledLine(RawLines(text)[i])
  {
    var mapped := MapOddSpaces(ReplaceCrlf(text));
    assert CleanText(mapped);
    var pieces := Split(mapped, '\n');
    CleanPieces(pieces, '\n');
    forall i | 0 <= i < |RawLines(text)| ensures SettledLine(RawLines(text)[i]) {
      assert RawLines(text)[i] == StripLeading(pieces[i]);
      StripLeadingClean(pieces[i]);
      StripLeadingChars(pieces[i]);
    }
  }

  /** A sequence already in collapsed shape is left as it is by collapsing. */
  lemma {:induction false} CollapseFixed(ls: seq<string>)
    requires ls == [] || !IsBlank(ls[0])
    requires forall i :: 0 <= i < |ls| ==> ls[i] == "" || !IsBlank(ls[i])
    requires forall i :: 0 <= i < |ls| - 1 ==> ls[i] != "" || ls[i + 1] != ""
    ensures Collapse(ls) == ls
  {
    if ls != [] {
      var init := ls[..|ls| - 1];
      CollapseFixed(init);
      assert init + [ls[|ls| - 1]] == ls;
    }
  }

  lemma CleanTextUnchanged(y: string)
    requires CleanText(y)
    ensures MapOddSpaces(ReplaceCrlf(y)) == y
  {
    assert '\r' !in y by {
      forall k | 0 <= k < |y| ensures y[k] != '\r' { }
    }
  }

  /** Settled lines are fixed by the per-line strip. */
  lemma RawLinesOfSettledJoin(ls: seq<string>)
    requires |ls| >= 1
    requires forall i :: 0 <= i < |ls| ==> SettledLine(ls[i])
    ensures RawLines(Join(ls, '\n')) == ls
  {
    var y := Join(ls, '\n');
    CleanJoin(ls, '\n');
    CleanTextUnchanged(y);
    SplitJoin(ls, '\n');
    forall i | 0 <= i < |ls| ensures StripLeading(ls[i]) == ls[i] { }
    RawLinesOfStrippedPieces(y, ls);
  }

  /** Settled lines stay settled through dropping and collapsing. */
  lemma CleanedSettled(raw: seq<string>)
    requires forall i :: 0 <= i < |raw| ==> SettledLine(raw[i])
    ensures forall i :: 0 <= i < |Collapse(DropLeadingBlank(raw))| ==> SettledLine(Collapse(DropLeadingBlank(raw))[i])
  {
    var ls := Collapse(DropLeadingBlank(raw));
    forall i | 0 <= i < |ls| ensures SettledLine(ls[i]) {
      CleanedEntry(raw, i);
      if ls[i] != "" {
        var k :| 0 <= k < |raw| && raw[k] == ls[i];
      }
    }
  }

  /** Normalizing the join of settled lines in collapsed shape gives the same lines back. */
  lemma NormalizeSettledLines(ls: seq<string>)
    requires ls != [] && !IsBlank(ls[0])
    requires forall i :: 0 <= i < |ls| ==> SettledLine(ls[i])
    requires forall i :: 0 <= i < |ls| ==> ls[i] == "" || !IsBlank(ls[i])
    requires forall i :: 0 <= i < |ls| - 1 ==> ls[i] != "" || ls[i + 1] != ""
    ensures Normalize(Join(ls, '\n')) == Join(ls, '\n')
  {
    var y := Join(ls, '\n');
    assert |ls| == 1 ==> y == ls[0];
    assert |ls| > 1 ==> y == ls[0] + ['\n'] + Join(ls[1..], '\n');
    assert y != "";
    RawLinesOfSettledJoin(ls);
    CollapseFixed(ls);
  }

  /**
   * Normalizing twice gives the same reply as normalizing once, for every
   * input without a carriage return.
   */
  lemma NormalizeIdempotent(text: string)
    requires '\r' !in text
    ensures Normalize(Normalize(text)) == Normalize(text)
  {
    if text != "" {
      var raw := RawLines(text);
      RawLinesSettled(text);
      CleanedSettled(raw);
      var ls := Collapse(DropLeadingBlank(raw));
      if ls != [] {
        NormalizeSettledLines(ls);
      }
    }
  }

  lemma StripLeadingKeeps(l: string)
    requires l != "" && !IsLeadingSpace(l[0])
    ensures StripLeading(l) == l
  {
  }

  /** When every piece of the split text is already stripped, the raw lines are those pieces. */
  lemma RawLinesOfStrippedPieces(text: string, pieces: seq<string>)
    requires Split(MapOddSpaces(ReplaceCrlf(text)), '\n') == pieces
    requires forall i :: 0 <= i < |pieces| ==> StripLeading(pieces[i]) == pieces[i]
    ensures RawLines(text) == pieces
  {
  }

  /** A character that does not start `"\r\n"` is kept and the scan goes on after it. */
  lemma CrlfKeep(c: char, t: string)
    requires c != '\r' || t == "" || t[0] != '\n'
    ensures ReplaceCrlf([c] + t) == [c] + ReplaceCrlf(t)
  {
    assert ([c] + t)[1..] == t;
  }

  /** A `"\r\n"` becomes `"\n"` and the scan goes on after it. */
  lemma CrlfPair(t: string)
    ensures ReplaceCrlf("\r\n" + t) == "\n" + ReplaceCrlf(t)
  {
    assert ("\r\n" + t)[2..] == t;
  }

  lemma FirstPassCrlf()
    ensures ReplaceCrlf("a\r\r\nb") == "a\r\nb"
  {
    calc {
      ReplaceCrlf("a\r\r\nb");
      { assert "a\r\r\nb" == ['a'] + "\r\r\nb"; CrlfKeep('a', "\r\r\nb"); }
      "a" + ReplaceCrlf("\r\r\nb");
      { assert "\r\r\nb" == ['\r'] + "\r\nb"; CrlfKeep('\r', "\r\nb"); }
      "a" + ("\r" + ReplaceCrlf("\r\nb"));
      { assert "\r\nb" == "\r\n" + "b"; CrlfPair("b"); }
      "a" + ("\r" + ("\n" + ReplaceCrlf("b")));
      "a\r\nb";
    }
  }

  lemma CrlfAfterTwoLoneReturns()
    ensures ReplaceCrlf("a\r\r\r\nb") == "a\r\r\nb"
  {
    calc {
      ReplaceCrlf("a\r\r\r\nb");
      { assert "a\r\r\r\nb" == ['a'] + "\r\r\r\nb"; CrlfKeep('a', "\r\r\r\nb"); }
      "a" + ReplaceCrlf("\r\r\r\nb");
      { assert "\r\r\r\nb" == ['\r'] + "\r\r\nb"; CrlfKeep('\r', "\r\r\nb"); }
      "a" + ("\r" + ReplaceCrlf("\r\r\nb"));
      { assert "\r\r\nb" == ['\r'] + "\r\nb"; CrlfKeep('\r', "\r\nb"); }
      "a" + ("\r" + ("\r" + ReplaceCrlf("\r\nb")));
      { assert "\r\nb" == "\r\n" + "b"; CrlfPair("b"); }
      "a" + ("\r" + ("\r" + ("\n" + ReplaceCrlf("b"))));
      "a\r\r\nb";
    }
  }

  lemma SecondPassCrlf()
    ensures ReplaceCrlf("a\r\nb") == "a\nb"
  {
    calc {
      ReplaceCrlf("a\r\nb");
      { assert "a\r\nb" == ['a'] + "\r\nb"; CrlfKeep('a', "\r\nb"); }
      "a" + ReplaceCrlf("\r\nb");
      { assert "\r\nb" == "\r\n" + "b"; CrlfPair("b"); }
      "a" + ("\n" + ReplaceCrlf("b"));
      "a\nb";
    }
  }

  lemma MapOddSpacesKeepsTwoLines(x: string, y: string)
    requires forall k :: 0 <= k < |x| ==> !IsOddSpace(x[k])
    requires forall k :: 0 <= k < |y| ==> !IsOddSpace(y[k])
    ensures MapOddSpaces(x + "\n" + y) == x + "\n" + y
  {
    var u := x + "\n" + y;
    forall k | 0 <= k < |u| ensures !IsOddSpace(u[k]) {
      if k < |x| {
        assert u[k] == x[k];
      } else if k > |x| {
        assert u[k] == y[k - |x| - 1];
      }
    }
  }

  lemma SplitTwoLines(x: string, y: string)
    requires '\n' !in x && '\n' !in y
    ensures Split(x + "\n" + y, '\n') == [x, y]
  {
    assert Join([x, y], '\n') == x + "\n" + y;
    SplitJoin([x, y], '\n');
  }

  lemma StrippedTwoLines(t: string, x: string, y: string)
    requires Split(MapOddSpaces(ReplaceCrlf(t)), '\n') == [x, y]
    requires x != "" && !IsLeadingSpace(x[0]) && y != "" && !IsLeadingSpace(y[0])
    ensures RawLines(t) == [x, y]
  {
    var pieces := [x, y];
    forall i | 0 <= i < |pieces|
      ensures StripLeading(pieces[i]) == pieces[i]
    {
      StripLeadingKeeps(pieces[i]);
    }
    RawLinesOfStrippedPieces(t, pieces);
  }

  /** Text that becomes `x + "\n" + y` after the line-break rewrite, with both lines already clean, has the raw lines `[x, y]`. */
  lemma TwoRawLines(t: string, x: string, y: string)
    requires ReplaceCrlf(t) == x + "\n" + y
    requires '\n' !in x && '\n' !in y
    requires forall k :: 0 <= k < |x| ==> !IsOddSpace(x[k])
    requires forall k :: 0 <= k < |y| ==> !IsOddSpace(y[k])
    requires x != "" && !IsLeadingSpace(x[0]) && y != "" && !IsLeadingSpace(y[0])
    ensures RawLines(t) == [x, y]
  {
    MapOddSpacesKeepsTwoLines(x, y);
    SplitTwoLines(x, y);
    StrippedTwoLines(t, x, y);
  }

  /** Two non-blank raw lines are normalized to themselves, joined by one line break. */
  lemma NormalizeTwoLines(t: string, x: string, y: string)
    requires t != "" && RawLines(t) == [x, y]
    requires !IsBlank(x) && !IsBlank(y)
    ensures Normalize(t) == x + "\n" + y
  {
    CollapseTwo(x, y);
    assert Join([x, y], '\n') == x + "\n" + y;
  }

  lemma CollapseTwo(x: string, y: string)
    requires !IsBlank(x) && !IsBlank(y)
    ensures Collapse([x, y]) == [x, y]
  {
    assert [x, y][..1] == [x];
    assert [x][..0] == [];
    assert Collapse([x]) == [x];
  }

  lemma LiteralLinesNotBlank()
    ensures !IsBlank("a") && !IsBlank("a\r") && !IsBlank("b")
  {
    var a, ar, b := "a", "a\r", "b";
    assert a[0] == 'a' && ar[0] == 'a' && ar[1] == '\r' && b[0] == 'b';
  }

  lemma FirstPassNormalize(t: string)
    requires ReplaceCrlf(t) == "a\r\nb"
    ensures Normalize(t) == "a\r\nb"
  {
    var ar, b := "a\r", "b";
    LiteralLinesNotBlank();
    assert ar + "\n" + b == "a\r\nb";
    TwoRawLines(t, ar, b);
    NormalizeTwoLines(t, ar, b);
  }

  lemma SecondPassNormalize(t: string)
    requires ReplaceCrlf(t) == "a\nb"
    ensures Normalize(t) == "a\nb"
  {
    var a, b := "a", "b";
    LiteralLinesNotBlank();
    assert a + "\n" + b == "a\nb";
    TwoRawLines(t, a, b);
    NormalizeTwoLines(t, a, b);
  }

  /** A `\r\n` between two plain lines becomes a single line break. */
  lemma CrlfPairNormalizes()
    ensures Normalize("a\r\nb") == "a\nb"
  {
    SecondPassCrlf();
    SecondPassNormalize("a\r\nb");
  }

  /** Two plain lines joined by a line break are already normalized. */
  lemma PlainPairSettled()
    ensures Normalize("a\nb") == "a\nb"
  {
    assert '\r' !in "a\nb";
    SecondPassNormalize("a\nb");
  }

  /**
   * With carriage returns the source is not idempotent: `"a\r\r\nb"` becomes
   * `"a\r\nb"`, whose `"\r\n"` a second pass turns into a line break.
   */
  lemma NormalizeNotIdempotentWithCarriageReturn()
    ensures Normalize("a\r\r\nb") == "a\r\nb"
    ensures Normalize(Normalize("a\r\r\nb")) == "a\nb"
  {
    FirstPassCrlf();
    FirstPassNormalize("a\r\r\nb");
    SecondPassCrlf();
    SecondPassNormalize("a\r\nb");
  }
}

/**
 * The inline-markup scanner of the chat page (`parseInline`). Two global,
 * non-greedy patterns are run over the string: `**…**` for bold and `【…】`
 * for a highlight. Their matches are merged, sorted by start, and walked with
 * a cursor: a match that starts before the cursor is dropped, the gap before
 * an accepted match becomes a text node, the match becomes a `strong` or
 * `span.highlight` node, and the text after the last match closes the list.
 */
module InlineMarkup {
  import opened Wrappers
  import opened Strings

  datatype Kind = Bold | Bracket

  /** The opening delimiter of a marker kind. */
  function Open(k: Kind): string
  {
    if k == Bold then "**" else "【"
  }

  /** The closing delimiter of a marker kind. */
  function Close(k: Kind): string
  {
    if k == Bold then "**" else "】"
  }

  /** One regular-expression match: `[index, end)` in the scanned string, its kind and its captured group. */
  datatype Marker = Marker(index: nat, end: nat, kind: Kind, content: string)

  /** An inline rich-text node: a text leaf, a `strong` element or a `span` of class `highlight`. */
  datatype Inline = Text(text: string) | Strong(content: string) | Highlight(content: string)

  /** The length of a kind's opening delimiter. */
  function OpenLen(k: Kind): nat
  {
    if k == Bold then 2 else 1
  }

  /** The length of a kind's closing delimiter. */
  function CloseLen(k: Kind): nat
  {
    if k == Bold then 2 else 1
  }

  /** The opening delimiter of kind `k` starts at position `i` of `s`. */
  predicate OpensAt(s: string, i: int, k: Kind)
  {
    0 <= i && i + OpenLen(k) <= |s| && if k == Bold then s[i] == '*' && s[i + 1] == '*' else s[i] == '【'
  }

  /** The closing delimiter of kind `k` starts at position `j` of `s`. */
  predicate ClosesAt(s: string, j: int, k: Kind)
  {
    0 <= j && j + CloseLen(k) <= |s| && if k == Bold then s[j] == '*' && s[j + 1] == '*' else s[j] == '】'
  }

  /** The character tests agree with the delimiter strings. */
  lemma DelimitersAgree(s: string, i: int, k: Kind)
    ensures |Open(k)| == OpenLen(k) && |Close(k)| == CloseLen(k)
    ensures OpensAt(s, i, k) ==> s[i..i + OpenLen(k)] == Open(k)
    ensures ClosesAt(s, i, k) ==> s[i..i + CloseLen(k)] == Close(k)
  {
  }

  /** A content captured by `(.+?)`: at least one character and no line terminator. */
  predicate SpanContent(c: string)
  {
    |c| >= 1 && forall j :: 0 <= j < |c| ==> !IsLineTerminator(c[j])
  }

  /** `m` is an occurrence of its pattern in `s`: the opening delimiter, the content, then the closing delimiter. */
  predicate Occurs(s: string, m: Marker)
  {
    && m.index + OpenLen(m.kind) + |m.content| + CloseLen(m.kind) == m.end <= |s|
    && OpensAt(s, m.index, m.kind)
    && m.content == s[m.index + OpenLen(m.kind)..m.end - CloseLen(m.kind)]
    && ClosesAt(s, m.end - CloseLen(m.kind), m.kind)
    && SpanContent(m.content)
  }

  /** The slice an occurrence covers is its delimiters around its content. */
  lemma OccursSlice(s: string, m: Marker)
    requires Occurs(s, m)
    ensures s[m.index..m.end] == Open(m.kind) + m.content + Close(m.kind)
  {
    var p, q := m.index + OpenLen(m.kind), m.end - CloseLen(m.kind);
    var o, c := s[m.index..p], s[q..m.end];
    assert o == Open(m.kind) by {
      DelimitersAgree(s, m.index, m.kind);
    }
    assert c == Close(m.kind) by {
      DelimitersAgree(s, q, m.kind);
    }
    SliceSplit(s, m.index, q, m.end);
    SliceSplit(s, m.index, p, q);
  }

  /**
   * The lazy `.+?` followed by the closing delimiter of kind `k`, trying the
   * close at `q` first: the position of the first close reachable over
   * characters that `.` matches.
   */
  function CloseFrom(s: string, q: nat, k: Kind): (r: Option<nat>)
    decreases |s| - q
    ensures r.Some? ==> q <= r.value && ClosesAt(s, r.value, k)
    ensures r.Some? ==> forall j :: q <= j < r.value ==> !IsLineTerminator(s[j])
    ensures r.Some? ==> forall j :: q <= j < r.value ==> !ClosesAt(s, j, k)
  {
    if ClosesAt(s, q, k) then Some(q)
    else if q < |s| && !IsLineTerminator(s[q]) then CloseFrom(s, q + 1, k)
    else None
  }

  /** The match of kind `k`'s pattern that starts exactly at `i`, if there is one. */
  function MatchAt(s: string, i: nat, k: Kind): (r: Option<Marker>)
    ensures r.Some? ==> r.value.index == i < r.value.end <= |s| && r.value.kind == k
  {
    var p := i + OpenLen(k);
    if p < |s| && OpensAt(s, i, k) && !IsLineTerminator(s[p]) then
      var close := CloseFrom(s, p + 1, k);
      if close.Some? then Some(Marker(i, close.value + CloseLen(k), k, s[p..close.value]))
      else None
    else None
  }

  /** What the pattern matches is an occurrence: delimiters around a non-empty content without line terminators. */
  lemma MatchAtOccurs(s: string, i: nat, k: Kind)
    ensures MatchAt(s, i, k).Some? ==> Occurs(s, MatchAt(s, i, k).value)
  {
    var p := i + OpenLen(k);
    if p < |s| && OpensAt(s, i, k) && !IsLineTerminator(s[p]) {
      var close := CloseFrom(s, p + 1, k);
      if close.Some? {
        var content := s[p..close.value];
        forall j | 0 <= j < |content| ensures !IsLineTerminator(content[j]) {
          assert content[j] == s[p + j];
        }
      }
    }
  }

  /** A close reachable from `q` over matchable characters is found by the lazy scan (which may stop earlier). */
  lemma {:induction false} CloseFromFinds(s: string, q: nat, k: Kind, r: nat)
    requires q <= r && ClosesAt(s, r, k)
    requires forall j :: q <= j < r ==> !IsLineTerminator(s[j])
    ensures CloseFrom(s, q, k).Some? && CloseFrom(s, q, k).value <= r
    decreases r - q
  {
    if !ClosesAt(s, q, k) {
      CloseFromFinds(s, q + 1, k, r);
    }
  }

  /** Any occurrence at `i` means the pattern matches at `i`, with a content no longer than that occurrence's. */
  lemma MatchAtFinds(s: string, m: Marker)
    requires Occurs(s, m)
    ensures MatchAt(s, m.index, m.kind).Some?
    ensures MatchAt(s, m.index, m.kind).value.end <= m.end
  {
    var p, q := m.index + OpenLen(m.kind), m.end - CloseLen(m.kind);
    assert s[p] == m.content[0];
    forall j | p + 1 <= j < q ensures !IsLineTerminator(s[j]) {
      assert s[j] == m.content[j - p];
    }
    CloseFromFinds(s, p + 1, m.kind, q);
  }

  /** `re.exec(s)` with `re.lastIndex == from`: the leftmost match at or after `from`. */
  function Exec(s: string, k: Kind, from: nat): (r: Option<Marker>)
    decreases |s| - from
    ensures r.Some? ==> from <= r.value.index < r.value.end <= |s| && r.value.kind == k
  {
    if from >= |s| then None
    else
      match MatchAt(s, from, k)
      case Some(m) => Some(m)
      case None => Exec(s, k, from + 1)
  }

  /** `exec` returns the match of the pattern at the position it stops at. */
  lemma {:induction false} ExecFound(s: string, k: Kind, from: nat)
    ensures Exec(s, k, from).Some? ==> MatchAt(s, Exec(s, k, from).value.index, k) == Exec(s, k, from)
    decreases |s| - from
  {
    if from < |s| && MatchAt(s, from, k).None? {
      ExecFound(s, k, from + 1);
    }
  }

  /** `exec` stops at the first position, from `from` on, where the pattern matches, and returns `null` when there is none. */
  lemma {:induction false} ExecFirst(s: string, k: Kind, from: nat)
    ensures Exec(s, k, from).Some? ==> forall i: nat :: from <= i < Exec(s, k, from).value.index ==> MatchAt(s, i, k).None?
    ensures Exec(s, k, from).None? ==> forall i: nat :: from <= i < |s| ==> MatchAt(s, i, k).None?
    decreases |s| - from
  {
    if from < |s| && MatchAt(s, from, k).None? {
      ExecFirst(s, k, from + 1);
    }
  }

  /** All the matches the `while ((m = re.exec(s)) !== null)` loop collects, starting from `from`. */
  function AllMatches(s: string, k: Kind, from: nat): (r: seq<Marker>)
    decreases |s| - from
    ensures forall j :: 0 <= j < |r| ==> from <= r[j].index
  {
    match Exec(s, k, from)
    case None => []
    case Some(m) => [m] + AllMatches(s, k, m.end)
  }

  /** Every collected match is an occurrence of its pattern, of kind `k`, and they come in order without overlapping. */
  lemma {:induction false} AllMatchesSpec(s: string, k: Kind, from: nat)
    ensures forall j :: 0 <= j < |AllMatches(s, k, from)| ==> Occurs(s, AllMatches(s, k, from)[j])
    ensures forall j :: 0 <= j < |AllMatches(s, k, from)| ==> AllMatches(s, k, from)[j].kind == k
    ensures forall i, j :: 0 <= i < j < |AllMatches(s, k, from)| ==> AllMatches(s, k, from)[i].end <= AllMatches(s, k, from)[j].index
    decreases |s| - from
  {
    var e := Exec(s, k, from);
    if e.Some? {
      var m := e.value;
      ExecFound(s, k, from);
      MatchAtOccurs(s, m.index, k);
      AllMatchesSpec(s, k, m.end);
      var rest := AllMatches(s, k, m.end);
      var r := AllMatches(s, k, from);
      assert r == [m] + rest;
      assert forall j :: 1 <= j < |r| ==> r[j] == rest[j - 1];
    }
  }

  /** One `exec` loop: pushes every match of kind `k`, in order, after `markers`. */
  method CollectMatches(s: string, k: Kind, markers: seq<Marker>) returns (out: seq<Marker>)
    ensures out == markers + AllMatches(s, k, 0)
  {
    out := markers;
    var lastIndex := 0;
    var m := Exec(s, k, lastIndex);
    while m.Some?
      invariant m == Exec(s, k, lastIndex)
      invariant out + AllMatches(s, k, lastIndex) == markers + AllMatches(s, k, 0)
      decreases |s| - lastIndex
    {
      assert AllMatches(s, k, lastIndex) == [m.value] + AllMatches(s, k, m.value.end);
      assert out + [m.value] + AllMatches(s, k, m.value.end) == out + AllMatches(s, k, lastIndex);
      out := out + [m.value];
      lastIndex := m.value.end;
      m := Exec(s, k, lastIndex);
    }
  }

  predicate SortedByIndex(ms: seq<Marker>)
  {
    forall i, j :: 0 <= i < j < |ms| ==> ms[i].index <= ms[j].index
  }

  /** Puts `m` in front of the first marker of `sorted` that does not start before it. */
  function InsertByIndex(m: Marker, sorted: seq<Marker>): (r: seq<Marker>)
    requires SortedByIndex(sorted)
    ensures |r| == |sorted| + 1
    ensures r[0] == m || (sorted != [] && r[0] == sorted[0])
    ensures SortedByIndex(r)
    ensures multiset(r) == multiset(sorted) + multiset{m}
  {
    if sorted == [] || m.index <= sorted[0].index then
      ConsSorted(m, sorted);
      [m] + sorted
    else
      SortedTail(sorted);
      var rest := InsertByIndex(m, sorted[1..]);
      assert sorted == [sorted[0]] + sorted[1..];
      ConsSorted(sorted[0], rest);
      [sorted[0]] + rest
  }

  lemma SortedTail(ms: seq<Marker>)
    requires SortedByIndex(ms) && ms != []
    ensures SortedByIndex(ms[1..])
    ensures forall j :: 0 <= j < |ms| - 1 ==> ms[0].index <= ms[1..][j].index
  {
    forall j | 0 <= j < |ms| - 1 ensures ms[0].index <= ms[1..][j].index {
      assert ms[1..][j] == ms[j + 1];
    }
  }

  lemma ConsSorted(m: Marker, ms: seq<Marker>)
    requires SortedByIndex(ms) && (ms != [] ==> m.index <= ms[0].index)
    ensures SortedByIndex([m] + ms)
  {
    var r := [m] + ms;
    forall i, j | 0 <= i < j < |r| ensures r[i].index <= r[j].index {
      assert r[j] == ms[j - 1];
      if i > 0 {
        assert r[i] == ms[i - 1];
      } else {
        assert ms[0].index <= ms[j - 1].index;
      }
    }
  }

  /** `markers.sort((a, b) => a.index - b.index)`: a stable sort by start position. */
  function SortByIndex(ms: seq<Marker>): (r: seq<Marker>)
    ensures SortedByIndex(r)
    ensures multiset(r) == multiset(ms)
  {
    if ms == [] then []
    else
      assert ms == [ms[0]] + ms[1..];
      InsertByIndex(ms[0], SortByIndex(ms[1..]))
  }

  /** The sorted list of every bold and every highlight match. */
  function Markers(s: string): (r: seq<Marker>)
    ensures SortedByIndex(r)
    ensures multiset(r) == multiset(AllMatches(s, Bold, 0) + AllMatches(s, Bracket, 0))
  {
    SortByIndex(AllMatches(s, Bold, 0) + AllMatches(s, Bracket, 0))
  }

  /** Every sorted marker is an occurrence of its pattern. */
  lemma MarkersOccur(s: string)
    ensures forall j :: 0 <= j < |Markers(s)| ==> Occurs(s, Markers(s)[j])
  {
    var all := AllMatches(s, Bold, 0) + AllMatches(s, Bracket, 0);
    AllMatchesSpec(s, Bold, 0);
    AllMatchesSpec(s, Bracket, 0);
    assert forall j :: 0 <= j < |all| ==> Occurs(s, all[j]);
    var r := Markers(s);
    forall j | 0 <= j < |r| ensures Occurs(s, r[j]) {
      assert r[j] in multiset(all);
      var t :| 0 <= t < |all| && all[t] == r[j];
    }
  }

  /** Every marker starts inside `s`. */
  predicate InBounds(s: string, ms: seq<Marker>)
  {
    forall j :: 0 <= j < |ms| ==> ms[j].index <= |s|
  }

  lemma MarkersOrdered(s: string)
    ensures Ordered(Markers(s))
  {
    MarkersOccur(s);
  }

  lemma MarkersInBounds(s: string)
    ensures InBounds(s, Markers(s))
  {
    MarkersOccur(s);
  }

  /** The node a match becomes. */
  function NodeOf(m: Marker): Inline
  {
    if m.kind == Bold then Strong(m.content) else Highlight(m.content)
  }

  /** The cursor loop's state: the nodes emitted so far and `lastIndex`. */
  datatype Cursor = Cursor(children: seq<Inline>, last: nat)

  /** The text node for the unmatched stretch `[last, index)`, if it is not empty. */
  function Gap(s: string, last: nat, index: nat): seq<Inline>
    requires last <= index <= |s|
  {
    if index > last then [Text(s[last..index])] else []
  }

  /** One turn of the cursor loop. */
  function WalkStep(s: string, c: Cursor, m: Marker): Cursor
    requires m.index <= |s|
  {
    if m.index < c.last then c
    else
      Cursor(c.children + Gap(s, c.last, m.index) + [NodeOf(m)], m.end)
  }

  /** The cursor loop over the rest of the sorted matches. */
  function Walk(s: string, c: Cursor, ms: seq<Marker>): Cursor
    requires InBounds(s, ms)
    decreases |ms|
  {
    if ms == [] then c else Walk(s, WalkStep(s, c, ms[0]), ms[1..])
  }

  /** After the cursor loop: the text after the last match, and `[str]` when nothing was emitted. */
  function Finish(s: string, c: Cursor): seq<Inline>
  {
    var children := if c.last < |s| then c.children + [Text(s[c.last..])] else c.children;
    if children == [] then [Text(s)] else children
  }

  /** `parseInline(s)`: never empty. */
  function Parse(s: string): (r: seq<Inline>)
    ensures |r| >= 1
  {
    MarkersInBounds(s);
    Finish(s, Walk(s, Cursor([], 0), Markers(s)))
  }

  /** The imperative `parseInline`: two `exec` loops, the sort, the cursor loop, the trailing text and the fallback. */
  method ParseInline(str: string) returns (children: seq<Inline>)
    ensures children == Parse(str)
  {
    var markers := CollectMarkers(str);
    MarkersInBounds(str);
    var cursor := WalkMarkers(str, markers);
    children := cursor.children;
    var lastIndex := cursor.last;
    if lastIndex < |str| {
      children := children + [Text(str[lastIndex..])];
    }
    if |children| == 0 {
      children := children + [Text(str)];
    }
    assert children == Finish(str, cursor);
  }

  /** The two `exec` loops of `parseInline`, then the sort. */
  method CollectMarkers(str: string) returns (markers: seq<Marker>)
    ensures markers == Markers(str)
  {
    markers := [];
    markers := CollectMatches(str, Bold, markers);
    markers := CollectMatches(str, Bracket, markers);
    assert markers == AllMatches(str, Bold, 0) + AllMatches(str, Bracket, 0);
    markers := SortByIndex(markers);
  }

  /** The cursor loop of `parseInline` over the sorted matches. */
  method WalkMarkers(str: string, markers: seq<Marker>) returns (cursor: Cursor)
    requires InBounds(str, markers)
    ensures cursor == Walk(str, Cursor([], 0), markers)
  {
    var children := [];
    var lastIndex: nat := 0;
    for i := 0 to |markers|
      invariant Walk(str, Cursor(children, lastIndex), markers[i..]) == Walk(str, Cursor([], 0), markers)
    {
      assert markers[i..] == [markers[i]] + markers[i + 1..];
      var mark := markers[i];
      ghost var before := Cursor(children, lastIndex);
      if mark.index < lastIndex {
        continue;
      }
      if mark.index > lastIndex {
        children := children + [Text(str[lastIndex..mark.index])];
      }
      if mark.kind == Bold {
        children := children + [Strong(mark.content)];
      } else {
        children := children + [Highlight(mark.content)];
      }
      lastIndex := mark.end;
      assert mark.index == before.last ==> before.children + [] == before.children;
      assert children == before.children + Gap(str, before.last, mark.index) + [NodeOf(mark)];
    }
    cursor := Cursor(children, lastIndex);
  }

  /** The text a node stands for in the source string: its content with its delimiters put back. */
  function Render(n: Inline): string
  {
    match n
    case Text(t) => t
    case Strong(c) => Open(Bold) + c + Close(Bold)
    case Highlight(c) => Open(Bracket) + c + Close(Bracket)
  }

  /** The concatenation of the rendered nodes, in order. */
  function Flatten(ns: seq<Inline>): string
  {
    if ns == [] then "" else Flatten(ns[..|ns| - 1]) + Render(ns[|ns| - 1])
  }

  lemma FlattenSnoc(ns: seq<Inline>, n: Inline)
    ensures Flatten(ns + [n]) == Flatten(ns) + Render(n)
  {
    assert (ns + [n])[..|ns|] == ns;
  }

  /** One accepted match extends the rendered prefix from the cursor to the match's end. */
  lemma WalkStepRoundTrip(s: string, c: Cursor, m: Marker)
    requires Occurs(s, m)
    requires c.last <= |s| && Flatten(c.children) == s[..c.last]
    ensures WalkStep(s, c, m).last <= |s|
    ensures Flatten(WalkStep(s, c, m).children) == s[..WalkStep(s, c, m).last]
  {
    if m.index >= c.last {
      var withGap := c.children + Gap(s, c.last, m.index);
      GapRoundTrip(s, c.children, c.last, m.index);
      assert WalkStep(s, c, m).children == withGap + [NodeOf(m)];
      FlattenSnoc(withGap, NodeOf(m));
      NodeRoundTrip(s, m);
      PrefixExtend(s, m.index, m.end);
    }
  }

  lemma PrefixExtend(s: string, a: nat, b: nat)
    requires a <= b <= |s|
    ensures s[..b] == s[..a] + s[a..b]
  {
  }

  /** A match's node renders as exactly the slice it was matched on. */
  lemma NodeRoundTrip(s: string, m: Marker)
    requires Occurs(s, m)
    ensures Render(NodeOf(m)) == s[m.index..m.end]
  {
    OccursSlice(s, m);
  }

  /** The gap before a match renders as the text between the cursor and the match. */
  lemma GapRoundTrip(s: string, children: seq<Inline>, last: nat, index: nat)
    requires last <= index <= |s| && Flatten(children) == s[..last]
    ensures Flatten(children + Gap(s, last, index)) == s[..index]
  {
    if index > last {
      FlattenSnoc(children, Text(s[last..index]));
      PrefixExtend(s, last, index);
    } else {
      assert children + [] == children;
    }
  }

  /** Walking well-formed matches keeps the emitted nodes equal to the prefix of `s` up to the cursor. */
  lemma {:induction false} WalkRoundTrip(s: string, c: Cursor, ms: seq<Marker>)
    requires InBounds(s, ms)
    requires forall j :: 0 <= j < |ms| ==> Occurs(s, ms[j])
    requires c.last <= |s| && Flatten(c.children) == s[..c.last]
    ensures Walk(s, c, ms).last <= |s|
    ensures Flatten(Walk(s, c, ms).children) == s[..Walk(s, c, ms).last]
    decreases |ms|
  {
    if ms != [] {
      WalkStepRoundTrip(s, c, ms[0]);
      WalkRoundTrip(s, WalkStep(s, c, ms[0]), ms[1..]);
    }
  }

  /** Round trip: putting the delimiters back around every span and concatenating gives the input exactly. */
  lemma ParseRoundTrip(s: string)
    ensures Flatten(Parse(s)) == s
  {
    var ms := Markers(s);
    MarkersOccur(s);
    MarkersInBounds(s);
    var c := Walk(s, Cursor([], 0), ms);
    WalkRoundTrip(s, Cursor([], 0), ms);
    FinishRoundTrip(s, c);
    assert Parse(s) == Finish(s, c);
  }

  lemma FinishRoundTrip(s: string, c: Cursor)
    requires c.last <= |s| && Flatten(c.children) == s[..c.last]
    ensures Flatten(Finish(s, c)) == s
  {
    if c.last < |s| {
      FinishTrailing(s, c);
    } else {
      FinishAtEnd(s, c);
    }
  }

  /** The text after the last match becomes the last node. */
  lemma FinishTrailing(s: string, c: Cursor)
    requires c.last < |s| && Flatten(c.children) == s[..c.last]
    ensures Flatten(Finish(s, c)) == s
  {
    var t := Text(s[c.last..]);
    calc {
      Flatten(Finish(s, c));
      Flatten(c.children + [t]);
      { FlattenSnoc(c.children, t); }
      Flatten(c.children) + s[c.last..];
      s[..c.last] + s[c.last..];
      { TakeDrop(s, c.last); }
      s;
    }
  }

  /** With nothing left after the last match, the nodes stand; without any node, the whole line is one text. */
  lemma FinishAtEnd(s: string, c: Cursor)
    requires c.last == |s| && Flatten(c.children) == s[..c.last]
    ensures Flatten(Finish(s, c)) == s
  {
    TakeDrop(s, c.last);
    if c.children == [] {
      FlattenSnoc([], Text(s));
      assert [] + [Text(s)] == [Text(s)];
    }
  }

  /** The markers the cursor loop accepts: those that start at or after the end of the previous accepted one. */
  function Accepted(ms: seq<Marker>, last: nat): seq<Marker>
  {
    if ms == [] then []
    else if ms[0].index < last then Accepted(ms[1..], last)
    else [ms[0]] + Accepted(ms[1..], ms[0].end)
  }

  /** Accepted markers are among the given ones and, when those are well-formed, follow each other without overlap. */
  lemma {:induction false} AcceptedSpec(ms: seq<Marker>, last: nat)
    requires Ordered(ms)
    ensures forall j :: 0 <= j < |Accepted(ms, last)| ==> Accepted(ms, last)[j] in ms
    ensures Accepted(ms, last) != [] ==> last <= Accepted(ms, last)[0].index
    ensures forall i, j :: 0 <= i < j < |Accepted(ms, last)| ==> Accepted(ms, last)[i].end <= Accepted(ms, last)[j].index
  {
    if ms != [] {
      if ms[0].index < last {
        AcceptedSpec(ms[1..], last);
      } else {
        var rest := Accepted(ms[1..], ms[0].end);
        AcceptedSpec(ms[1..], ms[0].end);
        var r := Accepted(ms, last);
        assert r == [ms[0]] + rest;
        assert forall j :: 1 <= j < |r| ==> r[j] == rest[j - 1];
        assert forall j :: 0 <= j < |rest| ==> rest[j].index <= rest[j].end by {
          forall j | 0 <= j < |rest| ensures rest[j].index <= rest[j].end {
            var t :| 0 <= t < |ms[1..]| && ms[1..][t] == rest[j];
          }
        }
      }
    }
  }

  /** The nodes of a list of markers. */
  function Nodes(ms: seq<Marker>): (r: seq<Inline>)
    ensures |r| == |ms| && forall j :: 0 <= j < |ms| ==> r[j] == NodeOf(ms[j])
  {
    seq(|ms|, j requires 0 <= j < |ms| => NodeOf(ms[j]))
  }

  /** The `strong` and `highlight` nodes of a node list, in order. */
  function Spans(ns: seq<Inline>): seq<Inline>
  {
    if ns == [] then [] else Spans(ns[..|ns| - 1]) + (if ns[|ns| - 1].Text? then [] else [ns[|ns| - 1]])
  }

  lemma SpansSnoc(ns: seq<Inline>, n: Inline)
    ensures Spans(ns + [n]) == Spans(ns) + (if n.Text? then [] else [n])
  {
    assert (ns + [n])[..|ns|] == ns;
  }

  /** Every non-text node of a list is among its spans. */
  lemma {:induction false} SpansContain(ns: seq<Inline>, i: nat)
    requires i < |ns| && !ns[i].Text?
    ensures ns[i] in Spans(ns)
  {
    if i < |ns| - 1 {
      SpansContain(ns[..|ns| - 1], i);
    }
  }

  predicate Ordered(ms: seq<Marker>)
  {
    forall j :: 0 <= j < |ms| ==> ms[j].index <= ms[j].end
  }

  lemma WalkStepSpans(s: string, c: Cursor, m: Marker, rest: seq<Inline>)
    requires m.index <= |s|
    ensures Spans(WalkStep(s, c, m).children) == Spans(c.children) + (if m.index < c.last then [] else [NodeOf(m)])
  {
    if m.index >= c.last {
      var withGap := c.children + Gap(s, c.last, m.index);
      if m.index > c.last {
        SpansSnoc(c.children, Text(s[c.last..m.index]));
      } else {
        assert withGap == c.children;
      }
      SpansSnoc(withGap, NodeOf(m));
      assert WalkStep(s, c, m).children == withGap + [NodeOf(m)];
    }
  }

  lemma NodesCons(m: Marker, rest: seq<Marker>)
    ensures Nodes([m] + rest) == [NodeOf(m)] + Nodes(rest)
  {
  }

  lemma {:induction false} WalkSpans(s: string, c: Cursor, ms: seq<Marker>)
    requires InBounds(s, ms)
    ensures Spans(Walk(s, c, ms).children) == Spans(c.children) + Nodes(Accepted(ms, c.last))
    decreases |ms|
  {
    if ms != [] {
      var m := ms[0];
      var c' := WalkStep(s, c, m);
      assert Walk(s, c, ms) == Walk(s, c', ms[1..]);
      WalkSpans(s, c', ms[1..]);
      WalkStepSpans(s, c, m, []);
      if m.index >= c.last {
        var rest := Accepted(ms[1..], m.end);
        assert Accepted(ms, c.last) == [m] + rest;
        NodesCons(m, rest);
        assert Spans(c.children) + [NodeOf(m)] + Nodes(rest) == Spans(c.children) + ([NodeOf(m)] + Nodes(rest));
      } else {
        assert Accepted(ms, c.last) == Accepted(ms[1..], c.last);
      }
    }
  }

  /**
   * The spans `parseInline` emits are exactly the nodes of the accepted
   * matches, in order. Accepted matches are among the sorted matches, and
   * each one starts at or after the end of the one before, so spans never
   * overlap. A match that starts before the cursor is skipped.
   */
  lemma ParseSpans(s: string)
    ensures Spans(Parse(s)) == Nodes(Accepted(Markers(s), 0))
  {
    var ms := Markers(s);
    MarkersInBounds(s);
    var c := Walk(s, Cursor([], 0), ms);
    WalkSpans(s, Cursor([], 0), ms);
    assert Parse(s) == Finish(s, c);
    FinishSpans(s, c);
    assert Spans([]) + Nodes(Accepted(ms, 0)) == Nodes(Accepted(ms, 0));
  }

  /** Closing the cursor adds only text, so the spans are those already collected. */
  lemma FinishSpans(s: string, c: Cursor)
    ensures Spans(Finish(s, c)) == Spans(c.children)
  {
    if c.last < |s| {
      SpansSnoc(c.children, Text(s[c.last..]));
    } else if c.children == [] {
      assert Spans([Text(s)]) == Spans([]) + [];
    }
  }

  /** Every accepted marker is an occurrence of its pattern. */
  lemma AcceptedOccur(s: string)
    ensures forall j :: 0 <= j < |Accepted(Markers(s), 0)| ==> Occurs(s, Accepted(Markers(s), 0)[j])
  {
    var ms := Markers(s);
    MarkersOccur(s);
    MarkersOrdered(s);
    AcceptedSpec(ms, 0);
  }

  /** Each `strong` and `highlight` node holds at least one character and no line terminator. */
  lemma ParseSpanContent(s: string, i: nat)
    requires i < |Parse(s)| && !Parse(s)[i].Text?
    ensures SpanContent(Parse(s)[i].content)
  {
    ParseSpans(s);
    SpansContain(Parse(s), i);
    var acc := Accepted(Markers(s), 0);
    AcceptedOccur(s);
    var t :| 0 <= t < |Nodes(acc)| && Nodes(acc)[t] == Parse(s)[i];
    assert Occurs(s, acc[t]);
  }

  /** No text node is empty (unless the input is) and no two text nodes are adjacent. */
  predicate TextsNonEmpty(ns: seq<Inline>)
  {
    forall i :: 0 <= i < |ns| && ns[i].Text? ==> ns[i].text != ""
  }

  ghost predicate NoAdjacentTexts(ns: seq<Inline>)
  {
    forall i, j :: 0 <= i < j < |ns| && j == i + 1 ==> !(ns[i].Text? && ns[j].Text?)
  }

  /** The cursor loop's children: good text nodes, never adjacent, and the last one is a span. */
  ghost predicate GoodChildren(ns: seq<Inline>)
  {
    TextsNonEmpty(ns) && NoAdjacentTexts(ns) && (ns == [] || !ns[|ns| - 1].Text?)
  }

  lemma AppendText(ns: seq<Inline>, t: string)
    requires GoodChildren(ns) && t != ""
    ensures TextsNonEmpty(ns + [Text(t)]) && NoAdjacentTexts(ns + [Text(t)])
  {
    var r := ns + [Text(t)];
    assert forall i :: 0 <= i < |ns| ==> r[i] == ns[i];
  }

  lemma AppendSpan(ns: seq<Inline>, n: Inline)
    requires TextsNonEmpty(ns) && NoAdjacentTexts(ns) && !n.Text?
    ensures GoodChildren(ns + [n])
  {
    var r := ns + [n];
    assert forall i :: 0 <= i < |ns| ==> r[i] == ns[i];
  }

  lemma {:induction false} WalkGood(s: string, c: Cursor, ms: seq<Marker>)
    requires InBounds(s, ms) && GoodChildren(c.children)
    ensures GoodChildren(Walk(s, c, ms).children)
    decreases |ms|
  {
    if ms != [] {
      var m := ms[0];
      if m.index >= c.last {
        var withGap := c.children + Gap(s, c.last, m.index);
        if m.index > c.last {
          AppendText(c.children, s[c.last..m.index]);
        } else {
          assert withGap == c.children;
        }
        AppendSpan(withGap, NodeOf(m));
        assert WalkStep(s, c, m).children == withGap + [NodeOf(m)];
      }
      WalkGood(s, WalkStep(s, c, m), ms[1..]);
    }
  }

  /** The node list holds no empty text node when the input is not empty, and never two text nodes in a row. */
  lemma ParseShape(s: string)
    ensures s != "" ==> TextsNonEmpty(Parse(s))
    ensures NoAdjacentTexts(Parse(s))
  {
    var ms := Markers(s);
    MarkersInBounds(s);
    var c := Walk(s, Cursor([], 0), ms);
    WalkGood(s, Cursor([], 0), ms);
    assert Parse(s) == Finish(s, c);
    if c.last < |s| {
      AppendText(c.children, s[c.last..]);
    }
  }

  /** The pattern matches nowhere in `s`. */
  predicate NoMatch(s: string)
  {
    forall i: nat, k: Kind :: i < |s| ==> MatchAt(s, i, k).None?
  }

  /** `exec` from 0 finds nothing exactly when the pattern matches at no position. */
  lemma ExecNoneIff(s: string, k: Kind)
    ensures Exec(s, k, 0).None? <==> forall i: nat :: i < |s| ==> MatchAt(s, i, k).None?
  {
    ExecFound(s, k, 0);
    ExecFirst(s, k, 0);
  }

  lemma MarkersEmpty(s: string)
    ensures Markers(s) == [] <==> Exec(s, Bold, 0).None? && Exec(s, Bracket, 0).None?
  {
    var all := AllMatches(s, Bold, 0) + AllMatches(s, Bracket, 0);
    assert |Markers(s)| == |multiset(Markers(s))| == |multiset(all)| == |all|;
  }

  lemma NoMatchNoMarkers(s: string)
    ensures NoMatch(s) <==> Markers(s) == []
  {
    ExecNoneIff(s, Bold);
    ExecNoneIff(s, Bracket);
    MarkersEmpty(s);
    if !NoMatch(s) {
      var i: nat, k: Kind :| i < |s| && MatchAt(s, i, k).Some?;
      assert k == Bold || k == Bracket;
    }
  }

  /** A span node exists in the output as soon as one marker is accepted; the sorted first marker always is. */
  lemma FirstMarkerAccepted(ms: seq<Marker>)
    requires ms != []
    ensures Accepted(ms, 0) != []
  {
  }

  /** `parseInline` returns the input as one text node exactly when no marker pattern matches anywhere. */
  lemma ParseSingleText(s: string)
    ensures Parse(s) == [Text(s)] <==> NoMatch(s)
  {
    NoMatchNoMarkers(s);
    ParseSpans(s);
    var ms := Markers(s);
    if ms == [] {
      assert Walk(s, Cursor([], 0), ms) == Cursor([], 0);
      if s != "" {
        assert s[0..] == s;
      }
    } else {
      MarkersOrdered(s);
      FirstMarkerAccepted(ms);
      assert Spans([Text(s)]) == Spans([]) + [];
    }
  }
}

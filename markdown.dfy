/**
 * The block builder of the chat page (`formatMarkdownImpl`). The reply is cut
 * into lines; each trimmed line is a blank, a heading (`#` to `######`), a
 * list item (`-`, `*`, `+` or `N.` and whitespace) or paragraph text. A
 * paragraph buffer and a list buffer collect consecutive lines; blanks and
 * headings flush both, a list item flushes the paragraph, a paragraph line
 * flushes the list.
 */
module BlockFormatter {
  import opened Wrappers
  import opened Strings
  import opened InlineMarkup

  /** A rich-text block: `h1`–`h3`, `p`, or `ul` whose `li` children are given item by item. */
  datatype Block =
    | Heading(level: nat, children: seq<Inline>)
    | Paragraph(children: seq<Inline>)
    | BulletList(items: seq<seq<Inline>>)

  /** What a trimmed line is taken for. */
  datatype LineKind =
    | Blank
    | HeadingLine(level: nat, content: string)
    | ItemLine(item: string)
    | PlainLine(text: string)

  /** No character of `s` is a line terminator, so `(.*)$` can match all of it. */
  predicate DotMatchesAll(s: string)
  {
    forall i :: 0 <= i < |s| ==> !IsLineTerminator(s[i])
  }

  /** The number of `#` characters `s` starts with. */
  function HashRun(s: string): (r: nat)
    ensures r <= |s| && (forall i :: 0 <= i < r ==> s[i] == '#') && (r < |s| ==> s[r] != '#')
  {
    if s != [] && s[0] == '#' then 1 + HashRun(s[1..]) else 0
  }

  /** The number of ASCII digits `s` starts with (what `\d+` takes). */
  function DigitRun(s: string): (r: nat)
    ensures r <= |s| && (forall i :: 0 <= i < r ==> '0' <= s[i] <= '9') && (r < |s| ==> !('0' <= s[r] <= '9'))
  {
    if s != [] && '0' <= s[0] <= '9' then 1 + DigitRun(s[1..]) else 0
  }

  /** How many `#` the heading pattern takes: the run of `#`, at most six. */
  function HashCount(t: string): (r: nat)
    ensures r <= 6 && r <= |t|
    ensures t != "" && t[0] == '#' ==> r >= 1
  {
    var h := HashRun(t);
    if h < 6 then h else 6
  }

  /**
   * `t.match(/^(#{1,6})\s*(.*)$/)`: up to six `#`, the whitespace after them,
   * and the rest, which `.` must cover to the end. The level is
   * `min(#count, 3)` and the content is the trimmed rest.
   */
  function HeadingMatch(t: string): (r: Option<LineKind>)
    ensures r.Some? ==> r.value.HeadingLine? && 1 <= r.value.level <= 3
  {
    var g := HashCount(t);
    if g == 0 then None
    else
      var rest := TrimStart(t[g..]);
      if DotMatchesAll(rest) then Some(HeadingLine(if g < 3 then g else 3, Trim(rest))) else None
  }

  /** `t.match(/^[-*+]\s+(.*)$/)`, giving the captured item. */
  function BulletMatch(t: string): Option<string>
  {
    if |t| >= 2 && (t[0] == '-' || t[0] == '*' || t[0] == '+') && IsSpace(t[1]) then
      var rest := TrimStart(t[1..]);
      if DotMatchesAll(rest) then Some(rest) else None
    else None
  }

  /** `t` starts with digits, `.` and a whitespace character. */
  predicate NumberedPrefix(t: string)
  {
    var d := DigitRun(t);
    d >= 1 && d + 1 < |t| && t[d] == '.' && IsSpace(t[d + 1])
  }

  /** `t.match(/^\d+\.\s+(.*)$/)`, giving the captured item. */
  function NumberedMatch(t: string): Option<string>
  {
    if NumberedPrefix(t) then
      var rest := TrimStart(t[DigitRun(t) + 1..]);
      if DotMatchesAll(rest) then Some(rest) else None
    else None
  }

  /** `(listMatch || numListMatch)![1]`. */
  function ItemMatch(t: string): Option<string>
  {
    var b := BulletMatch(t);
    if b.Some? then b else NumberedMatch(t)
  }

  /** The kind of one non-blank trimmed line: heading first, then list item, else paragraph text. */
  function KindOf(t: string): (r: LineKind)
    ensures !r.Blank?
    ensures r.PlainLine? ==> r.text == t
    ensures r.HeadingLine? ==> 1 <= r.level <= 3
  {
    if HeadingMatch(t).Some? then HeadingMatch(t).value
    else if ItemMatch(t).Some? then ItemLine(ItemMatch(t).value)
    else PlainLine(t)
  }

  /** The kind of one raw line: the blank test on the trimmed line first, then `KindOf`. */
  function Classify(raw: string): (r: LineKind)
    ensures r.PlainLine? ==> r.text != "" && !IsSpace(r.text[0]) && !IsSpace(r.text[|r.text| - 1])
    ensures r.HeadingLine? ==> 1 <= r.level <= 3
  {
    var trimmed := Trim(TrimEnd(raw));
    if trimmed == "" then Blank else KindOf(trimmed)
  }

  /** The builder's state: the blocks emitted so far, the paragraph buffer and the list buffer. */
  datatype Builder = Builder(nodes: seq<Block>, para: seq<string>, list: seq<string>)

  /** The paragraph a buffer gives: its lines joined by spaces and trimmed, unless that is empty; `inline` parses the text. */
  function Paragraphs(para: seq<string>, inline: string -> seq<Inline>): seq<Block>
  {
    var content := Trim(Join(para, ' '));
    if content == "" then [] else [Paragraph(inline(content))]
  }

  /** `flushPara`'s block, parsed by `parseInline`. */
  function ParaBlock(para: seq<string>): seq<Block>
  {
    Paragraphs(para, Parse)
  }

  /**
   * How buffered text becomes rich text: `inline` parses one string, `para`
   * turns a paragraph buffer into its block (or none). The builder is stated
   * over any such pair; the chat page uses `Standard`.
   */
  datatype Render = Render(inline: string -> seq<Inline>, para: seq<string> -> seq<Block>)

  const Standard := Render(Parse, ParaBlock)

  /** The `li` children of a list buffer. */
  function Items(list: seq<string>, rd: Render): (r: seq<seq<Inline>>)
    ensures |r| == |list|
  {
    seq(|list|, i requires 0 <= i < |list| => rd.inline(Trim(list[i])))
  }

  /** `flushPara`. */
  function FlushPara(b: Builder, rd: Render): Builder
  {
    if b.para == [] then b else Builder(b.nodes + rd.para(b.para), [], b.list)
  }

  /** `flushList`. */
  function FlushList(b: Builder, rd: Render): Builder
  {
    if b.list == [] then b else Builder(b.nodes + [BulletList(Items(b.list, rd))], b.para, [])
  }

  /** Both flushes, paragraph first. */
  function FlushBoth(b: Builder, rd: Render): Builder
  {
    FlushList(FlushPara(b, rd), rd)
  }

  /** One turn of the line loop. */
  function Step(b: Builder, k: LineKind, rd: Render): Builder
  {
    match k
    case Blank => FlushBoth(b, rd)
    case HeadingLine(level, content) =>
      var f := FlushBoth(b, rd);
      f.(nodes := f.nodes + [Heading(level, rd.inline(content))])
    case ItemLine(item) =>
      var f := FlushPara(b, rd);
      f.(list := f.list + [item])
    case PlainLine(t) =>
      var f := FlushList(b, rd);
      f.(para := f.para + [t])
  }

  /** The line loop over the rest of the classified lines. */
  function Run(b: Builder, ks: seq<LineKind>, rd: Render): Builder
    decreases |ks|
  {
    if ks == [] then b else Run(Step(b, ks[0], rd), ks[1..], rd)
  }

  /** The lines of the text after `\r\n` is turned into `\n`. */
  function Lines(text: string): seq<string>
  {
    Split(ReplaceCrlf(text), '\n')
  }

  function Kinds(lines: seq<string>): (r: seq<LineKind>)
    ensures |r| == |lines| && forall i :: 0 <= i < |lines| ==> r[i] == Classify(lines[i])
  {
    seq(|lines|, i requires 0 <= i < |lines| => Classify(lines[i]))
  }

  /** `formatMarkdownImpl(text)`. */
  function Format(text: string): seq<Block>
  {
    if text == "" then [] else FlushBoth(Run(Builder([], [], []), Kinds(Lines(text)), Standard), Standard).nodes
  }

  /** `flushPara` on the loop's variables. */
  method FlushParaBuf(nodes: seq<Block>, paraBuf: seq<string>) returns (nodes': seq<Block>, paraBuf': seq<string>)
    ensures Builder(nodes', paraBuf', []) == FlushPara(Builder(nodes, paraBuf, []), Standard)
  {
    nodes', paraBuf' := nodes, paraBuf;
    if |paraBuf| == 0 {
      return;
    }
    var content := Trim(Join(paraBuf, ' '));
    if content == "" {
      paraBuf' := [];
      return;
    }
    var children := ParseInline(content);
    nodes' := nodes + [Paragraph(children)];
    paraBuf' := [];
  }

  /** `flushList` on the loop's variables. */
  method FlushListBuf(nodes: seq<Block>, listBuf: seq<string>) returns (nodes': seq<Block>, listBuf': seq<string>)
    ensures Builder(nodes', [], listBuf') == FlushList(Builder(nodes, [], listBuf), Standard)
  {
    nodes', listBuf' := nodes, listBuf;
    if |listBuf| == 0 {
      return;
    }
    nodes' := nodes + [BulletList(Items(listBuf, Standard))];
    listBuf' := [];
  }

  /** One turn of the line loop on the loop's variables. */
  method StepLine(nodes: seq<Block>, paraBuf: seq<string>, listBuf: seq<string>, kind: LineKind)
    returns (nodes': seq<Block>, paraBuf': seq<string>, listBuf': seq<string>)
    ensures Builder(nodes', paraBuf', listBuf') == Step(Builder(nodes, paraBuf, listBuf), kind, Standard)
  {
    nodes', paraBuf', listBuf' := nodes, paraBuf, listBuf;
    match kind {
      case Blank =>
        nodes', paraBuf' := FlushParaBuf(nodes', paraBuf');
        nodes', listBuf' := FlushListBuf(nodes', listBuf');
      case HeadingLine(level, content) =>
        nodes', paraBuf' := FlushParaBuf(nodes', paraBuf');
        nodes', listBuf' := FlushListBuf(nodes', listBuf');
        var children := ParseInline(content);
        nodes' := nodes' + [Heading(level, children)];
      case ItemLine(item) =>
        nodes', paraBuf' := FlushParaBuf(nodes', paraBuf');
        listBuf' := listBuf' + [item];
      case PlainLine(trimmed) =>
        nodes', listBuf' := FlushListBuf(nodes', listBuf');
        paraBuf' := paraBuf' + [trimmed];
    }
  }

  /** One turn of `Run`, taken at position `i`. */
  lemma RunUnroll(b: Builder, ks: seq<LineKind>, i: nat, rd: Render)
    requires i < |ks|
    ensures Run(b, ks[i..], rd) == Run(Step(b, ks[i], rd), ks[i + 1..], rd)
  {
    assert ks[i..][1..] == ks[i + 1..];
  }

  /** The line loop of `formatMarkdownImpl`: each line is classified and fed to the buffers. */
  method LineLoop(lines: seq<string>) returns (nodes: seq<Block>, paraBuf: seq<string>, listBuf: seq<string>)
    ensures Builder(nodes, paraBuf, listBuf) == Run(Builder([], [], []), Kinds(lines), Standard)
  {
    ghost var ks := Kinds(lines);
    nodes, paraBuf, listBuf := [], [], [];
    for i := 0 to |lines|
      invariant Run(Builder(nodes, paraBuf, listBuf), ks[i..], Standard) == Run(Builder([], [], []), ks, Standard)
    {
      RunUnroll(Builder(nodes, paraBuf, listBuf), ks, i, Standard);
      var kind := Classify(lines[i]);
      nodes, paraBuf, listBuf := StepLine(nodes, paraBuf, listBuf, kind);
    }
  }

  /** The imperative `formatMarkdownImpl`: the line loop with its two buffers, then the final flushes. */
  method FormatMarkdown(text: string) returns (nodes: seq<Block>)
    ensures nodes == Format(text)
  {
    if text == "" {
      return [];
    }
    var lines := Split(ReplaceCrlf(text), '\n');
    var paraBuf, listBuf;
    nodes, paraBuf, listBuf := LineLoop(lines);
    nodes, paraBuf := FlushParaBuf(nodes, paraBuf);
    nodes, listBuf := FlushListBuf(nodes, listBuf);
  }

  /** The text a paragraph or list line carries. */
  function Payload(k: LineKind): string
  {
    match k
    case PlainLine(t) => t
    case ItemLine(x) => x
    case _ => ""
  }

  function Payloads(ks: seq<LineKind>): (r: seq<string>)
    ensures |r| == |ks| && forall i :: 0 <= i < |ks| ==> r[i] == Payload(ks[i])
  {
    seq(|ks|, i requires 0 <= i < |ks| => Payload(ks[i]))
  }

  /** The length of the run of paragraph lines `ks` starts with. */
  function PlainRun(ks: seq<LineKind>): (r: nat)
    ensures r <= |ks| && (ks != [] && ks[0].PlainLine? ==> r >= 1)
  {
    if ks != [] && ks[0].PlainLine? then 1 + PlainRun(ks[1..]) else 0
  }

  /** The length of the run of list-item lines `ks` starts with. */
  function ItemRun(ks: seq<LineKind>): (r: nat)
    ensures r <= |ks| && (ks != [] && ks[0].ItemLine? ==> r >= 1)
  {
    if ks != [] && ks[0].ItemLine? then 1 + ItemRun(ks[1..]) else 0
  }

  /**
   * The blocks of a classified text, stated without buffers: blanks separate,
   * each heading line is one heading, each maximal run of list lines is one
   * list with one item per line, and each maximal run of paragraph lines is
   * one paragraph.
   */
  function Blocks(ks: seq<LineKind>, rd: Render): seq<Block>
    decreases |ks|
  {
    if ks == [] then []
    else
      match ks[0]
      case Blank => Blocks(ks[1..], rd)
      case HeadingLine(level, content) => [Heading(level, rd.inline(content))] + Blocks(ks[1..], rd)
      case ItemLine(_) =>
        var n := ItemRun(ks);
        [BulletList(Items(Payloads(ks[..n]), rd))] + Blocks(ks[n..], rd)
      case PlainLine(_) =>
        var n := PlainRun(ks);
        rd.para(Payloads(ks[..n])) + Blocks(ks[n..], rd)
  }

  function PlainLines(p: seq<string>): (r: seq<LineKind>)
  {
    seq(|p|, i requires 0 <= i < |p| => PlainLine(p[i]))
  }

  function ItemLines(l: seq<string>): (r: seq<LineKind>)
  {
    seq(|l|, i requires 0 <= i < |l| => ItemLine(l[i]))
  }

  /** The lines still sitting in the builder's buffers. */
  function Pending(b: Builder): seq<LineKind>
  {
    PlainLines(b.para) + ItemLines(b.list)
  }

  lemma {:induction false} PlainRunOf(p: seq<string>, ks: seq<LineKind>)
    requires ks == [] || !ks[0].PlainLine?
    ensures PlainRun(PlainLines(p) + ks) == |p|
    decreases |p|
  {
    if p != [] {
      PlainRunOf(p[1..], ks);
      assert (PlainLines(p) + ks)[1..] == PlainLines(p[1..]) + ks;
    } else {
      assert PlainLines(p) + ks == ks;
    }
  }

  lemma {:induction false} ItemRunOf(l: seq<string>, ks: seq<LineKind>)
    requires ks == [] || !ks[0].ItemLine?
    ensures ItemRun(ItemLines(l) + ks) == |l|
    decreases |l|
  {
    if l != [] {
      ItemRunOf(l[1..], ks);
      assert (ItemLines(l) + ks)[1..] == ItemLines(l[1..]) + ks;
    } else {
      assert ItemLines(l) + ks == ks;
    }
  }

  /** Paragraph lines up to a line of another kind make one paragraph (or none, if they are all blank). */
  lemma BlocksAfterPara(p: seq<string>, ks: seq<LineKind>, rd: Render)
    requires p != [] && (ks == [] || !ks[0].PlainLine?)
    ensures Blocks(PlainLines(p) + ks, rd) == rd.para(p) + Blocks(ks, rd)
  {
    var xs := PlainLines(p) + ks;
    PlainRunOf(p, ks);
    assert xs[..|p|] == PlainLines(p);
    assert Payloads(PlainLines(p)) == p;
    assert xs[|p|..] == ks;
  }

  /** Consecutive list lines up to a line of another kind merge into one list with one item per line. */
  lemma BlocksAfterList(l: seq<string>, ks: seq<LineKind>, rd: Render)
    requires l != [] && (ks == [] || !ks[0].ItemLine?)
    ensures Blocks(ItemLines(l) + ks, rd) == [BulletList(Items(l, rd))] + Blocks(ks, rd)
  {
    var xs := ItemLines(l) + ks;
    ItemRunOf(l, ks);
    assert xs[..|l|] == ItemLines(l);
    assert Payloads(ItemLines(l)) == l;
    assert xs[|l|..] == ks;
  }

  /** At most one buffer holds lines: a list line flushes the paragraph, a paragraph line the list. */
  predicate OneBuffer(b: Builder)
  {
    b.para == [] || b.list == []
  }

  /** A blank line, a heading or the end of the text. */
  predicate Boundary(ks: seq<LineKind>)
  {
    ks == [] || ks[0].Blank? || ks[0].HeadingLine?
  }

  lemma FlushBothPara(b: Builder, ks: seq<LineKind>, rd: Render)
    requires b.para != [] && b.list == [] && Boundary(ks)
    ensures FlushBoth(b, rd).nodes + Blocks(ks, rd) == b.nodes + Blocks(Pending(b) + ks, rd)
  {
    assert Pending(b) + ks == PlainLines(b.para) + ks;
    BlocksAfterPara(b.para, ks, rd);
  }

  lemma FlushBothList(b: Builder, ks: seq<LineKind>, rd: Render)
    requires b.para == [] && b.list != [] && Boundary(ks)
    ensures FlushBoth(b, rd).nodes + Blocks(ks, rd) == b.nodes + Blocks(Pending(b) + ks, rd)
  {
    assert Pending(b) + ks == ItemLines(b.list) + ks;
    BlocksAfterList(b.list, ks, rd);
  }

  /** Flushing both buffers before a blank, a heading or the end emits what the pending lines stand for. */
  lemma FlushBothBlocks(b: Builder, ks: seq<LineKind>, rd: Render)
    requires OneBuffer(b) && Boundary(ks)
    ensures FlushBoth(b, rd).nodes + Blocks(ks, rd) == b.nodes + Blocks(Pending(b) + ks, rd)
  {
    if b.para != [] {
      FlushBothPara(b, ks, rd);
    } else if b.list != [] {
      FlushBothList(b, ks, rd);
    } else {
      assert Pending(b) + ks == ks;
    }
  }

  /** Blocks emitted at a flush, then the rest: the same list however the concatenation is grouped. */
  lemma Regroup(done: seq<Block>, flushed: seq<Block>, later: seq<Block>, all: seq<Block>)
    requires all == flushed + later
    ensures (done + flushed) + later == done + all
  {
  }

  /** The builder after a list line that ends a pending paragraph. */
  lemma ItemStepAfterPara(b: Builder, x: string, rd: Render)
    requires b.para != [] && b.list == []
    ensures Step(b, ItemLine(x), rd) == Builder(b.nodes + rd.para(b.para), [], [x])
    ensures Pending(b) == PlainLines(b.para)
    ensures Pending(Step(b, ItemLine(x), rd)) == [ItemLine(x)]
  {
    assert PlainLines([]) == [] && ItemLines([]) == [];
  }

  /** A list line ends a pending paragraph. */
  lemma ItemAfterPara(b: Builder, x: string, rest: seq<LineKind>, rd: Render)
    requires b.para != [] && b.list == []
    ensures Step(b, ItemLine(x), rd).nodes + Blocks(Pending(Step(b, ItemLine(x), rd)) + rest, rd)
         == b.nodes + Blocks(Pending(b) + ([ItemLine(x)] + rest), rd)
  {
    var ks := [ItemLine(x)] + rest;
    ItemStepAfterPara(b, x, rd);
    BlocksAfterPara(b.para, ks, rd);
    Regroup(b.nodes, rd.para(b.para), Blocks(ks, rd), Blocks(PlainLines(b.para) + ks, rd));
  }

  /** A list line joins the pending list. */
  lemma ItemAfterItems(b: Builder, x: string, rest: seq<LineKind>, rd: Render)
    requires b.para == []
    ensures Step(b, ItemLine(x), rd).nodes + Blocks(Pending(Step(b, ItemLine(x), rd)) + rest, rd)
         == b.nodes + Blocks(Pending(b) + ([ItemLine(x)] + rest), rd)
  {
    var b' := Step(b, ItemLine(x), rd);
    assert b' == b.(list := b.list + [x]);
    assert Pending(b') == ItemLines(b.list) + [ItemLine(x)];
    assert Pending(b) == ItemLines(b.list);
    assert Pending(b') + rest == Pending(b) + ([ItemLine(x)] + rest);
  }

  /** The builder after a paragraph line that ends a pending list. */
  lemma PlainStepAfterList(b: Builder, t: string, rd: Render)
    requires b.list != [] && b.para == []
    ensures Step(b, PlainLine(t), rd) == Builder(b.nodes + [BulletList(Items(b.list, rd))], [t], [])
    ensures Pending(b) == ItemLines(b.list)
    ensures Pending(Step(b, PlainLine(t), rd)) == [PlainLine(t)]
  {
    assert PlainLines([]) == [] && ItemLines([]) == [];
  }

  /** A paragraph line ends a pending list. */
  lemma PlainAfterList(b: Builder, t: string, rest: seq<LineKind>, rd: Render)
    requires b.list != [] && b.para == []
    ensures Step(b, PlainLine(t), rd).nodes + Blocks(Pending(Step(b, PlainLine(t), rd)) + rest, rd)
         == b.nodes + Blocks(Pending(b) + ([PlainLine(t)] + rest), rd)
  {
    var ks := [PlainLine(t)] + rest;
    var l := BulletList(Items(b.list, rd));
    PlainStepAfterList(b, t, rd);
    BlocksAfterList(b.list, ks, rd);
    Regroup(b.nodes, [l], Blocks(ks, rd), Blocks(ItemLines(b.list) + ks, rd));
  }

  /** A paragraph line joins the pending paragraph. */
  lemma PlainAfterPlain(b: Builder, t: string, rest: seq<LineKind>, rd: Render)
    requires b.list == []
    ensures Step(b, PlainLine(t), rd).nodes + Blocks(Pending(Step(b, PlainLine(t), rd)) + rest, rd)
         == b.nodes + Blocks(Pending(b) + ([PlainLine(t)] + rest), rd)
  {
    var b' := Step(b, PlainLine(t), rd);
    assert b' == b.(para := b.para + [t]);
    assert Pending(b') == PlainLines(b.para) + [PlainLine(t)];
    assert Pending(b) == PlainLines(b.para);
    assert Pending(b') + rest == Pending(b) + ([PlainLine(t)] + rest);
  }

  /** A blank line flushes both buffers and emits nothing itself. */
  lemma BlankStep(b: Builder, rest: seq<LineKind>, rd: Render)
    requires OneBuffer(b)
    ensures Step(b, Blank, rd).nodes + Blocks(Pending(Step(b, Blank, rd)) + rest, rd)
         == b.nodes + Blocks(Pending(b) + ([Blank] + rest), rd)
  {
    var ks := [Blank] + rest;
    FlushBothBlocks(b, ks, rd);
    assert ks[1..] == rest;
    assert Pending(Step(b, Blank, rd)) + rest == rest;
  }

  /** A heading flushes both buffers and then emits itself. */
  lemma HeadingStep(b: Builder, level: nat, content: string, rest: seq<LineKind>, rd: Render)
    requires OneBuffer(b)
    ensures Step(b, HeadingLine(level, content), rd).nodes + Blocks(Pending(Step(b, HeadingLine(level, content), rd)) + rest, rd)
         == b.nodes + Blocks(Pending(b) + ([HeadingLine(level, content)] + rest), rd)
  {
    var ks := [HeadingLine(level, content)] + rest;
    FlushBothBlocks(b, ks, rd);
    var f, h := FlushBoth(b, rd), Heading(level, rd.inline(content));
    assert ks[1..] == rest;
    assert f.nodes + ([h] + Blocks(rest, rd)) == (f.nodes + [h]) + Blocks(rest, rd);
    var s := Step(b, HeadingLine(level, content), rd);
    assert s.nodes == f.nodes + [h];
    assert Pending(s) + rest == rest;
  }

  /** The buffered line loop, closed by the final flushes, emits the reference blocks of the pending and remaining lines. */
  lemma {:induction false} RunBlocks(b: Builder, ks: seq<LineKind>, rd: Render)
    requires OneBuffer(b)
    ensures FlushBoth(Run(b, ks, rd), rd).nodes == b.nodes + Blocks(Pending(b) + ks, rd)
    decreases |ks|
  {
    if ks == [] {
      FlushBothBlocks(b, ks, rd);
      assert Pending(b) + ks == Pending(b);
    } else {
      var k, rest := ks[0], ks[1..];
      assert ks == [k] + rest;
      var b' := Step(b, k, rd);
      if k.Blank? {
        BlankStep(b, rest, rd);
      } else if k.HeadingLine? {
        HeadingStep(b, k.level, k.content, rest, rd);
      } else if k.ItemLine? {
        if b.para != [] {
          ItemAfterPara(b, k.item, rest, rd);
        } else {
          ItemAfterItems(b, k.item, rest, rd);
        }
      } else {
        if b.list != [] {
          PlainAfterList(b, k.text, rest, rd);
        } else {
          PlainAfterPlain(b, k.text, rest, rd);
        }
      }
      assert OneBuffer(b');
      RunBlocks(b', rest, rd);
    }
  }

  /** Without pending lines, the loop and the final flushes emit exactly the reference blocks. */
  lemma RunFromEmpty(ks: seq<LineKind>, rd: Render)
    ensures FlushBoth(Run(Builder([], [], []), ks, rd), rd).nodes == Blocks(ks, rd)
  {
    var empty := Builder([], [], []);
    RunBlocks(empty, ks, rd);
    assert Pending(empty) + ks == ks;
  }

  /** `formatMarkdownImpl` gives `[]` for the empty text and otherwise the reference blocks of its classified lines. */
  lemma FormatIsBlocks(text: string)
    ensures Format(text) == if text == "" then [] else Blocks(Kinds(Lines(text)), Standard)
  {
    if text != "" {
      RunFromEmpty(Kinds(Lines(text)), Standard);
    }
  }

  /**
   * The blocks the page can show: `h1` to `h3`, a paragraph whose text is
   * non-empty and trimmed, a list with at least one item.
   */
  predicate WellFormedBlock(blk: Block)
  {
    match blk
    case Heading(level, _) => 1 <= level <= 3
    case Paragraph(children) => Trimmed(Flatten(children))
    case BulletList(items) => items != []
  }

  /** A non-empty string with no whitespace at either end. */
  predicate Trimmed(t: string)
  {
    t != "" && !IsSpace(t[0]) && !IsSpace(t[|t| - 1])
  }

  /** What `Classify` promises about a heading's level. */
  predicate ClassifiedKind(k: LineKind)
  {
    k.HeadingLine? ==> 1 <= k.level <= 3
  }

  /** A paragraph buffer gives one paragraph, or none when its joined text is all whitespace. */
  lemma ParagraphsCount(para: seq<string>, inline: string -> seq<Inline>)
    ensures |Paragraphs(para, inline)| <= 1
    ensures Paragraphs(para, inline) == [] <==> IsBlank(Join(para, ' '))
  {
  }

  /** The paragraph a buffer gives renders back to the buffer's trimmed text. */
  lemma ParaBlockText(para: seq<string>)
    requires ParaBlock(para) != []
    ensures ParaBlock(para) == [Paragraph(Parse(Trim(Join(para, ' '))))]
    ensures Flatten(ParaBlock(para)[0].children) == Trim(Join(para, ' '))
  {
    ParseRoundTrip(Trim(Join(para, ' ')));
  }

  /** An inline parser that renders a trimmed text to a trimmed text. */
  ghost predicate KeepsTrimmed(inline: string -> seq<Inline>)
  {
    forall t :: Trimmed(t) ==> Trimmed(Flatten(inline(t)))
  }

  /** `parseInline` keeps a trimmed text trimmed, since it renders back to that text. */
  lemma ParseKeepsTrimmed()
    ensures KeepsTrimmed(Parse)
  {
    forall t | Trimmed(t)
      ensures Trimmed(Flatten(Parse(t)))
    {
      ParseRoundTrip(t);
    }
  }

  /** Every block of `bs` is well formed. */
  predicate AllWellFormed(bs: seq<Block>)
  {
    forall i :: 0 <= i < |bs| ==> WellFormedBlock(bs[i])
  }

  lemma ParagraphWellFormed(para: seq<string>, inline: string -> seq<Inline>)
    requires KeepsTrimmed(inline)
    ensures AllWellFormed(Paragraphs(para, inline))
  {
  }

  /** The renderer turns every paragraph buffer into well-formed blocks. */
  ghost predicate ParagraphsWellFormed(rd: Render)
  {
    forall p :: AllWellFormed(rd.para(p))
  }

  lemma StandardParagraphs()
    ensures ParagraphsWellFormed(Standard)
  {
    ParseKeepsTrimmed();
    forall p
      ensures AllWellFormed(Standard.para(p))
    {
      ParagraphWellFormed(p, Parse);
    }
  }

  lemma {:induction false} BlocksWellFormed(ks: seq<LineKind>, rd: Render)
    requires ParagraphsWellFormed(rd)
    requires forall i :: 0 <= i < |ks| ==> ClassifiedKind(ks[i])
    ensures AllWellFormed(Blocks(ks, rd))
    decreases |ks|
  {
    if ks != [] {
      match ks[0]
      case Blank =>
        BlocksWellFormed(ks[1..], rd);
      case HeadingLine(_, _) =>
        BlocksWellFormed(ks[1..], rd);
      case ItemLine(_) =>
        var n := ItemRun(ks);
        BlocksWellFormed(ks[n..], rd);
      case PlainLine(_) =>
        var n := PlainRun(ks);
        assert AllWellFormed(rd.para(Payloads(ks[..n])));
        BlocksWellFormed(ks[n..], rd);
    }
  }

  lemma KindsClassified(lines: seq<string>)
    ensures forall i :: 0 <= i < |Kinds(lines)| ==> ClassifiedKind(Kinds(lines)[i])
  {
  }

  /** Every block `formatMarkdownImpl` emits is well formed. */
  lemma FormatWellFormed(text: string)
    ensures AllWellFormed(Format(text))
  {
    FormatIsBlocks(text);
    if text != "" {
      var ks := Kinds(Lines(text));
      KindsClassified(Lines(text));
      StandardParagraphs();
      BlocksWellFormed(ks, Standard);
    }
  }

  /** A line is skipped exactly when it is all whitespace. */
  lemma ClassifyBlank(raw: string)
    ensures Classify(raw) == Blank <==> IsBlank(raw)
  {
    var e := TrimEnd(raw);
    TrimEndPrefix(raw);
    if IsBlank(e) {
      forall i | 0 <= i < |raw|
        ensures IsSpace(raw[i])
      {
        if i < |e| {
          assert raw[i] == e[i];
        }
      }
    }
  }

  /** A line may only be cut by `.` at a terminator other than `\n`; such a line stays whole otherwise. */
  lemma SuffixDotMatchesAll(t: string, g: nat)
    requires g <= |t| && DotMatchesAll(t)
    ensures DotMatchesAll(TrimStart(t[g..]))
  {
    var u := t[g..];
    var r := TrimStart(u);
    forall i | 0 <= i < |r|
      ensures !IsLineTerminator(r[i])
    {
      TrimStartAt(u, i);
      assert u[|u| - |r| + i] == t[g + |u| - |r| + i];
    }
  }

  /** `#` at the start and no line terminator after it: the heading pattern matches, with level `min(#count, 3)` and the trimmed remainder. */
  lemma HeadingMatchFound(t: string)
    requires t != "" && t[0] == '#' && DotMatchesAll(t)
    ensures var g := HashCount(t); HeadingMatch(t) == Some(HeadingLine(if g < 3 then g else 3, Trim(TrimStart(t[g..]))))
  {
    var g := HashCount(t);
    SuffixDotMatchesAll(t, g);
    HeadingMatchWhen(t, g);
  }

  lemma HeadingMatchWhen(t: string, g: nat)
    requires t != "" && t[0] == '#'
    requires g == HashCount(t)
    requires DotMatchesAll(TrimStart(t[g..]))
    ensures HeadingMatch(t) == Some(HeadingLine(if g < 3 then g else 3, Trim(TrimStart(t[g..]))))
  {
  }

  /**
   * A trimmed line starting with `#` (and no stray line terminator) is a heading of level
   * `min(#count, 3)` whose content is the trimmed remainder: headings take priority over
   * list items and paragraphs.
   */
  lemma KindOfHeading(t: string)
    requires t != "" && t[0] == '#' && DotMatchesAll(t)
    ensures var g := HashCount(t); KindOf(t) == HeadingLine(if g < 3 then g else 3, Trim(TrimStart(t[g..])))
  {
    HeadingMatchFound(t);
  }

  /** `-`, `*` or `+` then whitespace, and no line terminator: the bullet pattern matches and captures the rest. */
  lemma BulletMatchFound(t: string)
    requires |t| >= 2 && (t[0] == '-' || t[0] == '*' || t[0] == '+') && IsSpace(t[1]) && DotMatchesAll(t)
    ensures BulletMatch(t) == Some(TrimStart(t[1..]))
  {
    SuffixDotMatchesAll(t, 1);
  }

  /** A line not starting with `#` is no heading. */
  lemma NoHeadingWithoutHash(t: string)
    requires t == "" || t[0] != '#'
    ensures HashCount(t) == 0 && HeadingMatch(t).None?
  {
  }

  lemma KindOfItemWhen(t: string, x: string)
    requires HeadingMatch(t).None? && ItemMatch(t) == Some(x)
    ensures KindOf(t) == ItemLine(x)
  {
  }

  /** A trimmed line `-`, `*` or `+` then whitespace is a list item carrying the rest after that whitespace. */
  lemma KindOfBullet(t: string)
    requires |t| >= 2 && (t[0] == '-' || t[0] == '*' || t[0] == '+') && IsSpace(t[1]) && DotMatchesAll(t)
    ensures KindOf(t) == ItemLine(TrimStart(t[1..]))
  {
    BulletMatchFound(t);
    NoHeadingWithoutHash(t);
    KindOfItemWhen(t, TrimStart(t[1..]));
  }

  /** Digits, `.`, whitespace, and no line terminator: the numbered-item pattern matches and captures the rest. */
  lemma NumberedMatchFound(t: string)
    requires NumberedPrefix(t) && DotMatchesAll(t)
    ensures NumberedMatch(t) == Some(TrimStart(t[DigitRun(t) + 1..]))
  {
    var g := DigitRun(t) + 1;
    SuffixDotMatchesAll(t, g);
    NumberedMatchWhen(t, g);
  }

  lemma NumberedMatchWhen(t: string, g: nat)
    requires NumberedPrefix(t) && g == DigitRun(t) + 1
    requires DotMatchesAll(TrimStart(t[g..]))
    ensures NumberedMatch(t) == Some(TrimStart(t[g..]))
  {
  }

  /** A line starting with a digit is neither a heading nor a bullet item. */
  lemma DigitStartNoBullet(t: string)
    requires DigitRun(t) >= 1
    ensures HeadingMatch(t).None? && BulletMatch(t).None? && ItemMatch(t) == NumberedMatch(t)
  {
    assert '0' <= t[0] <= '9';
    NoHeadingWithoutHash(t);
  }

  /** A trimmed line `N.` then whitespace is a list item carrying the rest after that whitespace. */
  lemma KindOfNumbered(t: string)
    requires NumberedPrefix(t) && DotMatchesAll(t)
    ensures KindOf(t) == ItemLine(TrimStart(t[DigitRun(t) + 1..]))
  {
    NumberedMatchFound(t);
    DigitStartNoBullet(t);
    KindOfItemWhen(t, TrimStart(t[DigitRun(t) + 1..]));
  }
}

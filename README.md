# fate_wechat client core in Dafny

This project models the logic of the WeChat mini-program client of a
fortune-reading assistant. It covers these parts:

- **the chat text pipeline** (`miniprogram/pages/chat/chat.ts`):
  - `normalizeReply`, which cleans a model reply;
  - `parseInline`, which splits one line into plain text, `**bold**` spans and `【bracketed】` highlight spans;
  - `formatMarkdownImpl`, which groups lines into headings, paragraphs and bullet lists;
  - the three transcript operations `appendUser`, `appendAssistant` and `replaceLastAssistant`;
  - the `onSend` turn, which appends the user's text and a "thinking" placeholder, then replaces the placeholder with the reply or an apology.
- **the streaming-socket controller** `ChatWebSocket` (`miniprogram/utils/websocket.ts`):
  - the handshake headers;
  - the classification of inbound frames (`[DONE]`, `[ERROR]…`, JSON);
  - the reconnect counter: at most three reconnects, with a delay of 1000 ms × the attempt number;
  - `close()`, which resets the counter.
- **the request helper** (`miniprogram/utils/request.ts`):
  - joining the base address and the path;
  - the merged request headers;
  - the settling of the promise: the payload on 2xx, with a fallback that JSON-parses string bodies; `HTTP <code>: …` on other statuses; `Network error: …` on transport failure.
- **the history page** (`miniprogram/pages/history/history.ts`):
  - the relative-date label;
  - `saveToHistory`, which skips a birth already listed, puts a new record first and keeps at most twenty;
  - the "current" record built by `loadHistory`.
- **the result page** (`miniprogram/pages/result/index.ts`):
  - the pillar table, the transpose of the four pillars;
  - the da-yun (ten-year luck period) chips;
  - the `onLoad` guard.

Code made of expressions becomes datatypes and functions; `parseInline`, for example, is `InlineMarkup.Parse`.

Code that loops or updates state becomes imperative Dafny:
- each loop is a method with invariants, proved equal to its specification function (`ReplyNormalizer.CollapseLines`, `InlineMarkup.WalkMarkers`, `BlockFormatter.LineLoop`);
- each page or controller whose fields change is a class (`ChatTranscript.ChatPage`, `SocketSession.ChatWebSocket`, `ResultPage.ResultView`).

Effects on the outside world are returned as values, and what the code reads from outside is passed in as a parameter:
- **returned as values:**
  - the request `onSend` issues;
  - the socket task `close()` closes;
  - the reconnect delay;
  - the history list written to storage.
- **passed in as parameters:**
  - values read from storage;
  - `JSON.parse` and `JSON.stringify`, as functions;
  - the clock, as a millisecond difference.

Files:
- `wrappers.dfy`: `Option`, `Result`.
- `strings.dfy`: the JavaScript string primitives the core relies on:
  - `trim`, `trimStart` and `trimEnd` (JavaScript whitespace);
  - `split` and `join`;
  - `replace(/\r\n/g, "\n")`;
  - the decimal rendering of integers.
- `normalize.dfy`: `normalizeReply`.
- `inline.dfy`: `parseInline`, with the lazy regular-expression matches written out as closed forms.
- `markdown.dfy`:
  - `formatMarkdownImpl`, as a buffer-carrying builder and its loop;
  - a buffer-free reference definition `Blocks`, with a proof that the builder computes it.
- `chat_page.dfy`: the chat page's transcript and `onSend`.
- `websocket.dfy`: `ChatWebSocket`.
- `request.dfy`: `request`.
- `history.dfy`: the history page.
- `result_page.dfy`: the result page.

## Code versus the design description

Where the written design of the system and the code differ, the model follows the code.

- **`normalizeReply` is not idempotent.**
  - The design states that `normalize(normalize(x)) === normalize(x)` for every input. That holds only for texts without a carriage return (`ReplyNormalizer.NormalizeIdempotent`).
  - `"a\r\r\nb"` normalizes to `"a\r\nb"`, and a second pass gives `"a\nb"` (`ReplyNormalizer.NormalizeNotIdempotentWithCarriageReturn`). The first pass replaces only the `\r\n` pair, which leaves a lone `\r` in front of the new line break.
  - The chat page normalizes a reply twice, once in the request's success handler and once in `replaceLastAssistant`. The handler replaces `\r\n` before its pass, so `"a\r\r\nb"` is already settled there and the second pass changes nothing (`ChatTranscript.ReplyOneLoneReturn`).
  - The two passes first differ on two lone `\r` before a `\r\n`. The handler turns `"a\r\r\r\nb"` into `"a\r\nb"`, and `replaceLastAssistant` then shows `"a\nb"` (`ChatTranscript.ReplyTwoLoneReturns`).
- **Reconnection.**
  - The design says reconnects happen only during the connect phase. The code reconnects after any transport error of the socket task.
  - The code reconnects up to three times, resending the same payload, and the counter is reset only by `close()`.
- **Inline markup.** The design describes four kinds of span. The code recognizes two: `**bold**` and `【…】`.
- **No event types or content gate in the code.**
  - The design describes typed `meta` and `text` events, a content gate that truncates messages for unauthenticated viewers, and greeting flags.
  - None of these exists in this code. The socket delivers whatever `JSON.parse` yields, and the chat page uses the non-streaming request.

## Model

| member | source | states |
|---|---|---|
| Strings.Trim | miniprogram/pages/chat/chat.ts:181 | `trim()` yields the empty string exactly when the input is all JavaScript whitespace; otherwise its first and last characters are not whitespace |
| Strings.TrimStartSuffix | miniprogram/pages/chat/chat.ts:190 | `trimStart` removes only whitespace and keeps the rest of the string as a suffix |
| Strings.TrimEndPrefix | miniprogram/pages/chat/chat.ts:180 | `replace(/\s+$/, "")` removes only trailing whitespace and keeps the rest as a prefix |
| Strings.TrimmedIsFixed | miniprogram/pages/chat/chat.ts:173 | trimming an already trimmed string changes nothing (list items are trimmed again before parsing) |
| Strings.Split | miniprogram/pages/chat/chat.ts:54 | `split("\n")` returns at least one piece, no piece contains the separator, and joining the pieces gives the input back |
| Strings.SplitJoin | miniprogram/pages/chat/chat.ts:74 | splitting a join of separator-free pieces gives the pieces back |
| Strings.ReplaceCrlf | miniprogram/pages/chat/chat.ts:51 | `replace(/\r\n/g, "\n")` never lengthens a text, adds no new characters, and leaves a text without `\r` unchanged |
| Strings.IntToString | miniprogram/pages/result/index.ts:71 | the decimal rendering of an integer is non-empty and starts with `-` exactly for negative numbers |
| Strings.NatToStringRoundTrip | miniprogram/pages/history/history.ts:123 | the digits of a rendered natural number parse back to that number |
| ReplyNormalizer.StripLeading | miniprogram/pages/chat/chat.ts:56 | the per-line strip removes only BOM, ideographic space, NBSP, en/em/thin space, space and tab from the front; what remains starts with none of them |
| ReplyNormalizer.MapOddSpaces | miniprogram/pages/chat/chat.ts:52-53 | the two space rewrites, characterized by `MapOddSpacesSpec` |
| ReplyNormalizer.MapOddSpacesSpec | miniprogram/pages/chat/chat.ts:52-53 | afterwards no NBSP, en, em or thin space remains, each became a plain space, every other character and the length are kept, and a second rewrite changes nothing |
| ReplyNormalizer.RawLines | miniprogram/pages/chat/chat.ts:50-57 | the `\r\n` rewrite, the space rewrites, the split on `\n` and the per-line strip; characterized by `RawLinesHaveNoBreak`, `NormalizeShape` and `TwoRawLines` |
| ReplyNormalizer.DropLeadingBlank | miniprogram/pages/chat/chat.ts:59-61 | the lines from `start` on: a suffix of the lines, everything dropped is blank, and the first line kept is not blank |
| ReplyNormalizer.Collapse | miniprogram/pages/chat/chat.ts:63-72 | the collapsed list never starts with a blank entry, every blank entry is `""`, and no two `""` entries are adjacent |
| ReplyNormalizer.Normalize | miniprogram/pages/chat/chat.ts:48 | the empty text is returned unchanged |
| ReplyNormalizer.NormalizeReply | miniprogram/pages/chat/chat.ts:47-75 | the imperative `normalizeReply` (mapping, split, start loop, collapse loop, join) computes `Normalize` |
| ReplyNormalizer.SkipLeadingBlank | miniprogram/pages/chat/chat.ts:59-61 | the `while` loop stops at the index where `DropLeadingBlank` begins |
| ReplyNormalizer.CollapseLines | miniprogram/pages/chat/chat.ts:63-72 | the `for` loop over `cleaned` builds exactly `Collapse(cleaned)` |
| ReplyNormalizer.CollapseKeepsNonBlank | miniprogram/pages/chat/chat.ts:63-72 | collapsing keeps every non-blank line, in order, and adds none |
| ReplyNormalizer.CleanedKeepsNonBlank | miniprogram/pages/chat/chat.ts:59-72 | dropping leading blanks and collapsing together keep the non-blank lines in order |
| ReplyNormalizer.RawLinesHaveNoBreak | miniprogram/pages/chat/chat.ts:50-57 | no raw line contains a line feed |
| ReplyNormalizer.CleanedHasNoBreak | miniprogram/pages/chat/chat.ts:59-72 | the cleaned and collapsed lines contain no line feed when the raw lines contain none |
| ReplyNormalizer.CollapseEntries | miniprogram/pages/chat/chat.ts:63-72 | every collapsed entry is `""` or one of the input lines |
| ReplyNormalizer.NormalizeShape | miniprogram/pages/chat/chat.ts:47-75 | a non-empty reply is the `\n`-join of lines with no line feed inside; the first line is not blank, every blank line is empty, blank lines never repeat, and the non-blank lines are exactly those of the input, in order |
| ReplyNormalizer.CollapseFixed | miniprogram/pages/chat/chat.ts:63-72 | an already collapsed list is its own collapse |
| ReplyNormalizer.NormalizeSettledLines | miniprogram/pages/chat/chat.ts:47-75 | a text made of already clean lines is left unchanged |
| ReplyNormalizer.NormalizeIdempotent | miniprogram/pages/chat/chat.ts:47-75 | for texts without a carriage return, normalizing twice equals normalizing once |
| ReplyNormalizer.NormalizeNotIdempotentWithCarriageReturn | miniprogram/pages/chat/chat.ts:51 | `"a\r\r\nb"` normalizes to `"a\r\nb"` and then to `"a\nb"`: idempotence fails once a lone `\r` precedes `\r\n` |
| InlineMarkup.DelimitersAgree | miniprogram/pages/chat/chat.ts:81-82 | the two delimiter pairs `**`/`**` and `【`/`】` are recognized by their exact texts |
| InlineMarkup.OccursSlice | miniprogram/pages/chat/chat.ts:92 | a match's slice of the line is the opening delimiter, the content, then the closing delimiter |
| InlineMarkup.CloseFrom | miniprogram/pages/chat/chat.ts:81-82 | the lazy `.+?` stops at the first closing delimiter and never crosses a line terminator |
| InlineMarkup.MatchAt | miniprogram/pages/chat/chat.ts:81-82 | a match at `i` starts at `i`, ends within the line and has the requested kind |
| InlineMarkup.MatchAtOccurs | miniprogram/pages/chat/chat.ts:81-82 | a match found at `i` is a real occurrence: delimiters at both ends and a non-empty, terminator-free content |
| InlineMarkup.MatchAtFinds | miniprogram/pages/chat/chat.ts:81-82 | wherever an occurrence starts, the regular expression matches there, ending no later than that occurrence |
| InlineMarkup.Exec | miniprogram/pages/chat/chat.ts:91 | `exec` from `lastIndex` returns a match at or after `lastIndex`, within the line |
| InlineMarkup.ExecFound | miniprogram/pages/chat/chat.ts:91-93 | the match `exec` returns is the match at its index |
| InlineMarkup.ExecFirst | miniprogram/pages/chat/chat.ts:91-93 | `exec` returns the leftmost match; `null` means no match from `lastIndex` on |
| InlineMarkup.ExecNoneIff | miniprogram/pages/chat/chat.ts:91-99 | the first `exec` returns `null` exactly when the line has no match anywhere |
| InlineMarkup.AllMatches | miniprogram/pages/chat/chat.ts:91-93 | the global match loop collects matches at or after its starting point |
| InlineMarkup.AllMatchesSpec | miniprogram/pages/chat/chat.ts:91-99 | every collected match is an occurrence of its kind, and successive matches do not overlap |
| InlineMarkup.CollectMatches | miniprogram/pages/chat/chat.ts:91-93 | the `while (exec)` loop appends exactly the global matches to the marker list |
| InlineMarkup.InsertByIndex | miniprogram/pages/chat/chat.ts:102 | inserting into a sorted list keeps it sorted by index and adds exactly the one marker |
| InlineMarkup.SortByIndex | miniprogram/pages/chat/chat.ts:102 | the sort returns a permutation of the markers, sorted by index |
| InlineMarkup.Markers | miniprogram/pages/chat/chat.ts:89-102 | the marker list is a permutation of the bold matches followed by the bracket matches, sorted by index |
| InlineMarkup.MarkersOccur | miniprogram/pages/chat/chat.ts:89-102 | every marker is an occurrence in the line |
| InlineMarkup.MarkersOrdered | miniprogram/pages/chat/chat.ts:102 | no marker ends before it starts |
| InlineMarkup.MarkersInBounds | miniprogram/pages/chat/chat.ts:89-98 | each marker lies within the line |
| InlineMarkup.Parse | miniprogram/pages/chat/chat.ts:136-138 | `parseInline` never returns an empty list |
| InlineMarkup.ParseInline | miniprogram/pages/chat/chat.ts:78-141 | the imperative `parseInline` computes `Parse` |
| InlineMarkup.CollectMarkers | miniprogram/pages/chat/chat.ts:89-102 | the two match loops and the sort compute `Markers` |
| InlineMarkup.WalkMarkers | miniprogram/pages/chat/chat.ts:105-129 | the cursor loop over the sorted markers computes `Walk` |
| InlineMarkup.WalkStep | miniprogram/pages/chat/chat.ts:106-128 | one iteration of the cursor loop; characterized by `WalkStepRoundTrip` (the nodes keep spelling the line up to the cursor) and `WalkStepSpans` (the marker's node is added exactly when the marker is not skipped) |
| InlineMarkup.Walk | miniprogram/pages/chat/chat.ts:105-129 | the cursor loop over the sorted markers; characterized by `WalkRoundTrip`, `WalkSpans` and `WalkGood` |
| InlineMarkup.Gap | miniprogram/pages/chat/chat.ts:110-112 | the text node before a marker, present only when the marker starts after the cursor; characterized by `GapRoundTrip` |
| InlineMarkup.Finish | miniprogram/pages/chat/chat.ts:131-138 | the trailing text and the whole-line fallback; characterized by `FinishRoundTrip` and `FinishSpans` |
| InlineMarkup.FlattenSnoc | miniprogram/pages/chat/chat.ts:111-126 | the text of a node list grows by the text of each node pushed |
| InlineMarkup.WalkStepRoundTrip | miniprogram/pages/chat/chat.ts:106-128 | one iteration preserves "the nodes so far spell the line up to `lastIndex`" |
| InlineMarkup.NodeRoundTrip | miniprogram/pages/chat/chat.ts:115-127 | a strong or highlight node, written back with its delimiters, is the slice it came from |
| InlineMarkup.GapRoundTrip | miniprogram/pages/chat/chat.ts:110-112 | the plain-text gap node extends the spelled prefix to the marker's index |
| InlineMarkup.WalkRoundTrip | miniprogram/pages/chat/chat.ts:105-129 | the whole cursor loop preserves that invariant |
| InlineMarkup.FinishRoundTrip | miniprogram/pages/chat/chat.ts:132-138 | the trailing text and the fallback complete the line |
| InlineMarkup.ParseRoundTrip | miniprogram/pages/chat/chat.ts:78-141 | writing the nodes back with their delimiters gives the input line: nothing is lost, duplicated or reordered |
| InlineMarkup.AcceptedSpec | miniprogram/pages/chat/chat.ts:106-107 | the markers the loop keeps (skipping any marker that starts before `lastIndex`) are markers of the list, start at or after the initial `lastIndex`, and do not overlap |
| InlineMarkup.Nodes | miniprogram/pages/chat/chat.ts:115-127 | one span node per kept marker, in order |
| InlineMarkup.SpansSnoc | miniprogram/pages/chat/chat.ts:111-126 | pushing a text node adds no span; pushing a span adds that span |
| InlineMarkup.SpansContain | miniprogram/pages/chat/chat.ts:106-129 | every span node is among the spans of its list |
| InlineMarkup.WalkStepSpans | miniprogram/pages/chat/chat.ts:106-128 | one iteration adds the marker's node exactly when the marker is not skipped |
| InlineMarkup.NodesCons | miniprogram/pages/chat/chat.ts:106-128 | the node list of a marker list is the first marker's node followed by the rest's |
| InlineMarkup.WalkSpans | miniprogram/pages/chat/chat.ts:105-129 | the loop's span nodes are exactly the nodes of the kept markers |
| InlineMarkup.ParseSpans | miniprogram/pages/chat/chat.ts:105-138 | the span nodes of `parseInline` are exactly the kept markers' nodes, in order |
| InlineMarkup.AcceptedOccur | miniprogram/pages/chat/chat.ts:91-107 | every kept marker is an occurrence in the line |
| InlineMarkup.ParseSpanContent | miniprogram/pages/chat/chat.ts:118-125 | every strong or highlight node holds a non-empty content without line terminators |
| InlineMarkup.AppendText | miniprogram/pages/chat/chat.ts:111 | pushing a non-empty text after a span or at the start keeps the children well formed |
| InlineMarkup.AppendSpan | miniprogram/pages/chat/chat.ts:115-127 | pushing a span keeps the children well formed |
| InlineMarkup.WalkGood | miniprogram/pages/chat/chat.ts:105-129 | the loop only pushes non-empty text nodes and never two text nodes in a row |
| InlineMarkup.ParseShape | miniprogram/pages/chat/chat.ts:105-138 | for a non-empty line no text node is empty, and no two text nodes are adjacent |
| InlineMarkup.MarkersEmpty | miniprogram/pages/chat/chat.ts:89-102 | the marker list is empty exactly when both regular expressions find nothing |
| InlineMarkup.NoMatchNoMarkers | miniprogram/pages/chat/chat.ts:89-102 | no markers exactly when neither kind of span occurs anywhere in the line |
| InlineMarkup.FirstMarkerAccepted | miniprogram/pages/chat/chat.ts:106-107 | the first marker is never skipped |
| InlineMarkup.ParseSingleText | miniprogram/pages/chat/chat.ts:132-138 | the result is a single text node holding the whole line exactly when the line has no span |
| BlockFormatter.HashRun | miniprogram/pages/chat/chat.ts:190 | the run of leading `#` characters |
| BlockFormatter.DigitRun | miniprogram/pages/chat/chat.ts:206 | the run of leading decimal digits |
| BlockFormatter.HashCount | miniprogram/pages/chat/chat.ts:190 | `#{1,6}` captures at most six `#`, and at least one when the line starts with `#` |
| BlockFormatter.HeadingMatch | miniprogram/pages/chat/chat.ts:190-194 | a heading match has level `min(#count, 3)`, between 1 and 3 |
| BlockFormatter.KindOf | miniprogram/pages/chat/chat.ts:189-216 | a non-blank line is a heading, a list item or a paragraph line; a paragraph line keeps the trimmed text |
| BlockFormatter.Classify | miniprogram/pages/chat/chat.ts:180-187 | a paragraph line is non-empty and trimmed at both ends; heading levels lie between 1 and 3 |
| BlockFormatter.Items | miniprogram/pages/chat/chat.ts:171-174 | one `li` per buffered item |
| BlockFormatter.Kinds | miniprogram/pages/chat/chat.ts:179-181 | each line of the text is classified on its own |
| BlockFormatter.FlushParaBuf | miniprogram/pages/chat/chat.ts:153-165 | `flushPara` emits at most one paragraph and empties the paragraph buffer |
| BlockFormatter.FlushPara | miniprogram/pages/chat/chat.ts:153-165 | `flushPara` on the builder; the loop's `FlushParaBuf` is proved equal to it, and `FlushBothPara` relates it to the reference blocks |
| BlockFormatter.FlushList | miniprogram/pages/chat/chat.ts:167-177 | `flushList` on the builder; the loop's `FlushListBuf` is proved equal to it, and `FlushBothList` relates it to the reference blocks |
| BlockFormatter.FlushBoth | miniprogram/pages/chat/chat.ts:184-185 | the paragraph flush, then the list flush; characterized by `FlushBothPara`, `FlushBothList` and `FlushBothBlocks` |
| BlockFormatter.FlushListBuf | miniprogram/pages/chat/chat.ts:167-177 | `flushList` emits at most one `ul` and resets the list buffer |
| BlockFormatter.StepLine | miniprogram/pages/chat/chat.ts:183-216 | one loop iteration: blank, heading, item or paragraph line, with the flushes of the code |
| BlockFormatter.Step | miniprogram/pages/chat/chat.ts:180-216 | one iteration on the builder; `StepLine` is proved equal to it, and `BlankStep`, `HeadingStep`, `ItemAfterPara`, `ItemAfterItems`, `PlainAfterList` and `PlainAfterPlain` state what each kind of line does |
| BlockFormatter.Run | miniprogram/pages/chat/chat.ts:179-217 | the line loop on the builder; `LineLoop` is proved equal to it, and `RunBlocks` relates it to the reference blocks |
| BlockFormatter.RunUnroll | miniprogram/pages/chat/chat.ts:179-217 | the run over the remaining lines is one step followed by the run over the rest |
| BlockFormatter.LineLoop | miniprogram/pages/chat/chat.ts:179-217 | the `for` loop over the lines computes `Run` |
| BlockFormatter.FormatMarkdown | miniprogram/pages/chat/chat.ts:144-223 | the imperative `formatMarkdownImpl` computes `Format` |
| BlockFormatter.Format | miniprogram/pages/chat/chat.ts:144-223 | the functional form of `formatMarkdownImpl`; characterized by `FormatIsBlocks` (equal to the buffer-free reference) and `FormatWellFormed` |
| BlockFormatter.Payloads | miniprogram/pages/chat/chat.ts:210-216 | what a buffered line contributes to its block |
| BlockFormatter.PlainRun | miniprogram/pages/chat/chat.ts:215-216 | the run of consecutive paragraph lines |
| BlockFormatter.ItemRun | miniprogram/pages/chat/chat.ts:207-211 | the run of consecutive list items |
| BlockFormatter.PlainRunOf | miniprogram/pages/chat/chat.ts:215-216 | the paragraph run of `p` lines followed by a non-paragraph line is exactly `p` long |
| BlockFormatter.ItemRunOf | miniprogram/pages/chat/chat.ts:207-211 | the item run of `l` items followed by a non-item line is exactly `l` long |
| BlockFormatter.BlocksAfterPara | miniprogram/pages/chat/chat.ts:215-216 | a maximal run of paragraph lines yields one (possibly empty) paragraph before the rest |
| BlockFormatter.BlocksAfterList | miniprogram/pages/chat/chat.ts:207-211 | a maximal run of items yields one `ul` before the rest |
| BlockFormatter.FlushBothPara | miniprogram/pages/chat/chat.ts:184-185 | at a block boundary, flushing a pending paragraph emits what the reference definition emits for it |
| BlockFormatter.FlushBothList | miniprogram/pages/chat/chat.ts:184-185 | at a block boundary, flushing a pending list emits what the reference definition emits for it |
| BlockFormatter.FlushBothBlocks | miniprogram/pages/chat/chat.ts:219-220 | flushing both buffers at a boundary agrees with the reference definition |
| BlockFormatter.ItemAfterPara | miniprogram/pages/chat/chat.ts:207-211 | an item after paragraph lines flushes the paragraph and opens a new list, as the reference definition does |
| BlockFormatter.ItemAfterItems | miniprogram/pages/chat/chat.ts:209-210 | an item after items joins the same list |
| BlockFormatter.PlainAfterList | miniprogram/pages/chat/chat.ts:215-216 | a paragraph line after items flushes the list first |
| BlockFormatter.PlainAfterPlain | miniprogram/pages/chat/chat.ts:216 | a paragraph line after paragraph lines joins the same paragraph |
| BlockFormatter.BlankStep | miniprogram/pages/chat/chat.ts:183-187 | a blank line ends whichever block is pending |
| BlockFormatter.HeadingStep | miniprogram/pages/chat/chat.ts:191-201 | a heading flushes the pending block, then emits itself |
| BlockFormatter.RunBlocks | miniprogram/pages/chat/chat.ts:179-220 | from any state with at most one pending buffer, the loop plus the final flushes emit the reference blocks of everything pending and remaining |
| BlockFormatter.RunFromEmpty | miniprogram/pages/chat/chat.ts:179-220 | from the initial state the loop and the final flushes emit exactly `Blocks` |
| BlockFormatter.FormatIsBlocks | miniprogram/pages/chat/chat.ts:144-223 | `formatMarkdownImpl` equals the buffer-free reference definition: headings on their own, maximal runs of items as one list, maximal runs of paragraph lines as one paragraph, blank lines as separators |
| BlockFormatter.ParagraphsCount | miniprogram/pages/chat/chat.ts:155-159 | a paragraph flush emits at most one block, and none exactly when the joined text is blank |
| BlockFormatter.ParaBlockText | miniprogram/pages/chat/chat.ts:155-163 | an emitted paragraph holds the inline parse of the space-joined, trimmed lines, and its nodes spell that text |
| BlockFormatter.ParseKeepsTrimmed | miniprogram/pages/chat/chat.ts:162 | `parseInline` of trimmed text spells trimmed text |
| BlockFormatter.ParagraphWellFormed | miniprogram/pages/chat/chat.ts:153-165 | paragraphs are non-empty and spell trimmed text |
| BlockFormatter.StandardParagraphs | miniprogram/pages/chat/chat.ts:160-163 | the page's paragraph rendering is well formed |
| BlockFormatter.BlocksWellFormed | miniprogram/pages/chat/chat.ts:179-220 | every emitted block is well formed: heading levels 1 to 3, paragraphs with trimmed text, lists with at least one item |
| BlockFormatter.KindsClassified | miniprogram/pages/chat/chat.ts:180-216 | every classified line satisfies the classification invariants |
| BlockFormatter.FormatWellFormed | miniprogram/pages/chat/chat.ts:144-223 | every block `formatMarkdownImpl` returns is well formed |
| BlockFormatter.ClassifyBlank | miniprogram/pages/chat/chat.ts:180-187 | a line is treated as blank exactly when it is all whitespace |
| BlockFormatter.SuffixDotMatchesAll | miniprogram/pages/chat/chat.ts:190 | the `(.*)$` capture after the hashes and spaces matches when the whole line is free of line terminators |
| BlockFormatter.HeadingMatchFound | miniprogram/pages/chat/chat.ts:190-196 | a terminator-free line starting with `#` always matches the heading pattern, with level `min(#count, 3)` and the trimmed rest as content |
| BlockFormatter.HeadingMatchWhen | miniprogram/pages/chat/chat.ts:190-196 | the heading pattern matches whenever the content after the hashes is terminator-free |
| BlockFormatter.KindOfHeading | miniprogram/pages/chat/chat.ts:190-202 | such a line becomes a heading of level `min(#count, 3)` whose content is the trimmed rest |
| BlockFormatter.BulletMatchFound | miniprogram/pages/chat/chat.ts:205 | `- `, `* ` or `+ ` followed by text captures the text after the whitespace |
| BlockFormatter.NoHeadingWithoutHash | miniprogram/pages/chat/chat.ts:190 | a line not starting with `#` is no heading |
| BlockFormatter.KindOfItemWhen | miniprogram/pages/chat/chat.ts:205-210 | a non-heading line matching a list pattern becomes an item with the captured text |
| BlockFormatter.KindOfBullet | miniprogram/pages/chat/chat.ts:205-210 | a bullet line becomes an item with the text after the bullet and the whitespace |
| BlockFormatter.NumberedMatchFound | miniprogram/pages/chat/chat.ts:206 | `<digits>. ` followed by text captures the text after the whitespace |
| BlockFormatter.BulletMatch | miniprogram/pages/chat/chat.ts:205 | `^[-*+]\s+(.*)$`; characterized by `BulletMatchFound` and `DigitStartNoBullet` |
| BlockFormatter.NumberedMatch | miniprogram/pages/chat/chat.ts:206 | `^\d+\.\s+(.*)$`; characterized by `NumberedMatchFound` and `NumberedMatchWhen` |
| BlockFormatter.ItemMatch | miniprogram/pages/chat/chat.ts:205-210 | the bullet capture when there is one, the numbered capture otherwise; characterized by `KindOfItemWhen`, `KindOfBullet` and `KindOfNumbered` |
| BlockFormatter.NumberedMatchWhen | miniprogram/pages/chat/chat.ts:206 | the numbered pattern matches whenever the rest after the dot and whitespace is terminator-free |
| BlockFormatter.DigitStartNoBullet | miniprogram/pages/chat/chat.ts:205-210 | a line starting with a digit is neither a heading nor a bullet; only the numbered pattern can apply |
| BlockFormatter.KindOfNumbered | miniprogram/pages/chat/chat.ts:206-210 | a numbered line becomes an item with the text after the number, the dot and the whitespace |
| ChatTranscript.UserMessage | miniprogram/pages/chat/chat.ts:289-294 | a user message keeps the raw text and renders that text |
| ChatTranscript.AssistantMessage | miniprogram/pages/chat/chat.ts:299-305 | an assistant message holds the normalized text and the rendering of the normalized text |
| ChatTranscript.ReplacedLast | miniprogram/pages/chat/chat.ts:310-326 | when the last message is an assistant's, only the last slot changes; otherwise one message is appended; either way the last message is the assistant message for the text |
| ChatTranscript.ReplyText | miniprogram/pages/chat/chat.ts:499 | the success handler's text; characterized by `ReplyOneLoneReturn` and `ReplyTwoLoneReturns` |
| ChatTranscript.ReplyOneLoneReturn | miniprogram/pages/chat/chat.ts:499 | one lone `\r` before `\r\n` is settled by the handler's pass, and the second pass in `replaceLastAssistant` keeps the text |
| ChatTranscript.ReplyTwoLoneReturns | miniprogram/pages/chat/chat.ts:499 | with two lone `\r` before `\r\n` the handler's text still holds a `\r\n`, which the second pass in `replaceLastAssistant` turns into a line break |
| ChatTranscript.Settled | miniprogram/pages/chat/chat.ts:498-507 | the text given to `replaceLastAssistant`: the handler's text on success, the apology on failure; `SettledReply` computes it and `TurnAddsTwo` states a whole turn with it |
| ChatTranscript.TurnAddsTwo | miniprogram/pages/chat/chat.ts:487-507 | a completed turn adds exactly two messages after the old ones: the user's text, then the settled reply in the placeholder's slot |
| ChatTranscript.ReplaceTwice | miniprogram/pages/chat/chat.ts:310-326 | replacing twice equals replacing once with the second text: the placeholder slot is reused, never stacked |
| ChatTranscript.ChatPage.constructor | miniprogram/pages/chat/chat.ts:227-233 | the page starts with no messages, an empty input, not loading and no conversation |
| ChatTranscript.ChatPage.AppendUser | miniprogram/pages/chat/chat.ts:289-297 | appends the user message and changes nothing else |
| ChatTranscript.ChatPage.AppendAssistant | miniprogram/pages/chat/chat.ts:299-308 | appends the assistant message for the text and changes nothing else |
| ChatTranscript.ChatPage.ReplaceLastAssistant | miniprogram/pages/chat/chat.ts:310-326 | the transcript becomes `ReplacedLast` of the old one and nothing else changes |
| ChatTranscript.ChatPage.OnSend | miniprogram/pages/chat/chat.ts:475-497 | a blank input or a pending request does nothing; without a conversation id (page or storage) only a toast; otherwise the trimmed text is sent for that conversation, the input is cleared, loading is set, and the user message and the placeholder are appended |
| ChatTranscript.ChatPage.StartTurn | miniprogram/pages/chat/chat.ts:487-489 | clears the input, sets loading and appends the user message and the placeholder |
| ChatTranscript.SettledReply | miniprogram/pages/chat/chat.ts:498-507 | the text handed on is the normalized reply on success (`""` when the reply is missing) and the apology on failure |
| ChatTranscript.ChatPage.OnReply | miniprogram/pages/chat/chat.ts:498-507 | the `then`/`catch` handlers: the placeholder is replaced by the settled text; input, loading and the conversation id are unchanged |
| ChatTranscript.ChatPage.OnSettled | miniprogram/pages/chat/chat.ts:508-510 | the `finally` handler: loading ends and the transcript, the input and the conversation id are unchanged |
| SocketSession.ClassifyFrame | miniprogram/utils/websocket.ts:43-67 | `[DONE]` ends the session; a frame starting with `[ERROR]` fails with the text after the prefix; any other frame is delivered when it parses and dropped otherwise; each case exactly when the code takes it |
| SocketSession.ErrorFrameRoundTrip | miniprogram/utils/websocket.ts:54-58 | a server error frame hands back exactly the message after the prefix |
| SocketSession.Token | miniprogram/utils/websocket.ts:101-107 | the token is non-empty exactly when a non-empty token is stored, and is then that stored token; `ChatWebSocket.Connect` sends `Headers(Token(stored))` |
| SocketSession.StoredTokenHeaders | miniprogram/utils/websocket.ts:88-107 | the socket carries a bearer authorization exactly when a non-empty token is stored, and it holds that token |
| SocketSession.Headers | miniprogram/utils/websocket.ts:88-99 | JSON content type always; `Authorization: Bearer <token>` exactly when there is a token; no other header |
| SocketSession.BearerRoundTrip | miniprogram/utils/websocket.ts:94-96 | the token can be read back from the authorization header |
| SocketSession.Reaction | miniprogram/utils/websocket.ts:71-80 | after incrementing, a counter of at most three reconnects after 1000 ms times the counter; otherwise the error is surfaced |
| SocketSession.Reactions | miniprogram/utils/websocket.ts:69-81 | one reaction per error in a row |
| SocketSession.ReactionsAt | miniprogram/utils/websocket.ts:71-77 | the `i`-th error of a row sees the counter `start + i + 1` |
| SocketSession.FreshErrors | miniprogram/utils/websocket.ts:69-81 | from a fresh counter the first three errors reconnect after 1000, 2000 and 3000 ms, and every later error is surfaced |
| SocketSession.ReconnectBound | miniprogram/utils/websocket.ts:69-81 | any row of errors causes at most the reconnects left of three, and exactly that many when long enough |
| SocketSession.ChatWebSocket.constructor | miniprogram/utils/websocket.ts:9-27 | no socket, a zero counter, a bound of three |
| SocketSession.ChatWebSocket.Connect | miniprogram/utils/websocket.ts:29-35 | opens a socket to the url with the current headers, remembers the payload, and keeps the counter |
| SocketSession.ChatWebSocket.OnOpen | miniprogram/utils/websocket.ts:37-41 | sends the payload when a socket is current, and changes nothing |
| SocketSession.ChatWebSocket.Close | miniprogram/utils/websocket.ts:109-115 | closes the current socket if any, forgets it, and resets the counter |
| SocketSession.ChatWebSocket.OnMessage | miniprogram/utils/websocket.ts:43-67 | dispatches by `ClassifyFrame`; the end and error frames close the session, other frames change no state |
| SocketSession.ChatWebSocket.OnError | miniprogram/utils/websocket.ts:69-81 | increments the counter and reacts by `Reaction` of the new counter; the socket and the payload stay |
| HttpRequest.StripTrailingSlashes | miniprogram/utils/request.ts:8 | `replace(/\/+$/, "")` removes exactly the trailing run of slashes |
| HttpRequest.Rooted | miniprogram/utils/request.ts:9 | the path with a leading `/` added when it has none; characterized by `RootedSpec` |
| HttpRequest.RootedSpec | miniprogram/utils/request.ts:9 | the rooted path starts with `/` and ends with the path, is longer exactly when the path lacks the slash, and rooting it again changes nothing |
| HttpRequest.JoinURL | miniprogram/utils/request.ts:7-11 | the stripped base, one `/`, then the path without its own leading slash |
| HttpRequest.JoinIgnoresTrailingSlash | miniprogram/utils/request.ts:8 | a trailing slash on the base makes no difference |
| HttpRequest.JoinIgnoresLeadingSlash | miniprogram/utils/request.ts:9 | a path with or without its leading slash joins to the same address |
| HttpRequest.StripIdempotent | miniprogram/utils/request.ts:8 | stripping twice equals stripping once |
| HttpRequest.RequestHeaders | miniprogram/utils/request.ts:30-35 | JSON content type and accept, the bearer token when there is one, and the caller's extra headers, which win on a clash; no other key |
| HttpRequest.RequestHeadersMatchSocket | miniprogram/utils/request.ts:30-35 | without extras the request headers are the socket's plus the JSON `Accept` |
| HttpRequest.Payload | miniprogram/utils/request.ts:45-48 | a decoded body is kept; a text body is replaced by its parse when it parses and kept as text otherwise |
| HttpRequest.BodyText | miniprogram/utils/request.ts:51 | the rejection text is the body itself when it is text and its JSON rendering otherwise; `Settle` puts it after `HTTP <code>: ` |
| HttpRequest.NetworkError | miniprogram/utils/request.ts:56 | the message starts with `Network error: `, followed by the `errMsg` when it is present and non-empty and by `unknown` otherwise; `Settle` rejects a transport failure with it |
| HttpRequest.Settle | miniprogram/utils/request.ts:37-57 | resolves exactly on a 2xx status with the payload; otherwise rejects with `HTTP <code>: <body>`, the body as text or as JSON; a transport failure rejects with `Network error: <errMsg or unknown>` |
| HttpRequest.StatusReadBack | miniprogram/utils/request.ts:51 | the status code can be read back from a rejection message |
| HttpRequest.UnknownNetworkError | miniprogram/utils/request.ts:56 | a failure without an error message reads `Network error: unknown` |
| PaipanHistory.Days | miniprogram/pages/history/history.ts:116 | `Math.floor(diff / day)`: the whole days in the difference, rounded down |
| PaipanHistory.FormatDate | miniprogram/pages/history/history.ts:113-129 | `formatDate` on the millisecond difference; characterized by `FormatDateBuckets` and `FutureDateLabel` |
| PaipanHistory.FormatDateBuckets | miniprogram/pages/history/history.ts:113-129 | under a day `今天`, under two `昨天`, under a week `<n>天前`, from a week on `<month>月<day>日` with the 1-based month; a future date gives a negative day count |
| PaipanHistory.SameBirth | miniprogram/pages/history/history.ts:89-94 | the duplicate test compares birth date, birth time and birthplace only; `ListedIgnoresGenderAndCalendar` states it |
| PaipanHistory.Listed | miniprogram/pages/history/history.ts:89-94 | `history.some(...)`; characterized by `ListedIgnoresGenderAndCalendar`, `SavedHistory` and `SaveTwice` |
| PaipanHistory.FutureDateLabel | miniprogram/pages/history/history.ts:116-123 | a date in the future is labelled with a negative count |
| PaipanHistory.SavedHistory | miniprogram/pages/history/history.ts:86-104 | an already listed birth leaves the list alone; otherwise the stamped record comes first, the old entries follow in order, and the list is cut to twenty |
| PaipanHistory.SaveTwice | miniprogram/pages/history/history.ts:89-104 | saving the same record again changes nothing |
| PaipanHistory.ListedIgnoresGenderAndCalendar | miniprogram/pages/history/history.ts:89-94 | gender and calendar play no part in the duplicate check |
| PaipanHistory.SavedWithinLimit | miniprogram/pages/history/history.ts:101-104 | a list of at most twenty stays at most twenty |
| PaipanHistory.SaveToHistory | miniprogram/pages/history/history.ts:84-111 | a listed birth writes nothing and leaves the record; otherwise the record is stamped with the date label and the saved list is written |
| PaipanHistory.CurrentRecord | miniprogram/pages/history/history.ts:40-48 | a current record exists exactly when both the last chart and the last form are stored; it has id `current`, an empty date, and those two values |
| PaipanHistory.LoadHistory | miniprogram/pages/history/history.ts:34-56 | the current record and the stored list, or the empty list when none is stored |
| ResultPage.Tiangan | miniprogram/pages/result/index.ts:65 | four stems |
| ResultPage.Dizhi | miniprogram/pages/result/index.ts:66 | four branches |
| ResultPage.TableIsTranspose | miniprogram/pages/result/index.ts:64-66 | column `i` of the table holds the stem and the branch of the `i`-th pillar (year, month, day, hour) |
| ResultPage.Concat | miniprogram/pages/result/index.ts:70 | `join("")` of one piece is that piece |
| ResultPage.ConcatAppend | miniprogram/pages/result/index.ts:70 | `join("")` of two lists of pieces, one after the other, is the join of the first followed by the join of the second |
| ResultPage.ChipOf | miniprogram/pages/result/index.ts:69-72 | a missing or empty pillar shows `—`, otherwise its joined pieces; the age reads `<age>岁 / <start year>` |
| ResultPage.DayunChips | miniprogram/pages/result/index.ts:69-72 | one chip per period, in order; none when the list is missing |
| ResultPage.ChipOfPair | miniprogram/pages/result/index.ts:70 | a two-piece pillar shows stem then branch |
| ResultPage.AgeReadBack | miniprogram/pages/result/index.ts:71 | the age can be read back from the front of the chip's age text |
| ResultPage.ResultView.constructor | miniprogram/pages/result/index.ts:37-50 | an empty table except the placeholder growth-phase row, and no chips |
| ResultPage.ResultView.ApplyMingpan | miniprogram/pages/result/index.ts:62-81 | the table rows from the pillars with the growth-phase row kept, and the chips |
| ResultPage.ResultView.OnLoad | miniprogram/pages/result/index.ts:52-60 | a toast and no change exactly when no cached chart is stored; otherwise the chart is applied |

## Left out

- Mini-program effects are not modelled; the model works with their inputs and results.
  - `setData` callbacks, scrolling (`toBottom`, `toView`), toasts, navigation and loading indicators are left out.
  - Storage reads are parameters of the operations, and storage writes are returned values.
- Timers are not modelled. A reconnect is returned as its delay; the later call of `connect(data)` is the caller's `Connect` with the same payload.
- `Date` is not modelled. The clock enters as the millisecond difference and the calendar month and day.
- The URL query built in `onSend` is not modelled, because it depends on the clock (`Date.now()`). It is the path `/chat?stream=0&_ts=…` and the `Accept` header.
- `JSON.parse` and `JSON.stringify` are parameters, not implementations. `onOpen` sends the payload value; its JSON rendering is not modelled.
- Console logging never affects the logic and is left out. This includes the `onClose` handler, which only logs.
- `request`'s `method`, `data`, `dataType`, `responseType` and `timeout` are passed straight to the transport and are not modelled.
- `BASE_URL` is a parameter of `JoinURL`.
- `getToken` is read twice in `request` (once for the test, once for the value). The model reads it once, assuming storage does not change between the two reads.
- ChatWebSocket handlers: the model routes every event to the controller's current state. Handlers registered on an earlier socket task stay attached after a reconnect, so a late event from an old task can still act on the controller; that case is not modelled.
- ChatWebSocket.OnOpen: when the socket has been closed, the code's `socket!` dereference throws. The model sends nothing in that case.
- ChatTranscript.ChatPage.ReplaceLastAssistant: `slice()` copies the array, not the messages, so the code overwrites the last message object that the old array shares. The model treats messages as values, so this aliasing is not captured.
- PaipanHistory.SaveToHistory: the code sets `createdAt` on the caller's record object, which is the page's `currentPaipan`. The model returns the stamped record instead of mutating the caller's object.
- PaipanHistory.SaveToHistory: storage exceptions swallowed by `try`/`catch` are not modelled.
- The history list is taken as stored. The `|| []` fallback is modelled only for a missing list, not for other falsy values.
- Other chat page handlers are outside the modelled core: `onLoad` (the greeting and the injected prompt), `onQuickStart`, `onQuickAsk`, `autoSendPrompt`, `onClear`, `onStartFromChat`, `onGoToResult`, `onInput` and `toBottom`. `onInput` only copies the input field.
- The other pages and components (the birth-data dialog, login, profile, feedback, the app shell) are outside the modelled core.
- The result page's `wuxing` list is always empty in the code and is not modelled. The placeholder click handlers are not modelled either.
- Characters are Unicode scalar values; JavaScript strings are UTF-16 code units. Inputs outside the Basic Multilingual Plane would be indexed differently, and that difference is not modelled.
- The regular expressions are not interpreted; closed forms stand in for them.
  - Only the patterns the core uses are modelled: the lazy span patterns, the heading and list patterns, `\s`, and `.` (which excludes line terminators).
  - For heading and list lines that contain a line terminator other than `\n`, the lemmas stating a match require the line to be free of such terminators. The functions themselves model both outcomes.
- Numbers are integers. A non-integer status code, age or start year (rendered by JavaScript with a fraction) is not modelled.
- Array.prototype.sort: the marker sort is modelled as an insertion sort by index. Two markers never share an index (the delimiters differ and matches of one kind do not overlap), so every correct sort gives the same order.
- ReplyNormalizer.NormalizeIdempotent: holds only for inputs without `\r`, because the code itself is not idempotent on a lone `\r` before `\r\n` (see `NormalizeNotIdempotentWithCarriageReturn`).

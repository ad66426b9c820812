# Garmin UI capture: log parser and XML projection

This project models the capture core of the Garmin developer CLI in
`src/garmin_dev/cli.py`. From the debug log of a running Connect IQ app, the
core builds a canonical UI-state document: metadata, the screen geometry, and
one element per text, circle and rectangle render line. It then writes that
document out as XML, with the elements ordered by z-index.

Four parts of that core are modelled:

- `_parse_debug_logs` is `Builder.BuildDocument`. Its input is the screen
  match, the per-category pattern matches, the device hint and the capture time.
  The text and rectangle `for` loops, which share the `element_id` counter,
  are `Builder.TextLoop` and `Builder.RectLoop`. The document takes their
  output in closed form (`Builder.TextElements`, `Builder.RectElements`), and
  `Builder.TextLoopClosedForm` and `Builder.RectLoopClosedForm` prove the two
  agree.
- `_get_font_size` and the `font_weight` rule are `Fonts.FontSize` and
  `Fonts.FontWeight`.
- `_hex_color_convert` is `Colors.HexColor`.
- `_generate_xml` is `Xml.XmlLines` and `Xml.GenerateXml`. Python's stable
  `sorted` is `ZOrder.SortByZ`, and `'\n'.join` is `Lines.Join`.

The screen pattern is the one pattern with `search` semantics, meaning the first
match in the log wins. It is modelled as a line recogniser,
`ScreenLine.ParseScreenLine`, together with a first-match scan,
`ScreenLine.FirstScreenMatch`. The three element patterns are `finditer` scans.
Their results enter the model as sequences of captured-group records, defined in
module `Matches`. Each record carries what its pattern guarantees: `\d+` groups
are non-empty ASCII digit strings, and the circle size is a `[0-9.]+` token.

Module layout:

- `results.dfy`: `Option` and `Result`.
- `strings.dfy`: ASCII case mapping, substring tests, `zfill`, splitting.
- `decimal.dfy`: `int()` on digit strings and `str()` on integers.
- `lines.dfy`: `'\n'.join` and its inverse.
- `uistate.dfy`: the document.
- `matches.dfy`: the records of the pattern scans, and `float()` acceptance.
- `screenline.dfy`: the screen pattern.
- `colors.dfy`, `fonts.dfy`: the colour and font helpers.
- `builder.dfy`: the document builder.
- `zorder.dfy`: the stable z-index sort.
- `xml.dfy`: the XML writer.
- `samples.dfy`: worked examples of the helpers.
- `capture.dfy`: the pipeline end to end.

## Behaviour worth noting

- `float(size)` at `src/garmin_dev/cli.py:337` raises on a token such as
  `1.2.3` or `.`, although `[0-9.]+` matches it. The whole capture then fails,
  so `BuildDocument` returns `Err(InvalidRadius(token))`.
- One counter numbers all elements across the three loops
  (`src/garmin_dev/cli.py:306`, `327`, `344`, `365`). It ends every id after a
  `_`, so ids are pairwise distinct whatever the element names are.
- `_hex_color_convert` (`src/garmin_dev/cli.py:379-383`) pads the digits after
  `0x` to six with `zfill`. It never truncates, so seven or more digits give
  a colour longer than `#RRGGBB`.
- An element block (`src/garmin_dev/cli.py:415-433`) holds the opening line,
  a position line, the type's own lines, then four lines every type shares:
  fill colour, z-index, visibility and opacity.
- The weight test (`src/garmin_dev/cli.py:319`) is a case-sensitive search
  for `LARGE` anywhere in the font token. The size lookup
  (`src/garmin_dev/cli.py:377`) is an exact match on the upper-cased token.
  So `XLARGE` is bold at size 16, and `large` has normal weight at size 24.
- Text content is written into the XML verbatim (`src/garmin_dev/cli.py:419`).
  The text pattern's `([^)]+)` group (`src/garmin_dev/cli.py:268`) matches
  newlines, so text content can hold one. The XML text then has more lines
  than `_generate_xml` appended.

## Model

| member | source | states |
|---|---|---|
| Builder.BuildDocument | src/garmin_dev/cli.py:260-367 | The capture fails exactly when some circle's size token is rejected by `float()`. Otherwise the document has schema version "1.0", an empty state map, and exactly the elements of the three match loops. |
| Builder.AllElements | src/garmin_dev/cli.py:305-365 | Elements are text first, then circles, then rectangles, each group in match order, numbered by one shared counter from 1. The error names the first rejected size token. |
| Builder.CircleElements | src/garmin_dev/cli.py:330-344 | The circle loop fails exactly when a size token is rejected, and reports the first such token. Otherwise there is one element per match, in order. |
| Builder.FirstInvalidSize | src/garmin_dev/cli.py:337 | The index of the first size token `float()` rejects: every earlier one parses. |
| Builder.BuildWithoutScreen | src/garmin_dev/cli.py:276-294 | With no screen match the defaults stand: a 260x260 screen centred at (130,130), device hint or "fenix7", capture source "debug_logs", timestamp `now + "Z"`. No matches give no elements. |
| Builder.BuildScreenOverride | src/garmin_dev/cli.py:297-303 | A screen match changes exactly the width, height and centre, to the parsed integers. Everything else equals the document without it. |
| Builder.DeviceModel | src/garmin_dev/cli.py:280 | The device model is never empty: a non-empty hint is used as given, and anything else is "fenix7". |
| Builder.InitialDocument | src/garmin_dev/cli.py:276-294 | The starting document has version "1.0", no elements, an empty state map and timestamp `now + "Z"`. Its centre is half its width and height. |
| Builder.WithScreen | src/garmin_dev/cli.py:297-303 | A screen match sets width, height and centre to its parsed groups. Every other field of the document, metadata and screen is unchanged. |
| Builder.IdCounterOfMakeId | src/garmin_dev/cli.py:312 | The counter can be read back from the end of any id built from any name. |
| Builder.MakeIdParts | src/garmin_dev/cli.py:312 | An id from `MakeId` is the lower-cased name, then `_`, then the counter's canonical digits, which read back as the counter. |
| Builder.TextElementId | src/garmin_dev/cli.py:311-325 | A text element (`TextElement`) has type text, and its id gives back the counter. |
| Builder.TextElementFields | src/garmin_dev/cli.py:311-325 | A text element's id starts with the lower-cased name. It is at z-index 10, visible with opacity 1.0, and takes its parsed position and converted colour from its match. |
| Builder.CircleElementId | src/garmin_dev/cli.py:332-342 | A circle element (`CircleElement`) has type circle, and its id gives back the counter. |
| Builder.CircleElementFields | src/garmin_dev/cli.py:332-342 | A circle element's id starts with the lower-cased name. It is at z-index 5, visible with opacity 1.0, and takes its parsed position and converted colour from its match. |
| Builder.RectElementId | src/garmin_dev/cli.py:352-363 | A rectangle element (`RectElement`) has type rect, and its id gives back the counter. |
| Builder.RectElementFields | src/garmin_dev/cli.py:352-363 | A rectangle element's id starts with the lower-cased name. It is at z-index 8, visible with opacity 1.0, and takes its parsed position and converted colour from its match. |
| Builder.TextLoop | src/garmin_dev/cli.py:309-327 | Each pass of the text loop appends one element and adds 1 to `element_id`, so the loop appends one element per match and leaves the counter `|ms|` higher than it found it. |
| Builder.TextLoopClosedForm | src/garmin_dev/cli.py:309-327 | The text loop's elements are the matches in match order, and match `i` carries the counter value `counter + i` it saw. |
| Builder.TextLoopFirst | src/garmin_dev/cli.py:306-327 | With the counter starting at 1, the text loop's elements open the element list, and it leaves the counter at `len(texts) + 1` for the circle loop. |
| Builder.RectLoop | src/garmin_dev/cli.py:347-365 | The rectangle loop appends one element per match and leaves the counter `|ms|` higher than it found it. |
| Builder.RectLoopClosedForm | src/garmin_dev/cli.py:347-365 | The rectangle loop's elements are the matches in match order, and match `i` carries the counter value `counter + i`. |
| Builder.BuildLayout | src/garmin_dev/cli.py:306-365 | Element `i` carries counter `i + 1` in its id. Its shape is text, circle or rectangle exactly when `i` lies in that group's index range. |
| Builder.BuildIdsDistinct | src/garmin_dev/cli.py:306-365 | No two elements of a document share an id, even when names repeat. |
| Builder.BuildFixedAttributes | src/garmin_dev/cli.py:321-324 | Every element is visible with opacity 1.0. Text is anchored "middle" at z-index 10, circles are at 5, rectangles at 8. |
| Builder.BuildTextFields | src/garmin_dev/cli.py:309-327 | A text element's fields come from its match: lower-cased id and family, verbatim content, table font size, bold exactly when "LARGE" occurs in the font, converted colour, parsed position. |
| Builder.BuildCircleFields | src/garmin_dev/cli.py:330-344 | A circle element's fields come from its match: an id from the lower-cased name and its counter, the radius token as matched (one `float()` accepts), parsed position, converted colour. |
| Builder.BuildRectFields | src/garmin_dev/cli.py:346-365 | A rectangle element's fields come from its match: an id from the lower-cased name and its counter, parsed width, height and position, converted colour. |
| Builder.BuiltElementAt | src/garmin_dev/cli.py:309-365 | Element `i` of a built document is built from match `i` of its group, with counter `i + 1`. |
| Fonts.FontSize | src/garmin_dev/cli.py:369-377 | LARGE, MEDIUM, SMALL and XTINY (in any ASCII case) give 24, 18, 14 and 10. The size is 16 exactly when the upper-cased token is not a table key. |
| Fonts.FontSizeIgnoresCase | src/garmin_dev/cli.py:377 | A token and its lower-case spelling get the same size. |
| Fonts.FontWeight | src/garmin_dev/cli.py:319 | "bold" exactly when "LARGE" occurs at some position of the token, otherwise "normal". |
| Colors.HexColor | src/garmin_dev/cli.py:379-383 | A token starting with "0x" becomes '#' plus at least six characters. Any other token comes back unchanged. |
| Colors.HexColorPadsDigits | src/garmin_dev/cli.py:381-382 | Under the prefix, the original digits end the result, and every character between '#' and them is '0'. |
| Colors.HexColorKeepsValue | src/garmin_dev/cli.py:381-382 | For hex digits, the result denotes the same number. It is the seven-character `#RRGGBB` form exactly when there are at most six digits. |
| Colors.HexColorLong | src/garmin_dev/cli.py:382 | Six or more digits are kept whole after '#': nothing is truncated. |
| Colors.HexColorIdempotent | src/garmin_dev/cli.py:379-383 | Converting a converted colour changes nothing. |
| Strings.ZFill | src/garmin_dev/cli.py:382 | `zfill(width)` yields `max(width, len)` characters: zeros in front, or just after a leading sign. |
| Strings.ZFillIdempotent | src/garmin_dev/cli.py:382 | Padding a padded string again changes nothing. |
| Strings.Lower | src/garmin_dev/cli.py:317 | `lower()` keeps the length, leaves no ASCII capital, and changes each character only in case. |
| Strings.Upper | src/garmin_dev/cli.py:377 | `upper()` keeps the length, leaves no ASCII lower-case letter, and changes each character only in case. |
| Strings.UpperOfLower | src/garmin_dev/cli.py:377 | Upper-casing a lower-cased string gives the upper-cased original. |
| Strings.ContainsIffWindow | src/garmin_dev/cli.py:319 | The recursive substring test holds exactly when some window of the string equals the pattern. |
| Strings.SplitAt | src/garmin_dev/cli.py:337 | Splitting at the first occurrence of a character succeeds exactly when the character occurs. The parts reassemble the input, and the first part is free of that character. |
| Decimal.ParseNatToString | src/garmin_dev/cli.py:312 | `int(str(n)) == n` for every counter. |
| Decimal.NatToStringParse | src/garmin_dev/cli.py:314-315 | `str(int(s)) == s` for every canonical digit string. |
| Decimal.NatToStringInjective | src/garmin_dev/cli.py:312 | Different counters print differently. |
| Decimal.ParseDigits | src/garmin_dev/cli.py:300-303 | `int()` of an `n`-digit string is below `10^n`, and at least `10^(n-1)` when the first digit is not 0. |
| Decimal.IntToString | src/garmin_dev/cli.py:397-430 | `str(i)` is never empty and starts with '-' exactly when `i` is negative. |
| Decimal.ParseIntToString | src/garmin_dev/cli.py:397-430 | After the optional '-' come canonical digits, and reading the sign and digits back gives `i`. |
| Decimal.NatToString | src/garmin_dev/cli.py:312 | `str(n)` is a non-empty run of digits with no leading zero unless it is "0". |
| Matches.FloatParsesIff | src/garmin_dev/cli.py:337 | A `[0-9.]+` token is accepted by `float()` exactly when it has a digit and at most one point. |
| Matches.FloatWithPoint | src/garmin_dev/cli.py:337 | Digits, a point and digits, not both empty, are accepted. |
| Matches.FloatRejectsSecondPoint | src/garmin_dev/cli.py:337 | A token with a second point is rejected. |
| Matches.FloatParses | src/garmin_dev/cli.py:337 | `float()` rejects the empty string. On a string of digits alone, it accepts exactly the non-empty ones. |
| ScreenLine.ParseFormattedLine | src/garmin_dev/cli.py:267 | A line `[tag] RENDER: Screen(WxH) Center(X,Y)...` with digit groups is recognised, with exactly its four groups. |
| ScreenLine.ParsedLineIsFormatted | src/garmin_dev/cli.py:267 | Every recognised line has that form, for some tag and trailing text. |
| ScreenLine.ParseScreenLine | src/garmin_dev/cli.py:267 | A recognised line yields four non-empty digit groups. |
| ScreenLine.FirstScreenMatch | src/garmin_dev/cli.py:297 | The scan finds a match exactly when some line is recognised, and returns the match of the first such line. |
| ScreenLine.FirstMatchWins | src/garmin_dev/cli.py:297 | Appending lines never changes a match already found. Without one, the appended lines decide. |
| ZOrder.SortByZ | src/garmin_dev/cli.py:412 | The sort is a permutation of its input, ascending by z-index. |
| ZOrder.SortByZStable | src/garmin_dev/cli.py:412 | The sort keeps, for every z-index, the input order of the elements having it. |
| ZOrder.StableOrderUnique | src/garmin_dev/cli.py:412 | Two sorted sequences with the same per-z-index subsequences are equal. |
| ZOrder.SortByZUnique | src/garmin_dev/cli.py:412 | Any ascending rearrangement that keeps every per-z-index order is the sort's result. |
| ZOrder.SortThreeGroups | src/garmin_dev/cli.py:412 | Three uniform groups with z-indexes `kx > kz > ky` sort into the order y, z, x. |
| ZOrder.InsertSorted | src/garmin_dev/cli.py:412 | Insertion keeps a sequence ascending. |
| ZOrder.InsertWithZ | src/garmin_dev/cli.py:412 | Insertion puts the new element first among those with its z-index and leaves every other z-index subsequence alone. |
| ZOrder.Insert | src/garmin_dev/cli.py:412 | Insertion adds exactly the new element to the multiset of elements. |
| UiState.TypeName | src/garmin_dev/cli.py:313-354 | The `type` field is one of "text", "circle" and "rect", and each name belongs to exactly one shape. |
| Xml.ElementLines | src/garmin_dev/cli.py:414-433 | A text block has 12 lines, a circle or rectangle block 8. Each opens with the element line, ends with the closing tag, and has the four common lines just before it. |
| Xml.XmlLines | src/garmin_dev/cli.py:391-438 | The lines start with the XML declaration and end with the root closing tag, with at least 19 lines. |
| Xml.GenerateXml | src/garmin_dev/cli.py:385-440 | The text starts with the XML declaration and ends with `</garmin-ui-state>`. |
| Xml.ElementHasOneOpenLine | src/garmin_dev/cli.py:414-433 | The only `<element ...>` line of a block is its first. |
| Xml.HeaderHasNoOpenLine | src/garmin_dev/cli.py:391-409 | No header line opens an element. |
| Xml.XmlElementOrder | src/garmin_dev/cli.py:411-415 | The XML has one opening line per element, in the order of the stable z-index sort. |
| Xml.HeaderLines | src/garmin_dev/cli.py:391-409 | The header has 17 lines: the declaration, the root opening with the version, eight metadata lines, six screen lines, and `  <elements>`. |
| Xml.ShapeLines | src/garmin_dev/cli.py:418-427 | A text element has five type-specific lines and a circle or rectangle one. All are indented six spaces. |
| Xml.BoolText | src/garmin_dev/cli.py:431 | `str(b).lower()` is "true" or "false", and "true" exactly when `b` holds. |
| Xml.CommonLines | src/garmin_dev/cli.py:429-432 | Every element has four shared lines, all indented six spaces. |
| Xml.TextContentVerbatim | src/garmin_dev/cli.py:419 | The third line of a text block is the text content inside `<text-content>`, unescaped. |
| Xml.XmlLinesOneLine | src/garmin_dev/cli.py:391-438 | When no string field of the document holds a newline, no line of its XML does. |
| Xml.XmlTextLines | src/garmin_dev/cli.py:385-440 | For such a document, splitting the XML text at newlines gives back its lines. The text then has one opening `<element ...>` line per element, in the stable z-index order. |
| Xml.NewlineInContentSplits | src/garmin_dev/cli.py:419 | A newline in some text element's content makes the XML text split into lines other than those joined. |
| Lines.SplitJoin | src/garmin_dev/cli.py:440 | Splitting the joined text at newlines gives back the lines, when no line holds a newline. |
| Lines.JoinSplit | src/garmin_dev/cli.py:440 | Joining the pieces of a split gives back the text. |
| Lines.Join | src/garmin_dev/cli.py:440 | The joined text starts with the first line, followed by a newline when more lines follow. |
| Capture.CaptureXml | src/garmin_dev/cli.py:260-440 | The XML of a capture exists exactly when no circle size is rejected, and it starts with the XML declaration. |
| Capture.BuiltXmlOrder | src/garmin_dev/cli.py:411-415 | For a built document, the sorted order is circles, then rectangles, then text, each group in match order. The XML opening lines follow that order. |
| Capture.BuiltGroupZ | src/garmin_dev/cli.py:309-365 | Each group of a built document carries its own fixed z-index. |
| Capture.LabelElement | src/garmin_dev/cli.py:309-327 | A 260x260 screen with one `Label` at (10,20) in font LARGE and colour 0xFF0000 gives one element: `label_1`, size 24, bold, "#FF0000", z-index 10. |
| Capture.LabelXml | src/garmin_dev/cli.py:414-422 | Its XML has exactly one element block, opened by that element's line, and the block's weight line says bold. |
| Capture.SingleElementXml | src/garmin_dev/cli.py:412-415 | A one-element document has exactly that element's opening line. |
| Capture.BadRadiusFails | src/garmin_dev/cli.py:337 | One circle of size "1.2.3" fails the whole capture with that token. |
| Samples.ShortColor | src/garmin_dev/cli.py:382 | "0xA" becomes "#00000A". |
| Samples.LongColor | src/garmin_dev/cli.py:382 | "0x1234567" becomes "#1234567". |
| Samples.UnprefixedColor | src/garmin_dev/cli.py:383 | "red" passes through. |
| Samples.ExtraLargeFont | src/garmin_dev/cli.py:319 | "XLARGE" is bold yet gets the default size 16. |
| Samples.LowerCaseLarge | src/garmin_dev/cli.py:377 | "large" gets size 24 but normal weight. |
| Samples.AcceptedSizes | src/garmin_dev/cli.py:337 | "5", "2.5", ".5" and "5." are accepted as floats. |
| Samples.RejectedSizes | src/garmin_dev/cli.py:337 | "1.2.3" and "." are rejected. |

## Left out

- The command line, plugin loading and configuration around the core are not part of this model, and neither is its I/O: reading the log from a file or stdin (`src/garmin_dev/cli.py:170-175`), writing the output file and `json.dump` (`src/garmin_dev/cli.py:183-189`).
- `datetime.now().isoformat()` is the parameter `now`. The model states only that the timestamp is `now + "Z"`.
- Python float rendering is left out. `radius` keeps the size token as matched, so `5` is not printed as `5.0`. `scale_factor` and `opacity` are the text "1.0".
- Regular-expression matching in general is left out: backtracking, the non-greedy `\[.*?\]` spanning several brackets, and `finditer` over the whole text. The element scans are inputs, one record per match, holding the groups' guarantees.
- ScreenLine.ParseScreenLine: recognises a single line whose bracketed tag holds no `]`, with any text after the match. A match whose `\[.*?\]` spans a `]` or starts mid-line is not recognised.
- The `layout` and `state` patterns are compiled but never used, so the state map stays empty. Neither pattern is modelled.
- `lower()`, `upper()` and `\d`/`\w` are modelled for ASCII only. Unicode case mapping and non-ASCII digits are left out.
- The rectangle's optional content group is matched but never stored, so it is not modelled beyond the record field.
- XML escaping is not modelled, because the code does none: text content goes into the XML verbatim.
- Xml.XmlTextLines: the round trip from the XML text back to its lines holds only for documents with no newline in any string field. Text content can hold a newline, because `[^)]+` matches one, and `Xml.NewlineInContentSplits` shows the round trip then fails.
- Builder.BuildDocument: does not model the limit on `int()` of CPython 3.11 and later, and of patched 3.7–3.10 releases. There, `int()` raises `ValueError` on a `\d+` group of more than 4300 digits, at `src/garmin_dev/cli.py:300-303`, `314-315`, `335-336` and `355-358`. The capture then fails, and a failure in the text loop comes before any circle error. The model parses digit strings of any length and returns `Ok`.
- Builder.AllElements: the same 4300-digit `int()` limit is not modelled, so a match with an over-long `\d+` group gives `Ok` where Python raises `ValueError`.
- Builder.CircleElements: the same 4300-digit `int()` limit is not modelled for the circle's x and y groups (`src/garmin_dev/cli.py:335-336`). It fails only on a rejected size token.
- Capture.CaptureXml: inherits the same gap, so the XML exists exactly when no size token is rejected, even where Python would raise on an over-long digit group.

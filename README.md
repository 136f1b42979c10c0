# Storygen: a Dafny model of the story generators' decoding and export logic

Storygen is a pair of Streamlit scripts that ask a chat-completion model
for Instagram story content and then show and export it.

- `Storygen.py` is the standard generator.
- `Storygenv2.py` is the "viral" generator.

Once the widgets, the request and the key lookup are set aside, what remains
is a small amount of deterministic string logic. This project models it:

- **Decoding the reply.**
  - The standard script parses the reply text or gives `None`.
  - The viral script adds two fallbacks. The first is the first fenced
    block, found with the regex `` ```(?:json)?\n?(.*?)\n?``` ``. The second
    is a literal repair pass: `'` becomes `"`, `True` becomes `true` and
    `False` becomes `false`.
  - Both scripts treat a falsy decode as a failure.
  - `json.loads` is library code, so every decoder takes it as a parameter
    (`Parser`).
- **Session state of the viral script.**
  - `init_session_state` fills in defaults for missing keys.
  - The usage counter goes up once per answered request.
  - The page stores only truthy results.
- **Exports.**
  - `make_export_text` of the standard script.
  - The `txt`, `csv` and `json` branches of `make_enhanced_export`.
  - Each export is modelled twice: as a specification function giving the
    exact list of lines or rows, and as a method with the source's loops
    that is proved to build exactly that list.
  - The text exports' specifications are split in two. One function renders
    each section of the record to its lines. A layout function then puts the
    sections in order with their headings. Line positions are proved about
    the layout, and the rendering is stated per section.
- **Display rules.**
  - Hashtag normalisation: `"#" + h.strip('#')`, joined by spaces.
  - The slide index, which falls back to the 1-based position.
  - The three-column grid of the standard view and the two-column grid of
    the viral view.

Modules, one per file:

- `JsonValue`: decoded JSON values, Python truthiness, `dict.get` and `str()`.
- `Strings`: `find`, `replace`, `strip`, `join` and `split` on strings.
- `Fence`: the fenced-block regex, described on its own and computed by
  `ExtractFence`. The two are proved to agree.
- `Completion`: the reply of the request.
- `StoryView`: hashtags, display indices and columns.
- `Storygen`: the standard script.
- `StorygenV2`: the viral script's decoder and session state.
- `ViralExport`: `make_enhanced_export`.

The model follows the code as written in five places where a reader might
expect otherwise:

- **Direct parse.** The direct parse succeeds with any JSON value, not only
  a mapping. `null`, `0`, `[]` and `{}` are returned as parsed, and the
  caller's truthiness check rejects them.
- **Repair trigger.** The repair runs whenever the first decode is falsy,
  even when the text parsed to `{}`. It does not wait for both earlier tiers
  to fail.
- **Failed re-parse.** A re-parse that fails after the repair is caught by
  the function's own `except Exception`. The function then returns
  `(None, None)`, so the raw text is not handed back.
- **Slide index fallback.** The fallback to the 1-based position exists only
  on screen. Both text exports print an empty slide number when `slide_no`
  is missing.
- **Hashtags and safety note.** Hashtags are a list: order and duplicates
  are kept. The safety note defaults to a fixed German sentence, not to the
  empty string.

## Model

| member | source | states |
|---|---|---|
| `JsonValue.FalsyValues` | Storygen.py:409 | `not data` holds exactly for None, False, 0, "", [] and {} |
| `Strings.Strip` | Storygen.py:149 | `strip('#')` yields a contiguous piece of the tag, with only `#` cut away on both sides, that neither starts nor ends with `#` |
| `Fence.ExtractFenceIsSearch` | Storygenv2.py:49-50 | the fence extraction returns the group of the match `re.search` reports (leftmost start, first opener the engine tries, shortest lazy group), returns nothing exactly when the pattern matches nowhere, and the group never holds three backticks |
| `Fence.FencedPayload` | Storygenv2.py:47-52 | prose without backticks, then a ```` ```json ```` fence around a payload without backticks, then anything: the extracted group is exactly the payload |
| `Completion.ContentText` | Storygen.py:355 | `content or "{}"` is never empty, keeps non-empty content unchanged, and is `{}` exactly when the content is missing, empty or `{}` itself |
| `StoryView.Tag` | Storygen.py:149 | a rendered hashtag is one `#` followed by the tag without leading or trailing `#` |
| `StoryView.TagIgnoresHashRuns` | Storygenv2.py:336 | any runs of `#` around a tag vanish: the result is `#` plus the core |
| `StoryView.TagForms` | Storygenv2.py:336 | `x`, `#x` and `##x#` all render as `#x` |
| `StoryView.TagIdempotent` | Storygen.py:177 | normalising a normalised hashtag changes nothing |
| `StoryView.TagFree` | Storygen.py:149 | a character other than `#` missing from the tag is missing from its rendering |
| `StoryView.HashtagLineSplits` | Storygen.py:149 | when no tag has a space, splitting the hashtag line at spaces gives back each rendered tag in input order |
| `StoryView.GridIndices` | Storygenv2.py:285-294 | the two-per-row walk shows every slide once, in order, with `slide_no` or the 1-based position, the same index as the standard view's `slide.get('slide_no', i+1)` |
| `StoryView.ColumnOfAt` | Storygen.py:122-123 | column `c` holds slides `c`, `c+3`, `c+6`, … in order, `(n + 2 - c) / 3` of them |
| `StoryView.ColumnsPartition` | Storygen.py:121-123 | the three columns together hold as many slides as the input |
| `StoryView.ColumnOfSlide` | Storygen.py:122-124 | slide `i` is entry `i / 3` of column `i % 3` |
| `StoryView.PlaceInColumns` | Storygen.py:121-124 | the `cols[i % 3]` loop fills each column with exactly the slides of that column |
| `Storygen.GenerationScreen` | Storygen.py:409-412 | the story is shown exactly when the reply text parses to a truthy value, and it is that value; otherwise the reply text is shown |
| `Storygen.EmptyReplyShowsRaw` | Storygen.py:355 | missing or empty content is shown as the failure text `{}` |
| `Storygen.MakeExportText` | Storygen.py:153-180 | the appending code produces exactly the specified export lines, joined by newlines |
| `Storygen.AppendSlides` | Storygen.py:157-162 | the slide loop appends the five lines of each slide, in input order |
| `Storygen.AppendBullets` | Storygen.py:163-168 | the heading, then one `- item` line per item, in order |
| `Storygen.AppendPoll` | Storygen.py:169-175 | the INTERAKTION lines are appended only for a truthy poll, and the options line only for truthy options |
| `Storygen.AppendClosing` | Storygen.py:176-179 | the HASHTAGS heading, the hashtag line, the SAFETY heading and the safety note or its default |
| `Storygen.RenderedParts` | Storygen.py:155-179 | how a record renders: the hook line `HOOK: …\n`, five lines per slide, `- item` per caption and per CTA in input order, the INTERAKTION lines, and the safety note or its fixed default when absent |
| `Storygen.LayoutFrame` | Storygen.py:155-179 | the export has 1 + 5n + 1 + captions + 1 + CTAs + poll + 4 lines; it opens with the hook line and closes with the HASHTAGS heading, the hashtag line, the SAFETY heading and the safety note |
| `Storygen.LayoutSlideLine` | Storygen.py:157-162 | line `j` of slide `k` is export line `1 + 5k + j` |
| `Storygen.LayoutCaptionLines` | Storygen.py:163-165 | `CAPTIONS:` follows the slides, then caption `i` on line `2 + 5n + i`, in order |
| `Storygen.LayoutCtaLines` | Storygen.py:166-168 | `\nCTA:` follows the captions, then CTA `i` on the line `i + 1` after it, in order |
| `Storygen.LayoutPollLines` | Storygen.py:169-176 | the INTERAKTION lines follow the CTAs, and the HASHTAGS heading follows them |
| `Storygen.LayoutPollHeading` | Storygen.py:169-176 | the line after the CTAs opens INTERAKTION exactly when that section is present; otherwise it is the HASHTAGS heading |
| `Storygen.PollSection` | Storygen.py:169-175 | the INTERAKTION section is present exactly when the poll is truthy, opens with its heading, and has an options line, listing the options joined by `, `, exactly when they are truthy |
| `Storygen.ExportSlideHeader` | Storygen.py:158 | a slide without `slide_no` gets the header `--- SLIDE  ---`, not its position |
| `StorygenV2.DecoderTiers` | Storygenv2.py:42-55 | text that parses is returned as parsed, whatever its value, and agrees with the standard decoder; when it does not parse and the group `re.search` reports parses to `v`, the result is `v`; any other non-`None` result is the parse of that group; with no match it is `None` |
| `StorygenV2.FencedReplyRecovered` | Storygenv2.py:46-52 | a fenced reply that does not parse as a whole is recovered from its fence, where the standard decoder gives `None` |
| `StorygenV2.RepairLength` | Storygenv2.py:250 | the repair keeps the length of the text |
| `StorygenV2.RepairRemoves` | Storygenv2.py:250 | no `'`, `True` or `False` is left after the repair |
| `StorygenV2.RepairIdempotent` | Storygenv2.py:250 | repairing twice is the same as repairing once |
| `StorygenV2.DecodeViralOutcome` | Storygenv2.py:247-253 | the repair runs exactly when the first decode is falsy; then the raw text returned is the repaired one and the data its parse; a repaired text that does not parse ends in `(None, None)` |
| `StorygenV2.EmptyReplyDecodes` | Storygenv2.py:244-253 | empty or missing content decodes to `({}, "{}")` |
| `StorygenV2.WithDefaultsKeys` | Storygenv2.py:159-166 | after initialisation the three keys exist; present keys keep their values; missing ones get `None`, `'txt'` and `0`; no other key appears |
| `StorygenV2.WithDefaultsIdempotent` | Storygenv2.py:159-166 | initialising twice is initialising once |
| `StorygenV2.UsageCountsAnsweredRequests` | Storygenv2.py:231-257 | every answered request adds one to the usage counter, even when its reply cannot be decoded; a failed request changes nothing and returns `(None, None)` |
| `StorygenV2.EmptyReplyReportedAsFailure` | Storygenv2.py:639-644 | an empty reply is counted but not stored: the page reports a failure |
| `StorygenV2.SessionState.InitSessionState` | Storygenv2.py:159-166 | the in-place updates leave exactly the defaulted entries |
| `StorygenV2.SessionState.GenerateViralStory` | Storygenv2.py:242-257 | the counter update, content default, decode, repair and exception paths give the specified outcome and entries |
| `StorygenV2.SessionState.AcceptGeneration` | Storygenv2.py:639-644 | truthy data is stored with its raw text; anything else leaves the session as it was |
| `ViralExport.MakeTxtExport` | Storygenv2.py:356-388 | the appending code produces exactly the specified text-export lines, joined by newlines |
| `ViralExport.AppendTxtSlides` | Storygenv2.py:368-374 | the slide loop appends the six lines of each slide, in input order |
| `ViralExport.AppendVariants` | Storygenv2.py:379-380 | the enumerate loop appends caption `i` as `Variante i+1` |
| `ViralExport.AppendCtas` | Storygenv2.py:385-386 | the CTA loop appends `• cta` per CTA, in order |
| `ViralExport.TxtFrame` | Storygenv2.py:357-388 | the text export has 8 header lines, 6 per slide, 3 + captions and 3 + CTAs, and opens with fifty `=` |
| `ViralExport.TxtRendered` | Storygenv2.py:358-386 | how a record renders: eight header lines, six lines per slide, caption `i` as `Variante i+1`, and `• cta` per CTA, all in input order |
| `ViralExport.TxtLayoutSlideLine` | Storygenv2.py:368-374 | line `j` of slide `k` is export line `8 + 6k + j` |
| `ViralExport.TxtLayoutVariant` | Storygenv2.py:376-380 | variant `i` comes right after the slides and the caption banner, in order |
| `ViralExport.TxtEmptySlide` | Storygenv2.py:369-374 | a slide with no fields renders as the six bare labels, with an empty slide number |
| `ViralExport.NatToStringInjective` | Storygenv2.py:380 | different numbers render differently, so no two variants share a number |
| `ViralExport.WriteCsvRows` | Storygenv2.py:393-411 | the CSV has the fixed five-column header and then exactly one row per slide, in order, with `''` for missing fields |
| `ViralExport.MakeEnhancedExport` | Storygenv2.py:353-411 | `txt`, `json` and `csv` give their exports; any other format, and only such a format, gives `None` |

## Left out

- The JSON parser itself (`json.loads`) is a parameter, not a definition.
  - Lemmas that need `json.loads('{}') == {}` take it as a precondition.
  - Floating-point numbers are not modelled: JSON numbers are integers here.
- `json.dumps` (Storygenv2.py:391) is not modelled. The `json` branch returns the value it would dump.
- CSV quoting and escaping by `csv.writer` are not modelled. A row holds the decoded values; only the row and column structure is modelled.
- `str()` of a list or dict (its `repr`) is not modelled. The exports therefore require interpolated fields to be scalars.
- The export preconditions `ExportShaped`, `TxtShaped` and `CsvShaped` exclude values on which Python raises, and they are not modelled as errors:
  - `"\n".join` and `", ".join` on non-strings;
  - `.get` on a non-dict.
- The same preconditions also exclude some inputs the source accepts without raising:
  - a string or a dict where a list (slides, captions, CTAs, hashtags) is expected; Python iterates its characters or its keys;
  - a non-empty string as poll `options`, which `', '.join` joins character by character.
- `Storygen.MakeExportText`: requires `ExportShaped`, i.e. the record is a dict whose slides are dicts, and the raw-appended fields are strings: headline, body, safety note, options and hashtags.
- `ViralExport.MakeTxtExport`: requires `TxtShaped`, i.e. a dict whose interpolated fields are scalars.
- `ViralExport.MakeEnhancedExport`: requires `TxtShaped` for `txt` and `CsvShaped` for `csv`.
- Exceptions other than a decode error inside `json.loads` are not modelled; such an exception escapes `safe_json_loads` in the viral script.
- Transport failures:
  - In the standard script a failed request is not caught; it ends the run. Only the answered path is modelled.
  - In the viral script a failed request is caught, and it is modelled.
- Streamlit widgets, layout, tabs, download buttons and the unused viral-score colour are not modelled.
- The OpenAI client, the API-key lookup from secrets and the environment, the prompt builders, the week-plan rendering and `datetime.now()` are not modelled: they are I/O, clock, or literal text templates.
- The `st.error` messages are not modelled; only the decision to show them is.
- Text export (both scripts): the final `"\n".join` is stated with the `Join` function rather than with a loop, as the library call it is.

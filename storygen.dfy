/** The standard generator (Storygen.py): its decoder, the check that turns
    a falsy decode into "show the raw output", and the plain-text export
    `make_export_text`. */
module Storygen {
  import opened JsonValue
  import opened Strings
  import opened Completion
  import opened StoryView

  /** `safe_json_loads`: the parsed value, or `None` when parsing raises. */
  function SafeJsonLoads(parse: Parser, text: string): JVal
  {
    parse(text).GetOr(JNull)
  }

  /** What `generate_single_story` (and `generate_week_plan`) return. */
  datatype Generated = Generated(data: JVal, raw: string)

  function GenerateSingleStory(parse: Parser, content: Option<string>): Generated
  {
    var text := ContentText(content);
    Generated(SafeJsonLoads(parse, text), text)
  }

  /** What the page does with a generation: show the raw text as a failure,
      or go on to render the decoded story. */
  datatype Screen = ShowRaw(raw: string) | ShowStory(data: JVal)

  /** `if not data: st.error(…); st.code(raw); st.stop()`. */
  function AfterGeneration(parse: Parser, content: Option<string>): Screen
  {
    var g := GenerateSingleStory(parse, content);
    if !Truthy(g.data) then ShowRaw(g.raw) else ShowStory(g.data)
  }

  /** The story is rendered exactly when the reply text parses to a truthy
      value, and then it is that value; otherwise the reply text itself is
      shown, with missing content shown as `{}`. */
  lemma GenerationScreen(parse: Parser, content: Option<string>)
    ensures var text := ContentText(content);
      && (AfterGeneration(parse, content).ShowStory? <==> parse(text).Some? && Truthy(parse(text).value))
      && (AfterGeneration(parse, content).ShowStory? ==> Some(AfterGeneration(parse, content).data) == parse(text))
      && (AfterGeneration(parse, content).ShowRaw? ==> AfterGeneration(parse, content).raw == text)
  {
  }

  /** An empty reply decodes to `{}`, which is falsy: the page reports a
      failure and shows `{}`. */
  lemma EmptyReplyShowsRaw(parse: Parser)
    requires parse("{}") == Some(JObj(map[]))
    ensures AfterGeneration(parse, None) == ShowRaw("{}")
    ensures AfterGeneration(parse, Some("")) == ShowRaw("{}")
  {
  }

  const DefaultSafety: string := "Keine Diagnose. Bei akuter Gefahr Hilfe holen."

  /** A slide `make_export_text` can render: a dict whose headline and body,
      appended as they are, are strings, and whose other fields are scalars. */
  predicate SlideShaped(s: JVal)
  {
    && s.JObj?
    && ScalarOrAbsent(s, "slide_no")
    && StrOrAbsent(s, "headline")
    && StrOrAbsent(s, "body")
    && ScalarOrAbsent(s, "sticker_suggestion")
    && ScalarOrAbsent(s, "visual_suggestion")
  }

  /** A `poll_or_question` value: falsy, or a dict whose options, when
      truthy, are a list of strings. */
  predicate PollShaped(pq: JVal)
  {
    || !Truthy(pq)
    || (&& pq.JObj?
        && ScalarOrAbsent(pq, "type")
        && ScalarOrAbsent(pq, "prompt")
        && var o := Get(pq, "options", JNull); !Truthy(o) || (o.JArr? && AllStr(o.items)))
  }

  /** A story record `make_export_text` renders without raising. */
  predicate ExportShaped(data: JVal)
  {
    && data.JObj?
    && ScalarOrAbsent(data, "title_hook")
    && ListOrAbsent(data, "slides")
    && (forall i :: 0 <= i < |ListField(data, "slides")| ==> SlideShaped(ListField(data, "slides")[i]))
    && ListOrAbsent(data, "caption_variants") && AllScalar(ListField(data, "caption_variants"))
    && ListOrAbsent(data, "cta_options") && AllScalar(ListField(data, "cta_options"))
    && PollShaped(Get(data, "poll_or_question", JObj(map[])))
    && ListOrAbsent(data, "hashtags") && AllStr(ListField(data, "hashtags"))
    && StrOrAbsent(data, "safety_note")
  }

  /** The five lines of one slide; a missing `slide_no` renders empty. */
  function SlideBlock(s: JVal): seq<string>
    requires SlideShaped(s)
  {
    [ "--- SLIDE " + Interp(s, "slide_no", "") + " ---",
      RawStr(s, "headline", ""),
      RawStr(s, "body", ""),
      "[Sticker] " + Interp(s, "sticker_suggestion", ""),
      "[Visual] " + Interp(s, "visual_suggestion", "") + "\n" ]
  }

  function SlideBlocks(slides: seq<JVal>): seq<seq<string>>
    requires forall i :: 0 <= i < |slides| ==> SlideShaped(slides[i])
  {
    seq(|slides|, i requires 0 <= i < |slides| => SlideBlock(slides[i]))
  }

  /** `- item` for each item, in order. */
  function Bullets(items: seq<JVal>): seq<string>
    requires AllScalar(items)
  {
    seq(|items|, i requires 0 <= i < |items| => "- " + Show(items[i]))
  }

  /** The INTERAKTION section: nothing for a falsy value; otherwise type and
      prompt, and the options joined by ", " when they are truthy. */
  function PollLines(pq: JVal): seq<string>
    requires PollShaped(pq)
  {
    if !Truthy(pq) then []
    else
      var o := Get(pq, "options", JNull);
      ["\nINTERAKTION:", "- Typ: " + Interp(pq, "type", ""), "- Prompt: " + Interp(pq, "prompt", "")]
      + (if Truthy(o) then ["- Optionen: " + Join(Strs(o.items), ", ")] else [])
  }

  function Slides(data: JVal): seq<JVal>
    requires ExportShaped(data)
  {
    ListField(data, "slides")
  }

  function Poll(data: JVal): JVal
    requires ExportShaped(data)
  {
    Get(data, "poll_or_question", JObj(map[]))
  }

  function HookLine(data: JVal): string
    requires ExportShaped(data)
  {
    "HOOK: " + Interp(data, "title_hook", "") + "\n"
  }

  /** The export's sections, each already rendered: the hook line, the five
      lines of each slide, one line per caption and per CTA, the INTERAKTION
      lines, the hashtag line and the safety note. */
  datatype ExportParts = ExportParts(
    hook: string, slides: seq<seq<string>>, captions: seq<string>, ctas: seq<string>,
    poll: seq<string>, hashtags: string, safety: string)

  /** Every slide renders to five lines. */
  predicate FiveLineSlides(p: ExportParts)
  {
    forall k :: 0 <= k < |p.slides| ==> |p.slides[k]| == 5
  }

  /** The sections in the order `make_export_text` appends them, with the
      CAPTIONS, CTA, HASHTAGS and SAFETY headings between them. */
  function Layout(p: ExportParts): seq<string>
  {
    [p.hook] + Concat(p.slides) + (["CAPTIONS:"] + p.captions) + (["\nCTA:"] + p.ctas)
    + p.poll + ["\nHASHTAGS:", p.hashtags, "\nSAFETY:", p.safety]
  }

  /** How `make_export_text` renders each section of a story record. */
  function Parts(data: JVal): ExportParts
    requires ExportShaped(data)
  {
    ExportParts(
      HookLine(data), SlideBlocks(Slides(data)),
      Bullets(ListField(data, "caption_variants")), Bullets(ListField(data, "cta_options")),
      PollLines(Poll(data)), HashtagLine(ListField(data, "hashtags")),
      RawStr(data, "safety_note", DefaultSafety))
  }

  /** The list `make_export_text` joins with newlines. */
  function ExportLines(data: JVal): seq<string>
    requires ExportShaped(data)
  {
    Layout(Parts(data))
  }

  /** `make_export_text`: the lines are appended one section at a time. */
  method MakeExportText(data: JVal) returns (text: string)
    requires ExportShaped(data)
    ensures text == Join(ExportLines(data), "\n")
  {
    var lines := ["HOOK: " + Interp(data, "title_hook", "") + "\n"];
    lines := AppendSlides(lines, ListField(data, "slides"));
    lines := AppendBullets(lines, "CAPTIONS:", ListField(data, "caption_variants"));
    lines := AppendBullets(lines, "\nCTA:", ListField(data, "cta_options"));
    lines := AppendPoll(lines, Get(data, "poll_or_question", JObj(map[])));
    lines := AppendClosing(lines, data);
    text := Join(lines, "\n");
  }

  /** The HASHTAGS and SAFETY headings, each followed by its line. */
  method AppendClosing(lines: seq<string>, data: JVal) returns (out: seq<string>)
    requires ExportShaped(data)
    ensures out == lines + ["\nHASHTAGS:", HashtagLine(ListField(data, "hashtags")),
                            "\nSAFETY:", RawStr(data, "safety_note", DefaultSafety)]
  {
    out := lines + ["\nHASHTAGS:"];
    out := out + [HashtagLine(ListField(data, "hashtags"))];
    out := out + ["\nSAFETY:"];
    out := out + [RawStr(data, "safety_note", DefaultSafety)];
  }

  /** `for s in slides:` the five lines of each slide. */
  method AppendSlides(lines: seq<string>, slides: seq<JVal>) returns (out: seq<string>)
    requires forall i :: 0 <= i < |slides| ==> SlideShaped(slides[i])
    ensures out == lines + Concat(SlideBlocks(slides))
  {
    out := lines;
    var i := 0;
    while i < |slides|
      invariant i <= |slides|
      invariant out == lines + Concat(SlideBlocks(slides)[..i])
    {
      assert SlideBlocks(slides)[..i + 1][..i] == SlideBlocks(slides)[..i];
      out := AppendSlide(out, slides[i]);
      i := i + 1;
    }
    assert SlideBlocks(slides)[..i] == SlideBlocks(slides);
  }

  /** The five appends of one slide. */
  method AppendSlide(lines: seq<string>, s: JVal) returns (out: seq<string>)
    requires SlideShaped(s)
    ensures out == lines + SlideBlock(s)
  {
    out := lines + ["--- SLIDE " + Interp(s, "slide_no", "") + " ---"];
    out := out + [RawStr(s, "headline", "")];
    out := out + [RawStr(s, "body", "")];
    out := out + ["[Sticker] " + Interp(s, "sticker_suggestion", "")];
    out := out + ["[Visual] " + Interp(s, "visual_suggestion", "") + "\n"];
  }

  /** `if pq:` the INTERAKTION lines, with the options line `if pq.get("options")`. */
  method AppendPoll(lines: seq<string>, pq: JVal) returns (out: seq<string>)
    requires PollShaped(pq)
    ensures out == lines + PollLines(pq)
  {
    out := lines;
    if Truthy(pq) {
      out := out + ["\nINTERAKTION:"];
      out := out + ["- Typ: " + Interp(pq, "type", "")];
      out := out + ["- Prompt: " + Interp(pq, "prompt", "")];
      var o := Get(pq, "options", JNull);
      if Truthy(o) {
        out := out + ["- Optionen: " + Join(Strs(o.items), ", ")];
      }
    }
  }

  /** A heading, then `for c in items: lines.append(f"- {c}")`. */
  method AppendBullets(lines: seq<string>, heading: string, items: seq<JVal>) returns (out: seq<string>)
    requires AllScalar(items)
    ensures out == lines + ([heading] + Bullets(items))
  {
    out := lines + [heading];
    var j := 0;
    while j < |items|
      invariant j <= |items|
      invariant out == lines + ([heading] + Bullets(items[..j]))
    {
      assert Bullets(items[..j + 1]) == Bullets(items[..j]) + ["- " + Show(items[j])];
      out := out + ["- " + Show(items[j])];
      j := j + 1;
    }
    assert items[..j] == items;
  }

  /** The layout opens with the hook line, holds five lines per slide, then
      the CAPTIONS heading and one line per caption, the CTA heading and one
      line per CTA, the INTERAKTION lines, and closes with the HASHTAGS
      heading, the hashtag line, the SAFETY heading and the safety note. */
  lemma LayoutFrame(p: ExportParts)
    requires FiveLineSlides(p)
    ensures var e := Layout(p);
      && |e| == 1 + 5 * |p.slides| + 1 + |p.captions| + 1 + |p.ctas| + |p.poll| + 4
      && e[0] == p.hook
      && e[|e| - 4] == "\nHASHTAGS:" && e[|e| - 3] == p.hashtags
      && e[|e| - 2] == "\nSAFETY:" && e[|e| - 1] == p.safety
  {
    ConcatLength(p.slides, 5);
  }

  /** Line `j` of slide `k` is line `1 + 5k + j` of the layout. */
  lemma LayoutSlideLine(p: ExportParts, k: nat, j: nat)
    requires FiveLineSlides(p) && k < |p.slides| && j < 5
    ensures 1 + 5 * k + j < |Layout(p)| && Layout(p)[1 + 5 * k + j] == p.slides[k][j]
  {
    var x := 5 * k + j;
    ConcatAt(p.slides, 5, k, j);
    var front := [p.hook] + Concat(p.slides);
    assert front[1 + x] == Concat(p.slides)[x];
    var rest := (["CAPTIONS:"] + p.captions) + (["\nCTA:"] + p.ctas) + p.poll
                + ["\nHASHTAGS:", p.hashtags, "\nSAFETY:", p.safety];
    assert Layout(p) == front + rest;
  }

  /** The CAPTIONS heading follows the slides, then caption `i` at line
      `2 + 5n + i`, in order. */
  lemma LayoutCaptionLines(p: ExportParts)
    requires FiveLineSlides(p)
    ensures var m := 1 + 5 * |p.slides|;
      && m + 1 + |p.captions| <= |Layout(p)|
      && Layout(p)[m] == "CAPTIONS:"
      && forall i :: 0 <= i < |p.captions| ==> Layout(p)[m + 1 + i] == p.captions[i]
  {
    ConcatLength(p.slides, 5);
    var front := [p.hook] + Concat(p.slides);
    var section := ["CAPTIONS:"] + p.captions;
    var rest := (["\nCTA:"] + p.ctas) + p.poll + ["\nHASHTAGS:", p.hashtags, "\nSAFETY:", p.safety];
    assert Layout(p) == front + section + rest;
    SectionAt(front, section, rest);
  }

  /** The CTA heading follows the captions, then CTA `i` on the line `i + 1`
      after it, in order. */
  lemma LayoutCtaLines(p: ExportParts)
    requires FiveLineSlides(p)
    ensures var m := 2 + 5 * |p.slides| + |p.captions|;
      && m + 1 + |p.ctas| <= |Layout(p)|
      && Layout(p)[m] == "\nCTA:"
      && forall i :: 0 <= i < |p.ctas| ==> Layout(p)[m + 1 + i] == p.ctas[i]
  {
    ConcatLength(p.slides, 5);
    var front := [p.hook] + Concat(p.slides) + (["CAPTIONS:"] + p.captions);
    var section := ["\nCTA:"] + p.ctas;
    var rest := p.poll + ["\nHASHTAGS:", p.hashtags, "\nSAFETY:", p.safety];
    assert Layout(p) == front + section + rest;
    SectionAt(front, section, rest);
  }

  /** The INTERAKTION lines follow the CTAs, and the HASHTAGS heading follows
      them. */
  lemma LayoutPollLines(p: ExportParts)
    requires FiveLineSlides(p)
    ensures var m := 3 + 5 * |p.slides| + |p.captions| + |p.ctas|;
      && m + |p.poll| < |Layout(p)|
      && (forall i :: 0 <= i < |p.poll| ==> Layout(p)[m + i] == p.poll[i])
      && Layout(p)[m + |p.poll|] == "\nHASHTAGS:"
  {
    ConcatLength(p.slides, 5);
    var front := [p.hook] + Concat(p.slides) + (["CAPTIONS:"] + p.captions) + (["\nCTA:"] + p.ctas);
    var rest := ["\nHASHTAGS:", p.hashtags, "\nSAFETY:", p.safety];
    assert Layout(p) == front + p.poll + rest;
    SectionAt(front, p.poll, rest);
    assert Layout(p)[|front| + |p.poll|] == rest[0];
  }

  /** Line `i` of a middle section is line `|front| + i` of the whole. */
  lemma SectionAt(front: seq<string>, section: seq<string>, rest: seq<string>)
    ensures forall i :: 0 <= i < |section| ==> (front + section + rest)[|front| + i] == section[i]
  {
  }

  /** How a story record renders: the hook line, the five lines of each
      slide, `- item` per caption and per CTA in input order, the
      INTERAKTION lines, and the safety note or its default. */
  lemma RenderedParts(data: JVal)
    requires ExportShaped(data)
    ensures var p, slides := Parts(data), Slides(data);
      && FiveLineSlides(p)
      && p.hook == "HOOK: " + Interp(data, "title_hook", "") + "\n"
      && |p.slides| == |slides|
      && (forall k :: 0 <= k < |slides| ==> p.slides[k] == SlideBlock(slides[k]))
      && |p.captions| == |ListField(data, "caption_variants")|
      && (forall i :: 0 <= i < |p.captions| ==> p.captions[i] == "- " + Show(ListField(data, "caption_variants")[i]))
      && |p.ctas| == |ListField(data, "cta_options")|
      && (forall i :: 0 <= i < |p.ctas| ==> p.ctas[i] == "- " + Show(ListField(data, "cta_options")[i]))
      && p.poll == PollLines(Poll(data))
      && p.safety == (if "safety_note" in data.fields then data.fields["safety_note"].s else DefaultSafety)
  {
  }

  /** Unlike the on-screen view, the export shows an empty slide number, not
      the slide's position, when `slide_no` is missing. */
  lemma ExportSlideHeader(s: JVal)
    requires SlideShaped(s) && "slide_no" !in s.fields
    ensures SlideBlock(s)[0] == "--- SLIDE  ---"
  {
  }

  /** The INTERAKTION section is there exactly when `poll_or_question` is
      truthy; it opens with its heading, and has an options line exactly when
      the options are truthy, listing them separated by ", ". */
  lemma PollSection(pq: JVal)
    requires PollShaped(pq)
    ensures |PollLines(pq)| > 0 <==> Truthy(pq)
    ensures Truthy(pq) ==>
      var o := Get(pq, "options", JNull);
      && PollLines(pq)[0] == "\nINTERAKTION:"
      && (|PollLines(pq)| == 4 <==> Truthy(o))
      && (Truthy(o) ==> PollLines(pq)[3] == "- Optionen: " + Join(Strs(o.items), ", "))
  {
  }

  /** The line after the CTAs opens the INTERAKTION section exactly when the
      rendered INTERAKTION lines do, which `PollSection` says happens exactly
      for a truthy `poll_or_question`; otherwise it is the HASHTAGS heading. */
  lemma LayoutPollHeading(p: ExportParts)
    requires FiveLineSlides(p)
    requires p.poll == [] || p.poll[0] == "\nINTERAKTION:"
    ensures var at := 3 + 5 * |p.slides| + |p.captions| + |p.ctas|;
      && at < |Layout(p)|
      && (Layout(p)[at] == "\nINTERAKTION:" <==> p.poll != [])
      && (p.poll == [] ==> Layout(p)[at] == "\nHASHTAGS:")
  {
    LayoutPollLines(p);
    var at := 3 + 5 * |p.slides| + |p.captions| + |p.ctas|;
    if p.poll != [] {
      assert Layout(p)[at + 0] == p.poll[0];
    } else {
      assert at + |p.poll| == at;
      assert "\nHASHTAGS:"[1] != "\nINTERAKTION:"[1];
    }
  }
}

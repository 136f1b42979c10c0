/** `make_enhanced_export` of the viral generator (Storygenv2.py): a banner
    framed text export with six lines per slide and numbered caption
    variants, a CSV export with one row per slide, and the JSON dump. */
module ViralExport {
  import opened JsonValue
  import opened Strings

  /** `"=" * n`. */
  function Rule(n: nat): string
  {
    Repeat('=', n)
  }

  /** A slide the text export can interpolate: a dict of scalars. */
  predicate TxtSlideShaped(s: JVal)
  {
    && s.JObj?
    && ScalarOrAbsent(s, "slide_no")
    && ScalarOrAbsent(s, "headline")
    && ScalarOrAbsent(s, "body")
    && ScalarOrAbsent(s, "engagement_tip")
    && ScalarOrAbsent(s, "sticker_suggestion")
    && ScalarOrAbsent(s, "visual_suggestion")
  }

  /** A story record the text export renders without raising. */
  predicate TxtShaped(data: JVal)
  {
    && data.JObj?
    && ScalarOrAbsent(data, "title_hook")
    && ScalarOrAbsent(data, "viral_score")
    && ListOrAbsent(data, "slides")
    && (forall i :: 0 <= i < |ListField(data, "slides")| ==> TxtSlideShaped(ListField(data, "slides")[i]))
    && ListOrAbsent(data, "caption_variants") && AllScalar(ListField(data, "caption_variants"))
    && ListOrAbsent(data, "cta_options") && AllScalar(ListField(data, "cta_options"))
  }

  /** The banner, the hook, the viral score (`N/A` when missing) and the
      slide banner. */
  function TxtHeader(data: JVal): seq<string>
    requires TxtShaped(data)
  {
    [ Rule(50),
      "\U{1F525} VIRAL INSTAGRAM STORY - EXPORT",
      Rule(50),
      "\n\U{1F3AF} HOOK: " + Interp(data, "title_hook", ""),
      "\U{1F4C8} VIRAL SCORE: " + Interp(data, "viral_score", "N/A") + "/100",
      "\n" + Rule(30),
      "\U{1F3AC} STORY SLIDES",
      Rule(30) ]
  }

  /** The six lines of one slide; a missing field renders empty. */
  function TxtSlideBlock(s: JVal): seq<string>
    requires TxtSlideShaped(s)
  {
    [ "\n--- SLIDE " + Interp(s, "slide_no", "") + " ---",
      "\U{1F4CC} " + Interp(s, "headline", ""),
      Interp(s, "body", ""),
      "\U{1F3AF} Engagement-Tipp: " + Interp(s, "engagement_tip", ""),
      "\U{1F504} Sticker: " + Interp(s, "sticker_suggestion", ""),
      "\U{1F3A8} Visual: " + Interp(s, "visual_suggestion", "") ]
  }

  function TxtSlideBlocks(slides: seq<JVal>): seq<seq<string>>
    requires forall i :: 0 <= i < |slides| ==> TxtSlideShaped(slides[i])
  {
    seq(|slides|, i requires 0 <= i < |slides| => TxtSlideBlock(slides[i]))
  }

  /** The caption at 0-based position `i` is variant `i + 1`. */
  function VariantLine(i: nat, caption: JVal): string
    requires IsScalar(caption)
  {
    "\nVariante " + NatToString(i + 1) + ": " + Show(caption)
  }

  function Variants(captions: seq<JVal>): seq<string>
    requires AllScalar(captions)
  {
    seq(|captions|, i requires 0 <= i < |captions| => VariantLine(i, captions[i]))
  }

  function CtaLines(ctas: seq<JVal>): seq<string>
    requires AllScalar(ctas)
  {
    seq(|ctas|, i requires 0 <= i < |ctas| => "\U{2022} " + Show(ctas[i]))
  }

  const CaptionBanner: seq<string> := Banner("\U{1F4DD} CAPTION VARIANTS")
  const CtaBanner: seq<string> := Banner("\U{1F3AF} CTA OPTIONS")

  function TxtSlides(data: JVal): seq<JVal>
    requires TxtShaped(data)
  {
    ListField(data, "slides")
  }

  /** The text export's sections, each already rendered: the eight header
      lines, the six lines of each slide, one line per caption variant and
      one per CTA. */
  datatype TxtParts = TxtParts(header: seq<string>, slides: seq<seq<string>>, variants: seq<string>, ctas: seq<string>)

  /** Every slide renders to six lines. */
  predicate SixLineSlides(p: TxtParts)
  {
    forall k :: 0 <= k < |p.slides| ==> |p.slides[k]| == 6
  }

  /** The sections in the order the `txt` branch appends them, with the
      caption and CTA banners between them. */
  function TxtLayout(p: TxtParts): seq<string>
  {
    p.header + Concat(p.slides) + CaptionBanner + p.variants + CtaBanner + p.ctas
  }

  /** How the `txt` branch renders each section of a story record. */
  function TxtPartsOf(data: JVal): TxtParts
    requires TxtShaped(data)
  {
    TxtParts(TxtHeader(data), TxtSlideBlocks(TxtSlides(data)),
             Variants(ListField(data, "caption_variants")), CtaLines(ListField(data, "cta_options")))
  }

  /** The list the `txt` branch joins with newlines. */
  function TxtLines(data: JVal): seq<string>
    requires TxtShaped(data)
  {
    TxtLayout(TxtPartsOf(data))
  }

  /** The `txt` branch (lines 356-388). */
  method MakeTxtExport(data: JVal) returns (text: string)
    requires TxtShaped(data)
    ensures text == Join(TxtLines(data), "\n")
  {
    var lines := TxtHeaderLines(data);
    lines := AppendTxtSlides(lines, ListField(data, "slides"));
    lines := AppendBanner(lines, "\U{1F4DD} CAPTION VARIANTS");
    lines := AppendVariants(lines, ListField(data, "caption_variants"));
    lines := AppendBanner(lines, "\U{1F3AF} CTA OPTIONS");
    lines := AppendCtas(lines, ListField(data, "cta_options"));
    text := Join(lines, "\n");
  }

  /** The eight appends that open the `txt` branch. */
  method TxtHeaderLines(data: JVal) returns (lines: seq<string>)
    requires TxtShaped(data)
    ensures lines == TxtHeader(data)
  {
    lines := [];
    lines := lines + [Rule(50)];
    lines := lines + ["\U{1F525} VIRAL INSTAGRAM STORY - EXPORT"];
    lines := lines + [Rule(50)];
    lines := lines + ["\n\U{1F3AF} HOOK: " + Interp(data, "title_hook", "")];
    lines := lines + ["\U{1F4C8} VIRAL SCORE: " + Interp(data, "viral_score", "N/A") + "/100"];
    lines := lines + ["\n" + Rule(30)];
    lines := lines + ["\U{1F3AC} STORY SLIDES"];
    lines := lines + [Rule(30)];
  }

  /** A section title between two rules of thirty `=`. */
  function Banner(title: string): seq<string>
  {
    ["\n" + Rule(30), title, Rule(30)]
  }

  method AppendBanner(lines: seq<string>, title: string) returns (out: seq<string>)
    ensures out == lines + Banner(title)
  {
    out := lines + ["\n" + Rule(30)];
    out := out + [title];
    out := out + [Rule(30)];
  }

  /** `for slide in data.get("slides", []):` the six lines of each slide. */
  method AppendTxtSlides(lines: seq<string>, slides: seq<JVal>) returns (out: seq<string>)
    requires forall i :: 0 <= i < |slides| ==> TxtSlideShaped(slides[i])
    ensures out == lines + Concat(TxtSlideBlocks(slides))
  {
    out := lines;
    var i := 0;
    while i < |slides|
      invariant i <= |slides|
      invariant out == lines + Concat(TxtSlideBlocks(slides)[..i])
    {
      assert TxtSlideBlocks(slides)[..i + 1][..i] == TxtSlideBlocks(slides)[..i];
      out := AppendTxtSlide(out, slides[i]);
      i := i + 1;
    }
    assert TxtSlideBlocks(slides)[..i] == TxtSlideBlocks(slides);
  }

  /** The six appends of one slide. */
  method AppendTxtSlide(lines: seq<string>, s: JVal) returns (out: seq<string>)
    requires TxtSlideShaped(s)
    ensures out == lines + TxtSlideBlock(s)
  {
    out := lines + ["\n--- SLIDE " + Interp(s, "slide_no", "") + " ---"];
    out := out + ["\U{1F4CC} " + Interp(s, "headline", "")];
    out := out + [Interp(s, "body", "")];
    out := out + ["\U{1F3AF} Engagement-Tipp: " + Interp(s, "engagement_tip", "")];
    out := out + ["\U{1F504} Sticker: " + Interp(s, "sticker_suggestion", "")];
    out := out + ["\U{1F3A8} Visual: " + Interp(s, "visual_suggestion", "")];
  }

  /** `for i, caption in enumerate(…): lines.append(f"\nVariante {i+1}: {caption}")`. */
  method AppendVariants(lines: seq<string>, captions: seq<JVal>) returns (out: seq<string>)
    requires AllScalar(captions)
    ensures out == lines + Variants(captions)
  {
    out := lines;
    var i := 0;
    while i < |captions|
      invariant i <= |captions|
      invariant out == lines + Variants(captions[..i])
    {
      assert Variants(captions[..i + 1]) == Variants(captions[..i]) + [VariantLine(i, captions[i])];
      out := out + ["\nVariante " + NatToString(i + 1) + ": " + Show(captions[i])];
      i := i + 1;
    }
    assert captions[..i] == captions;
  }

  /** `for cta in …: lines.append(f"• {cta}")`. */
  method AppendCtas(lines: seq<string>, ctas: seq<JVal>) returns (out: seq<string>)
    requires AllScalar(ctas)
    ensures out == lines + CtaLines(ctas)
  {
    out := lines;
    var i := 0;
    while i < |ctas|
      invariant i <= |ctas|
      invariant out == lines + CtaLines(ctas[..i])
    {
      assert CtaLines(ctas[..i + 1]) == CtaLines(ctas[..i]) + ["\U{2022} " + Show(ctas[i])];
      out := out + ["\U{2022} " + Show(ctas[i])];
      i := i + 1;
    }
    assert ctas[..i] == ctas;
  }

  /** The text export is eight header lines, six lines per slide, the
      caption banner and one line per caption, the CTA banner and one line
      per CTA; it opens with fifty `=`. */
  lemma TxtFrame(data: JVal)
    requires TxtShaped(data)
    ensures var e := TxtLines(data);
      && |e| == 8 + 6 * |TxtSlides(data)| + 3 + |ListField(data, "caption_variants")| + 3 + |ListField(data, "cta_options")|
      && e[0] == Rule(50) && |e[0]| == 50
      && e[7] == Rule(30)
  {
    ConcatLength(TxtSlideBlocks(TxtSlides(data)), 6);
  }

  /** Line `j` of slide `k` is line `8 + 6k + j` of the layout: the slides
      appear in order, six lines each. */
  lemma TxtLayoutSlideLine(p: TxtParts, k: nat, j: nat)
    requires |p.header| == 8 && SixLineSlides(p)
    requires k < |p.slides| && j < 6
    ensures 8 + 6 * k + j < |TxtLayout(p)| && TxtLayout(p)[8 + 6 * k + j] == p.slides[k][j]
  {
    var x := 6 * k + j;
    ConcatAt(p.slides, 6, k, j);
    var front := p.header + Concat(p.slides);
    assert front[8 + x] == Concat(p.slides)[x];
    var rest := CaptionBanner + p.variants + CtaBanner + p.ctas;
    assert TxtLayout(p) == front + rest;
  }

  /** A slide without fields renders as the six bare labels. */
  lemma TxtEmptySlide()
    ensures TxtSlideBlock(JObj(map[])) ==
      ["\n--- SLIDE  ---", "\U{1F4CC} ", "", "\U{1F3AF} Engagement-Tipp: ", "\U{1F504} Sticker: ", "\U{1F3A8} Visual: "]
  {
    var s := JObj(map[]);
    assert Interp(s, "slide_no", "") == "" && Interp(s, "headline", "") == "" && Interp(s, "body", "") == "";
    assert Interp(s, "engagement_tip", "") == "" && Interp(s, "sticker_suggestion", "") == "";
    assert Interp(s, "visual_suggestion", "") == "";
    assert "\U{1F4CC} " + "" == "\U{1F4CC} ";
    assert "\U{1F3AF} Engagement-Tipp: " + "" == "\U{1F3AF} Engagement-Tipp: ";
    assert "\U{1F504} Sticker: " + "" == "\U{1F504} Sticker: ";
    assert "\U{1F3A8} Visual: " + "" == "\U{1F3A8} Visual: ";
    assert "\n--- SLIDE " + "" + " ---" == "\n--- SLIDE  ---";
  }

  /** Variant `i` follows the slides and the caption banner, in order. */
  lemma TxtLayoutVariant(p: TxtParts, i: nat)
    requires |p.header| == 8 && SixLineSlides(p)
    requires i < |p.variants|
    ensures var at := 8 + 6 * |p.slides| + 3 + i;
      at < |TxtLayout(p)| && TxtLayout(p)[at] == p.variants[i]
  {
    ConcatLength(p.slides, 6);
    var front := p.header + Concat(p.slides) + CaptionBanner;
    var rest := CtaBanner + p.ctas;
    assert TxtLayout(p) == front + p.variants + rest;
  }

  /** How a story record renders: the eight header lines, the six lines of
      each slide, caption `i` as variant `i + 1`, and `• cta` per CTA, all in
      input order. */
  lemma TxtRendered(data: JVal)
    requires TxtShaped(data)
    ensures var p, slides := TxtPartsOf(data), TxtSlides(data);
      && |p.header| == 8 && SixLineSlides(p)
      && |p.slides| == |slides|
      && (forall k :: 0 <= k < |slides| ==> p.slides[k] == TxtSlideBlock(slides[k]))
      && |p.variants| == |ListField(data, "caption_variants")|
      && (forall i :: 0 <= i < |p.variants| ==>
            p.variants[i] == "\nVariante " + NatToString(i + 1) + ": " + Show(ListField(data, "caption_variants")[i]))
      && |p.ctas| == |ListField(data, "cta_options")|
      && (forall i :: 0 <= i < |p.ctas| ==> p.ctas[i] == "\U{2022} " + Show(ListField(data, "cta_options")[i]))
  {
  }

  /** Different numbers have different decimal renderings, so no two
      caption variants carry the same number. */
  lemma {:induction false} NatToStringInjective(a: nat, b: nat)
    requires a != b
    ensures NatToString(a) != NatToString(b)
    decreases a + b
  {
    if a >= 10 && b >= 10 {
      var sa, sb := NatToString(a), NatToString(b);
      if sa == sb {
        assert sa[|sa| - 1] == Digit(a % 10) && sb[|sb| - 1] == Digit(b % 10);
        DigitInjective(a % 10, b % 10);
        assert sa[..|sa| - 1] == NatToString(a / 10);
        assert sb[..|sb| - 1] == NatToString(b / 10);
        NatToStringInjective(a / 10, b / 10);
      }
    } else if a < 10 && b < 10 {
      DigitInjective(a, b);
    } else {
      assert |NatToString(a)| != |NatToString(b)| by {
        if a >= 10 {
          assert |NatToString(a)| == |NatToString(a / 10)| + 1;
        } else {
          assert |NatToString(b)| == |NatToString(b / 10)| + 1;
        }
      }
    }
  }

  lemma DigitInjective(a: nat, b: nat)
    requires a < 10 && b < 10
    ensures Digit(a) == Digit(b) <==> a == b
  {
  }

  /** The CSV header. */
  const CsvHeader: seq<JVal> := [JStr("Slide"), JStr("Headline"), JStr("Body"), JStr("Sticker"), JStr("Visual")]

  /** One CSV row: the five fields of a slide, `''` where one is missing.
      The values are kept as decoded; how `csv.writer` turns them into text
      is not part of this model. */
  function CsvRow(slide: JVal): seq<JVal>
    requires slide.JObj?
  {
    [ Get(slide, "slide_no", JStr("")),
      Get(slide, "headline", JStr("")),
      Get(slide, "body", JStr("")),
      Get(slide, "sticker_suggestion", JStr("")),
      Get(slide, "visual_suggestion", JStr("")) ]
  }

  /** A story record the CSV export handles: a dict whose slides are dicts. */
  predicate CsvShaped(data: JVal)
  {
    data.JObj? && ListOrAbsent(data, "slides") && AllObj(ListField(data, "slides"))
  }

  /** The `csv` branch (lines 393-411): the fixed five-column header, then
      exactly one row per slide, in order. */
  method WriteCsvRows(data: JVal) returns (rows: seq<seq<JVal>>)
    requires CsvShaped(data)
    ensures |rows| == 1 + |ListField(data, "slides")|
    ensures rows[0] == CsvHeader
    ensures forall i :: 1 <= i < |rows| ==> rows[i] == CsvRow(ListField(data, "slides")[i - 1])
  {
    rows := [CsvHeader];
    var slides := ListField(data, "slides");
    var i := 0;
    while i < |slides|
      invariant i <= |slides|
      invariant |rows| == 1 + i && rows[0] == CsvHeader
      invariant forall k :: 1 <= k < |rows| ==> rows[k] == CsvRow(slides[k - 1])
    {
      var slide := slides[i];
      rows := rows + [[ Get(slide, "slide_no", JStr("")),
                        Get(slide, "headline", JStr("")),
                        Get(slide, "body", JStr("")),
                        Get(slide, "sticker_suggestion", JStr("")),
                        Get(slide, "visual_suggestion", JStr("")) ]];
      i := i + 1;
    }
  }

  /** What `make_enhanced_export` returns for each format. `JsonDump`
      stands for `json.dumps(data, …)`, whose text is not modelled. */
  datatype Export = TextExport(text: string) | CsvExport(rows: seq<seq<JVal>>) | JsonDump(value: JVal) | NoExport

  /** `make_enhanced_export`: any format other than `txt`, `json` and `csv`
      falls off the end and returns `None`. */
  method MakeEnhancedExport(data: JVal, format: string) returns (r: Export)
    requires format == "txt" ==> TxtShaped(data)
    requires format == "csv" ==> CsvShaped(data)
    ensures format == "txt" ==> r == TextExport(Join(TxtLines(data), "\n"))
    ensures format == "json" ==> r == JsonDump(data)
    ensures format == "csv" ==> r.CsvExport? && |r.rows| == 1 + |ListField(data, "slides")| && r.rows[0] == CsvHeader
    ensures format == "csv" ==> forall i :: 1 <= i < |r.rows| ==> r.rows[i] == CsvRow(ListField(data, "slides")[i - 1])
    ensures format != "txt" && format != "json" && format != "csv" <==> r == NoExport
  {
    if format == "txt" {
      var text := MakeTxtExport(data);
      r := TextExport(text);
    } else if format == "json" {
      r := JsonDump(data);
    } else if format == "csv" {
      var rows := WriteCsvRows(data);
      r := CsvExport(rows);
    } else {
      r := NoExport;
    }
  }
}

/** Display rules both scripts share: hashtag normalisation
    (`f"#{h.strip('#')}"` joined with spaces), the slide index shown above
    each slide (`slide.get('slide_no', position)`), and the placement of
    slides in the three-column grid of the standard view and the two-column
    grid of the viral view. */
module StoryView {
  import opened JsonValue
  import opened Strings

  /** One rendered hashtag: a single `#` followed by the tag without any
      leading or trailing `#`. */
  function Tag(h: string): (r: string)
    ensures |r| > 0 && r[0] == '#'
    ensures |r| == 1 || (r[1] != '#' && r[|r| - 1] != '#')
    ensures exists a: nat :: StripsTo(h, '#', a, r[1..])
  {
    var core := Strip(h, '#');
    assert ("#" + core)[1..] == core;
    "#" + core
  }

  /** The rendered tags of a `hashtags` list, in input order. */
  function Tags(hs: seq<JVal>): seq<string>
    requires AllStr(hs)
  {
    seq(|hs|, i requires 0 <= i < |hs| => Tag(hs[i].s))
  }

  /** `" ".join(f"#{h.strip('#')}" for h in hashtags)`. */
  function HashtagLine(hs: seq<JVal>): string
    requires AllStr(hs)
  {
    Join(Tags(hs), " ")
  }

  /** However many `#` surround a tag, it renders with exactly one in front. */
  lemma TagIgnoresHashRuns(pre: string, core: string, post: string)
    requires OnlyChar(pre, '#') && OnlyChar(post, '#')
    requires core == "" || (core[0] != '#' && core[|core| - 1] != '#')
    ensures Tag(pre + core + post) == "#" + core
  {
    StripOf(pre, core, post, '#');
  }

  /** `x`, `#x` and `##x#` all render as `#x`. */
  lemma TagForms(x: string)
    requires x == "" || (x[0] != '#' && x[|x| - 1] != '#')
    ensures Tag(x) == "#" + x
    ensures Tag("#" + x) == "#" + x
    ensures Tag("##" + x + "#") == "#" + x
  {
    assert Tag(x) == "#" + x by {
      TagIgnoresHashRuns("", x, "");
      assert "" + x + "" == x;
    }
    assert Tag("#" + x) == "#" + x by {
      TagIgnoresHashRuns("#", x, "");
      assert "#" + x + "" == "#" + x;
    }
    assert Tag("##" + x + "#") == "#" + x by {
      TagIgnoresHashRuns("##", x, "#");
    }
  }

  /** Rendering an already rendered tag changes nothing. */
  lemma TagIdempotent(h: string)
    ensures Tag(Tag(h)) == Tag(h)
  {
    var core := Tag(h)[1..];
    assert Tag(h) == "#" + core + "";
    TagIgnoresHashRuns("#", core, "");
  }

  /** A character other than `#` that the tag lacks, its rendering lacks too. */
  lemma TagFree(h: string, c: char)
    requires c != '#' && Free(h, c)
    ensures Free(Tag(h), c)
  {
    var r := Tag(h);
    var a: nat :| StripsTo(h, '#', a, r[1..]);
    forall i | 1 <= i < |r|
      ensures r[i] != c
    {
      assert r[i] == r[1..][i - 1] == h[a + i - 1];
    }
  }

  /** The hashtag line splits back, at its spaces, into the rendered tags
      when no tag contains a space. */
  lemma HashtagLineSplits(hs: seq<JVal>)
    requires |hs| > 0 && AllStr(hs)
    requires forall i :: 0 <= i < |hs| ==> Free(hs[i].s, ' ')
    ensures Split(HashtagLine(hs), ' ') == Tags(hs)
    ensures forall i :: 0 <= i < |hs| ==> Split(HashtagLine(hs), ' ')[i] == "#" + Strip(hs[i].s, '#')
  {
    forall i | 0 <= i < |hs|
      ensures Free(Tags(hs)[i], ' ')
    {
      TagFree(hs[i].s, ' ');
    }
    SplitJoin(Tags(hs), ' ');
  }

  /** The index shown above the slide at 0-based position `pos`: its
      `slide_no`, or the 1-based position when it has none. */
  function DisplayIndex(slide: JVal, pos: nat): JVal
    requires slide.JObj?
  {
    Get(slide, "slide_no", JNum(pos + 1))
  }

  /** The indices the standard view shows, slide by slide. */
  function DisplayIndices(slides: seq<JVal>): seq<JVal>
    requires AllObj(slides)
  {
    seq(|slides|, i requires 0 <= i < |slides| => DisplayIndex(slides[i], i))
  }

  /** The viral view walks the slides two per row (`for i in range(0, n, 2)`,
      `for j in range(2)`, `if i + j < n`) and shows `slide_no` or `i + j + 1`:
      every slide once, in order, with the same index the standard view
      shows. */
  method GridIndices(slides: seq<JVal>) returns (shown: seq<JVal>)
    requires AllObj(slides)
    ensures shown == DisplayIndices(slides)
  {
    shown := [];
    var i := 0;
    while i < |slides|
      invariant i % 2 == 0 && i <= |slides| + 1
      invariant |shown| == if i <= |slides| then i else |slides|
      invariant shown == DisplayIndices(slides)[..|shown|]
    {
      var j := 0;
      while j < 2
        invariant 0 <= j <= 2
        invariant |shown| == if i + j <= |slides| then i + j else |slides|
        invariant shown == DisplayIndices(slides)[..|shown|]
      {
        if i + j < |slides| {
          var slide := slides[i + j];
          shown := shown + [Get(slide, "slide_no", JNum(i + j + 1))];
        }
        j := j + 1;
      }
      i := i + 2;
    }
  }

  /** The slides the standard view puts into column `c`: slide `i` goes to
      column `i % 3`, in input order. */
  function ColumnOf(slides: seq<JVal>, c: nat): seq<JVal>
    decreases |slides|
  {
    if |slides| == 0 then []
    else
      var n := |slides| - 1;
      ColumnOf(slides[..n], c) + (if n % 3 == c then [slides[n]] else [])
  }

  /** Column `c` holds every third slide starting from slide `c`; in
      particular slide `i` is entry `i / 3` of column `i % 3`. */
  lemma {:induction false} ColumnOfAt(slides: seq<JVal>, c: nat)
    requires c < 3
    ensures |ColumnOf(slides, c)| == (|slides| + 2 - c) / 3
    ensures forall k :: 0 <= k < |ColumnOf(slides, c)| ==> c + 3 * k < |slides| && ColumnOf(slides, c)[k] == slides[c + 3 * k]
    decreases |slides|
  {
    if |slides| > 0 {
      var n := |slides| - 1;
      ColumnOfAt(slides[..n], c);
      if n % 3 == c {
        assert n == c + 3 * ((n + 2 - c) / 3);
      }
    }
  }

  /** The three columns hold all slides between them. */
  lemma {:induction false} ColumnsPartition(slides: seq<JVal>)
    ensures |ColumnOf(slides, 0)| + |ColumnOf(slides, 1)| + |ColumnOf(slides, 2)| == |slides|
    decreases |slides|
  {
    if |slides| > 0 {
      ColumnsPartition(slides[..|slides| - 1]);
    }
  }

  /** Slide `i` is entry `i / 3` of column `i % 3`. */
  lemma ColumnOfSlide(slides: seq<JVal>, i: nat)
    requires i < |slides|
    ensures i / 3 < |ColumnOf(slides, i % 3)| && ColumnOf(slides, i % 3)[i / 3] == slides[i]
  {
    var c, q := i % 3, i / 3;
    ColumnOfAt(slides, c);
    assert i == c + 3 * q;
    assert q + 1 <= (|slides| + 2 - c) / 3;
  }

  /** `for i, slide in enumerate(slides): with cols[i % 3]: …`. */
  method PlaceInColumns(slides: seq<JVal>) returns (cols: seq<seq<JVal>>)
    ensures |cols| == 3
    ensures forall c :: 0 <= c < 3 ==> cols[c] == ColumnOf(slides, c)
  {
    cols := [[], [], []];
    var i := 0;
    while i < |slides|
      invariant i <= |slides| && |cols| == 3
      invariant forall c :: 0 <= c < 3 ==> cols[c] == ColumnOf(slides[..i], c)
    {
      assert slides[..i + 1][..i] == slides[..i];
      cols := cols[i % 3 := cols[i % 3] + [slides[i]]];
      i := i + 1;
    }
    assert slides[..i] == slides;
  }
}

/** The fallback of the viral variant's decoder: `re.search` with the pattern
    ```` ```(?:json)?\n?(.*?)\n?``` ```` under `re.DOTALL`, returning group 1.

    The regex is described here twice. `MatchesAt` and `SearchResult` say which
    substrings the pattern matches and which match `re.search` reports: the
    leftmost start, then the first opener the backtracking engine tries (the
    optional `json` and the optional newline are greedy), then the shortest
    group (`.*?` is lazy). `ExtractFence` computes that match directly from the
    first two occurrences of three backticks, and `ExtractFenceIsSearch`
    proves that the two descriptions agree. */
module Fence {
  import opened JsonValue
  import opened Strings

  const Ticks: string := "```"

  /** The four ways the pattern can open, in the order the engine tries them. */
  const Openers: seq<string> := ["```json\n", "```json", "```\n", "```"]

  /** `t` holds `o + body + c` starting at index `i`. */
  predicate Framed(t: string, i: nat, o: string, body: string, c: string)
  {
    var j := i + |o|;
    var e := j + |body|;
    e + |c| <= |t| && t[i..j] == o && t[j..e] == body && t[e..e + |c|] == c
  }

  /** The pattern matches at `i` with opener `o` and group `body`; the optional
      newline before the closing backticks is tried first. */
  predicate MatchWith(t: string, i: nat, o: string, body: string)
  {
    Framed(t, i, o, body, "\n```") || Framed(t, i, o, body, Ticks)
  }

  /** The pattern matches at `i` with group `body`, whatever the opener. */
  predicate MatchesAt(t: string, i: nat, body: string)
  {
    || MatchWith(t, i, Openers[0], body)
    || MatchWith(t, i, Openers[1], body)
    || MatchWith(t, i, Openers[2], body)
    || MatchWith(t, i, Openers[3], body)
  }

  /** `body` is the group of the match `re.search` reports: it starts at `i`,
      no match starts earlier, no earlier opener matches at `i`, and no shorter
      group matches with the same opener. */
  ghost predicate SearchResult(t: string, i: nat, k: nat, body: string)
  {
    && k < |Openers|
    && MatchWith(t, i, Openers[k], body)
    && (forall j: nat, b: string :: j < i ==> !MatchesAt(t, j, b))
    && (forall k': nat, b: string :: k' < k ==> !MatchWith(t, i, Openers[k'], b))
    && (forall b: string :: MatchWith(t, i, Openers[k], b) ==> |body| <= |b|)
  }

  /** Index into `Openers` of the opener the engine keeps at a "```" found at `p`. */
  function OpenerIndex(t: string, p: nat): (k: nat)
    ensures k < |Openers|
  {
    var tagged := OccursAt(t, "json", p + 3);
    var nlAt := if tagged then p + 7 else p + 3;
    var newline := nlAt < |t| && t[nlAt] == '\n';
    if tagged && newline then 0 else if tagged then 1 else if newline then 2 else 3
  }

  /** Group 1 of the first match, or `None` when the pattern matches nowhere. */
  function ExtractFence(t: string): Option<string>
  {
    match Find(t, Ticks, 0)
    case None => None
    case Some(p) =>
      var b := p + |Openers[OpenerIndex(t, p)]|;
      match Find(t, Ticks, b)
      case None => None
      case Some(c) => Some(Cut(t, b, c))
  }

  /** Past its three backticks, no opener holds a backtick. */
  lemma OpenerTails()
    ensures forall k, i :: 0 <= k < |Openers| && 3 <= i < |Openers[k]| ==> Openers[k][i] != '`'
    ensures forall k :: 0 <= k < |Openers| ==> |Openers[k]| >= 3 && Openers[k][..3] == Ticks
  {
  }

  /** Every match starts with three backticks and closes with three more that
      begin at or after the end of its opener. */
  lemma MatchShape(t: string, i: nat, k: nat, body: string) returns (e: nat)
    requires k < |Openers| && MatchWith(t, i, Openers[k], body)
    ensures OccursAt(t, Ticks, i)
    ensures i + |Openers[k]| <= e && OccursAt(t, Ticks, e)
    ensures e == i + |Openers[k]| + |body| || e == i + |Openers[k]| + |body| + 1
    ensures e == i + |Openers[k]| + |body| + 1 ==> t[e - 1] == '\n'
  {
    OpenerTails();
    var o := Openers[k];
    assert t[i..i + 3] == t[i..i + |o|][..3];
    var j := i + |o| + |body|;
    if Framed(t, i, o, body, "\n```") {
      e := j + 1;
      assert t[e..e + 3] == t[j..j + 4][1..];
      assert t[j] == t[j..j + 4][0];
    } else {
      e := j;
    }
  }

  /** The opener the engine keeps at `p` is really there, and the ones it tries
      first are not. */
  lemma OpenerChoice(t: string, p: nat)
    requires OccursAt(t, Ticks, p)
    ensures var o := Openers[OpenerIndex(t, p)]; p + |o| <= |t| && t[p..p + |o|] == o
    ensures forall k: nat :: k < OpenerIndex(t, p) ==>
              !(p + |Openers[k]| <= |t| && t[p..p + |Openers[k]|] == Openers[k])
  {
    var tagged := OccursAt(t, "json", p + 3);
    // What each opener needs beyond the three backticks at p.
    assert Openers[0] == Ticks + "json" + "\n";
    assert p + 8 <= |t| && t[p..p + 8] == Openers[0] <==> tagged && p + 7 < |t| && t[p + 7] == '\n' by {
      if p + 8 <= |t| {
        assert t[p..p + 8] == t[p..p + 3] + t[p + 3..p + 7] + [t[p + 7]];
        if t[p..p + 8] == Openers[0] {
          assert t[p + 3..p + 7] == t[p..p + 8][3..7];
        }
      }
    }
    assert p + 7 <= |t| && t[p..p + 7] == Openers[1] <==> tagged by {
      if p + 7 <= |t| {
        assert t[p..p + 7] == t[p..p + 3] + t[p + 3..p + 7];
      }
    }
    assert p + 4 <= |t| && t[p..p + 4] == Openers[2] <==> p + 3 < |t| && t[p + 3] == '\n' by {
      if p + 4 <= |t| {
        assert t[p..p + 4] == t[p..p + 3] + [t[p + 3]];
      }
    }
  }

  /** No match starts before the first three backticks. */
  lemma NoEarlierMatch(t: string, p: nat)
    requires forall q: nat :: q < p ==> !OccursAt(t, Ticks, q)
    ensures forall j: nat, b: string :: j < p ==> !MatchesAt(t, j, b)
  {
    forall j: nat, b: string | j < p && MatchesAt(t, j, b)
      ensures false
    {
      var k: nat :| k < |Openers| && MatchWith(t, j, Openers[k], b);
      var e := MatchShape(t, j, k, b);
    }
  }

  /** Every closing "```" of a match at or after `p` lies at or after the end
      of the opener the engine keeps at `p`. */
  lemma CloseAfterOpener(t: string, p: nat, i: nat, k: nat, body: string) returns (e: nat)
    requires OccursAt(t, Ticks, p) && p <= i
    requires k < |Openers| && MatchWith(t, i, Openers[k], body)
    ensures OccursAt(t, Ticks, e) && p + |Openers[OpenerIndex(t, p)]| <= e
  {
    OpenerTails();
    OpenerChoice(t, p);
    e := MatchShape(t, i, k, body);
    var o := Openers[OpenerIndex(t, p)];
    assert forall x :: p <= x < p + |o| ==> t[x] == o[x - p];
    assert e >= p + 3;
    assert t[e] == t[e..e + 3][0] == '`';
  }

  /** Without three backticks anywhere the pattern cannot match. */
  lemma NoTicksNoMatch(t: string)
    requires Find(t, Ticks, 0).None?
    ensures forall i: nat, b: string :: !MatchesAt(t, i, b)
  {
    forall i: nat, b: string | MatchesAt(t, i, b)
      ensures false
    {
      var k: nat :| k < |Openers| && MatchWith(t, i, Openers[k], b);
      var e := MatchShape(t, i, k, b);
    }
  }

  /** Without three backticks after the first opener the pattern cannot match. */
  lemma NoCloseNoMatch(t: string, p: nat)
    requires Find(t, Ticks, 0) == Some(p)
    requires Find(t, Ticks, p + |Openers[OpenerIndex(t, p)]|).None?
    ensures forall i: nat, b: string :: !MatchesAt(t, i, b)
  {
    NoEarlierMatch(t, p);
    forall i: nat, b: string | MatchesAt(t, i, b)
      ensures false
    {
      var k: nat :| k < |Openers| && MatchWith(t, i, Openers[k], b);
      var e := CloseAfterOpener(t, p, i, k, b);
    }
  }

  /** The text between an opener ending at `b` and three backticks at `c`,
      without the newline right before the backticks if there is one. */
  function Cut(t: string, b: nat, c: nat): string
    requires b <= c <= |t|
  {
    if c > b && t[c - 1] == '\n' then t[b..c - 1] else t[b..c]
  }

  /** The group `ExtractFence` cuts out of the text, given the first "```" at
      `p` and the first "```" after its opener at `c`. */
  function Group(t: string, p: nat, c: nat): string
    requires p + |Openers[OpenerIndex(t, p)]| <= c <= |t|
  {
    Cut(t, p + |Openers[OpenerIndex(t, p)]|, c)
  }

  /** An opener at `p` and three backticks at or after its end make a match. */
  lemma CutFramed(t: string, p: nat, o: string, c: nat)
    requires p + |o| <= c && OccursAt(t, Ticks, c)
    requires t[p..p + |o|] == o
    ensures MatchWith(t, p, o, Cut(t, p + |o|, c))
  {
    var b := p + |o|;
    var body := Cut(t, b, c);
    if c > b && t[c - 1] == '\n' {
      assert body == t[b..c - 1];
      assert t[c - 1..c + 3] == [t[c - 1]] + t[c..c + 3];
      assert Framed(t, p, o, body, "\n```");
    } else {
      assert body == t[b..c];
      assert Framed(t, p, o, body, Ticks);
    }
  }

  /** The cut up to the first closing backticks is no longer than any group
      a match with the same opener can have. */
  lemma CutShortest(t: string, p: nat, k: nat, c: nat, b': string)
    requires k < |Openers| && p + |Openers[k]| <= c && OccursAt(t, Ticks, c)
    requires forall q: nat :: p + |Openers[k]| <= q < c ==> !OccursAt(t, Ticks, q)
    requires MatchWith(t, p, Openers[k], b')
    ensures |Cut(t, p + |Openers[k]|, c)| <= |b'|
  {
    var b := p + |Openers[k]|;
    var e := MatchShape(t, p, k, b');
    assert c <= e;
    if e == b + |b'| + 1 && e == c {
      assert Cut(t, b, c) == t[b..c - 1];
    }
  }

  /** The cut up to the first closing backticks holds no three backticks. */
  lemma CutHasNoTicks(t: string, b: nat, c: nat)
    requires b <= c && OccursAt(t, Ticks, c)
    requires forall q: nat :: b <= q < c ==> !OccursAt(t, Ticks, q)
    ensures !Contains(Cut(t, b, c), Ticks)
  {
    var body := Cut(t, b, c);
    assert |body| <= c - b;
    assert forall x :: 0 <= x < |body| ==> body[x] == t[b + x];
    forall q: nat | q <= |body| && OccursAt(body, Ticks, q)
      ensures false
    {
      assert t[b + q..b + q + 3] == body[q..q + 3];
      assert OccursAt(t, Ticks, b + q);
    }
  }

  lemma GroupFramed(t: string, p: nat, c: nat)
    requires Find(t, Ticks, 0) == Some(p)
    requires Find(t, Ticks, p + |Openers[OpenerIndex(t, p)]|) == Some(c)
    ensures MatchWith(t, p, Openers[OpenerIndex(t, p)], Group(t, p, c))
  {
    OpenerChoice(t, p);
    CutFramed(t, p, Openers[OpenerIndex(t, p)], c);
  }

  /** With a first "```" at `p` and the first "```" after its opener at `c`,
      `ExtractFence` cuts out the group between them. */
  lemma FoundGroup(t: string, p: nat, c: nat)
    requires Find(t, Ticks, 0) == Some(p)
    requires Find(t, Ticks, p + |Openers[OpenerIndex(t, p)]|) == Some(c)
    ensures ExtractFence(t) == Some(Group(t, p, c))
  {
  }

  /** With a first "```" at `p` and the first "```" after its opener at `c`,
      the group between them is the one `re.search` reports. */
  lemma FoundIsSearch(t: string, p: nat, c: nat)
    requires Find(t, Ticks, 0) == Some(p)
    requires Find(t, Ticks, p + |Openers[OpenerIndex(t, p)]|) == Some(c)
    ensures SearchResult(t, p, OpenerIndex(t, p), Group(t, p, c))
  {
    var k := OpenerIndex(t, p);
    var body := Group(t, p, c);
    OpenerChoice(t, p);
    assert forall k': nat, b: string :: k' < k ==> !MatchWith(t, p, Openers[k'], b);
    NoEarlierMatch(t, p);
    GroupFramed(t, p, c);
    forall b': string | MatchWith(t, p, Openers[k], b')
      ensures |body| <= |b'|
    {
      CutShortest(t, p, k, c, b');
    }
  }

  /** `ExtractFence` returns the group of the match `re.search` reports, and
      `None` exactly when the pattern matches nowhere in the text; the group
      never contains three backticks. */
  lemma ExtractFenceIsSearch(t: string)
    ensures ExtractFence(t).None? <==> forall i: nat, b: string :: !MatchesAt(t, i, b)
    ensures ExtractFence(t).Some? ==> exists i: nat, k: nat :: SearchResult(t, i, k, ExtractFence(t).value)
    ensures ExtractFence(t).Some? ==> !Contains(ExtractFence(t).value, Ticks)
  {
    match Find(t, Ticks, 0) {
      case None =>
        NoTicksNoMatch(t);
      case Some(p) =>
        match Find(t, Ticks, p + |Openers[OpenerIndex(t, p)]|) {
          case None =>
            NoCloseNoMatch(t, p);
          case Some(c) =>
            FoundCase(t, p, c);
        }
    }
  }

  /** The case where both "```" searches succeed. */
  lemma FoundCase(t: string, p: nat, c: nat)
    requires Find(t, Ticks, 0) == Some(p)
    requires Find(t, Ticks, p + |Openers[OpenerIndex(t, p)]|) == Some(c)
    ensures ExtractFence(t) == Some(Group(t, p, c))
    ensures SearchResult(t, p, OpenerIndex(t, p), Group(t, p, c))
    ensures MatchesAt(t, p, Group(t, p, c))
    ensures !Contains(Group(t, p, c), Ticks)
  {
    FoundGroup(t, p, c);
    FoundIsSearch(t, p, c);
    CutHasNoTicks(t, p + |Openers[OpenerIndex(t, p)]|, c);
  }

  predicate NoBacktick(s: string)
  {
    forall i :: 0 <= i < |s| ==> s[i] != '`'
  }

  /** After a stretch without a backtick, the first three backticks are the
      ones that end it. */
  lemma TicksAfter(t: string, b: nat, c: nat)
    requires b <= c && OccursAt(t, Ticks, c)
    requires forall q :: b <= q < c ==> t[q] != '`'
    ensures Find(t, Ticks, b) == Some(c)
  {
    forall q: nat | b <= q < c
      ensures !OccursAt(t, Ticks, q)
    {
      assert t[q..q + 3][0] == t[q];
    }
    FindFirst(t, Ticks, b, c);
  }

  /** At a full ```` ```json ```` opener followed by a newline the engine
      keeps the longest opener. */
  lemma JsonOpener(t: string, p: nat)
    requires p + 8 <= |t| && t[p..p + 8] == Openers[0]
    ensures OpenerIndex(t, p) == 0
  {
    var o := t[p..p + 8];
    forall i | 0 <= i < 8
      ensures t[p + i] == Openers[0][i]
    {
      assert t[p + i] == o[i];
    }
    assert t[p + 3] == 'j' && t[p + 4] == 's' && t[p + 5] == 'o' && t[p + 6] == 'n';
    assert t[p + 7] == '\n';
    assert t[p + 3..p + 7] == "json";
  }

  /** Prose without backticks, then a ```` ```json ```` opener: the first
      three backticks are the opener's. */
  lemma FencedOpener(t: string, pre: string)
    requires NoBacktick(pre)
    requires |pre| + 3 <= |t| && t[..|pre|] == pre && t[|pre|..|pre| + 3] == Ticks
    ensures Find(t, Ticks, 0) == Some(|pre|)
  {
    var p := |pre|;
    forall q | 0 <= q < p
      ensures t[q] != '`'
    {
      assert t[q] == t[..p][q];
    }
    TicksAfter(t, 0, p);
  }

  /** A payload without backticks, then a newline and three backticks: those
      are the first three backticks from the payload on. */
  lemma FencedCloser(t: string, b: nat, payload: string)
    requires NoBacktick(payload)
    requires b + |payload| + 4 <= |t| && t[b..b + |payload|] == payload
    requires t[b + |payload|..b + |payload| + 4] == "\n```"
    ensures Find(t, Ticks, b) == Some(b + |payload| + 1)
  {
    var c := b + |payload| + 1;
    var cl := t[c - 1..c + 3];
    assert t[c..c + 3] == cl[1..];
    forall q | b <= q < c
      ensures t[q] != '`'
    {
      if q < c - 1 {
        assert t[q] == t[b..b + |payload|][q - b];
      } else {
        assert t[q] == cl[0];
      }
    }
    TicksAfter(t, b, c);
  }

  /** Where the parts of a fenced text sit. */
  lemma FencedLayout(pre: string, payload: string, post: string)
    ensures var t := pre + "```json\n" + payload + "\n```" + post;
      var p := |pre|;
      var b := p + 8;
      && b + |payload| + 4 <= |t|
      && t[..p] == pre
      && t[p..b] == Openers[0]
      && t[p..p + 3] == Ticks
      && t[b..b + |payload|] == payload
      && t[b + |payload|..b + |payload| + 4] == "\n```"
  {
    var t := pre + "```json\n" + payload + "\n```" + post;
    var p := |pre|;
    assert t[p..p + 3] == t[p..p + 8][..3];
  }

  /** The decoder's fallback extracts the payload of a text laid out as prose
      without backticks, a ```` ```json ```` opener, a payload without
      backticks and a newline with the closing backticks. */
  lemma FencedExtract(t: string, pre: string, payload: string)
    requires NoBacktick(pre) && NoBacktick(payload)
    requires |pre| + 8 + |payload| + 4 <= |t|
    requires t[..|pre|] == pre && t[|pre|..|pre| + 8] == Openers[0] && t[|pre|..|pre| + 3] == Ticks
    requires t[|pre| + 8..|pre| + 8 + |payload|] == payload
    requires t[|pre| + 8 + |payload|..|pre| + 8 + |payload| + 4] == "\n```"
    ensures ExtractFence(t) == Some(payload)
  {
    var p := |pre|;
    var b := p + 8;
    var c := b + |payload| + 1;
    FencedOpener(t, pre);
    JsonOpener(t, p);
    FencedCloser(t, b, payload);
    assert |Openers[0]| == 8;
    assert t[c - 1] == t[c - 1..c + 3][0];
  }

  /** Prose, then a fenced `json` block, then anything: the decoder's fallback
      extracts exactly the fenced payload. */
  lemma FencedPayload(pre: string, payload: string, post: string)
    requires NoBacktick(pre) && NoBacktick(payload)
    ensures ExtractFence(pre + "```json\n" + payload + "\n```" + post) == Some(payload)
  {
    FencedLayout(pre, payload, post);
    FencedExtract(pre + "```json\n" + payload + "\n```" + post, pre, payload);
  }
}

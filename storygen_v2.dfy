/** The viral generator (Storygenv2.py): its three-tier decoder (direct
    parse, fenced block, literal repair), the session state it keeps, and
    the `txt` and `csv` branches of `make_enhanced_export`. */
module StorygenV2 {
  import opened JsonValue
  import opened Strings
  import opened Fence
  import opened Completion
  import Storygen

  /** `safe_json_loads`: the parsed text; when parsing raises, the parsed
      group of the first fenced block; `None` when there is no fenced block
      or its group does not parse either. */
  function SafeJsonLoadsV2(parse: Parser, text: string): JVal
  {
    match parse(text)
    case Some(v) => v
    case None =>
      match ExtractFence(text)
      case None => JNull
      case Some(group) => parse(group).GetOr(JNull)
  }

  /** A text that parses is returned as parsed, whatever the value (even
      `null` or `{}`), exactly as the standard decoder returns it, and the
      fence is never looked at. Only when parsing raises does the fence
      matter: the result is then `None` or the parse of the group of the
      match `re.search` reports, a group without three backticks; when that
      group parses, its value is the result; with no match anywhere it is
      `None`. */
  lemma DecoderTiers(parse: Parser, text: string)
    ensures parse(text).Some? ==>
      SafeJsonLoadsV2(parse, text) == parse(text).value == Storygen.SafeJsonLoads(parse, text)
    ensures parse(text).None? && SafeJsonLoadsV2(parse, text) != JNull ==>
      && ExtractFence(text).Some?
      && (exists i: nat, k: nat :: SearchResult(text, i, k, ExtractFence(text).value))
      && !Contains(ExtractFence(text).value, Ticks)
      && parse(ExtractFence(text).value) == Some(SafeJsonLoadsV2(parse, text))
    ensures parse(text).None? && ExtractFence(text).Some? && parse(ExtractFence(text).value).Some? ==>
      SafeJsonLoadsV2(parse, text) == parse(ExtractFence(text).value).value
    ensures (forall i: nat, b: string :: !MatchesAt(text, i, b)) && parse(text).None? ==>
      SafeJsonLoadsV2(parse, text) == JNull
  {
    ExtractFenceIsSearch(text);
  }

  /** A reply that wraps its JSON in prose and a ```json fence does not parse
      as a whole, so the standard decoder returns `None`; this decoder
      recovers the payload. */
  lemma FencedReplyRecovered(parse: Parser, pre: string, payload: string, post: string, v: JVal)
    requires NoBacktick(pre) && NoBacktick(payload)
    requires parse(pre + "```json\n" + payload + "\n```" + post).None?
    requires parse(payload) == Some(v)
    ensures SafeJsonLoadsV2(parse, pre + "```json\n" + payload + "\n```" + post) == v
    ensures Storygen.SafeJsonLoads(parse, pre + "```json\n" + payload + "\n```" + post) == JNull
  {
    FencedPayload(pre, payload, post);
  }

  /** `text.replace("'", '"').replace("True", "true").replace("False", "false")`. */
  function Repair(text: string): string
  {
    ReplaceAll(ReplaceAll(ReplaceAll(text, "'", "\""), "True", "true"), "False", "false")
  }

  /** Every substitution swaps equally long strings. */
  lemma RepairLength(text: string)
    ensures |Repair(text)| == |text|
  {
    ReplaceAllLength(text, "'", "\"");
    ReplaceAllLength(ReplaceAll(text, "'", "\""), "True", "true");
    ReplaceAllLength(ReplaceAll(ReplaceAll(text, "'", "\""), "True", "true"), "False", "false");
  }

  /** After the repair no single quote, `True` or `False` is left: the later
      substitutions cannot bring back what an earlier one removed. */
  lemma RepairRemoves(text: string)
    ensures !Contains(Repair(text), "'")
    ensures !Contains(Repair(text), "True")
    ensures !Contains(Repair(text), "False")
  {
    var s1 := ReplaceAll(text, "'", "\"");
    var s2 := ReplaceAll(s1, "True", "true");
    var s3 := ReplaceAll(s2, "False", "false");
    forall k: nat | k <= |s1|
      ensures !OccursAt(s1, "'", k)
    {
      ReplaceAllRemoves(text, "'", "\"", k);
    }
    forall k: nat | k <= |s2|
      ensures !OccursAt(s2, "True", k) && !OccursAt(s2, "'", k)
    {
      ReplaceAllRemoves(s1, "True", "true", k);
      if OccursAt(s2, "'", k) {
        OccurrenceTrace(s1, "True", "true", "'", k);
      }
    }
    forall k: nat | k <= |s3|
      ensures !OccursAt(s3, "False", k) && !OccursAt(s3, "True", k) && !OccursAt(s3, "'", k)
    {
      ReplaceAllRemoves(s2, "False", "false", k);
      if OccursAt(s3, "True", k) {
        OccurrenceTrace(s2, "False", "false", "True", k);
      }
      if OccursAt(s3, "'", k) {
        OccurrenceTrace(s2, "False", "false", "'", k);
      }
    }
  }

  /** Repairing a repaired text changes nothing. */
  lemma RepairIdempotent(text: string)
    ensures Repair(Repair(text)) == Repair(text)
  {
    var r := Repair(text);
    RepairRemoves(text);
    ReplaceAllAbsent(r, "'", "\"");
    ReplaceAllAbsent(r, "True", "true");
    ReplaceAllAbsent(r, "False", "false");
  }

  /** What `generate_viral_story` hands back: `(data, text)`, or
      `(None, None)` once an exception is caught. */
  datatype ViralOutcome = Returned(data: JVal, raw: string) | Raised

  /** Lines 247-253: decode; when the result is falsy, repair the text and
      parse it again, letting a failure propagate to the `except`. */
  function DecodeViral(parse: Parser, text: string): ViralOutcome
  {
    var data := SafeJsonLoadsV2(parse, text);
    if Truthy(data) then Returned(data, text)
    else
      var fixed := Repair(text);
      match parse(fixed)
      case Some(d) => Returned(d, fixed)
      case None => Raised
  }

  /** The repair runs exactly when the first decode is falsy. Then the text
      handed back is the repaired one (same length, no single quotes, no
      `True`/`False`) and the data is its parse, whether truthy or not; a
      repaired text that does not parse ends in `(None, None)`. */
  lemma DecodeViralOutcome(parse: Parser, text: string)
    ensures var first := SafeJsonLoadsV2(parse, text);
      match DecodeViral(parse, text)
      case Returned(d, raw) =>
        || (Truthy(first) && d == first && raw == text)
        || (&& !Truthy(first) && raw == Repair(text) && parse(raw) == Some(d)
            && |raw| == |text| && !Contains(raw, "'") && !Contains(raw, "True") && !Contains(raw, "False"))
      case Raised => !Truthy(first) && parse(Repair(text)).None?
  {
    RepairLength(text);
    RepairRemoves(text);
  }

  /** Empty reply content becomes `{}`, which decodes to the falsy `{}`; the
      repair leaves `{}` as it is, so the call hands back `({}, "{}")`. */
  lemma EmptyReplyDecodes(parse: Parser)
    requires parse("{}") == Some(JObj(map[]))
    ensures DecodeViral(parse, ContentText(None)) == Returned(JObj(map[]), "{}")
    ensures DecodeViral(parse, ContentText(Some(""))) == Returned(JObj(map[]), "{}")
  {
    var t := "{}";
    assert !Contains(t, "'") by {
      forall k: nat | k <= |t| ensures !OccursAt(t, "'", k) {
        if k + 1 <= |t| {
          assert t[k..k + 1] == [t[k]];
        }
      }
    }
    ReplaceAllAbsent(t, "'", "\"");
    ReplaceAllAbsent(t, "True", "true");
    ReplaceAllAbsent(t, "False", "false");
    assert Repair(t) == t;
  }

  /** The defaults `init_session_state` installs for missing keys. */
  function WithDefaults(m: map<string, JVal>): map<string, JVal>
  {
    var m1 := if "generated_content" in m then m else m["generated_content" := JNull];
    var m2 := if "export_format" in m1 then m1 else m1["export_format" := JStr("txt")];
    if "api_usage" in m2 then m2 else m2["api_usage" := JNum(0)]
  }

  /** The three keys are present afterwards; a key that was present keeps
      its value; a key that was missing gets its default; no other key
      appears. */
  lemma WithDefaultsKeys(m: map<string, JVal>)
    ensures WithDefaults(m).Keys == m.Keys + {"generated_content", "export_format", "api_usage"}
    ensures forall k :: k in m ==> WithDefaults(m)[k] == m[k]
    ensures "generated_content" !in m ==> WithDefaults(m)["generated_content"] == JNull
    ensures "export_format" !in m ==> WithDefaults(m)["export_format"] == JStr("txt")
    ensures "api_usage" !in m ==> WithDefaults(m)["api_usage"] == JNum(0)
  {
  }

  /** Initialising twice is the same as initialising once. */
  lemma WithDefaultsIdempotent(m: map<string, JVal>)
    ensures WithDefaults(WithDefaults(m)) == WithDefaults(m)
  {
    WithDefaultsKeys(m);
  }

  /** `session_state.api_usage += 1`; `None` where Python raises because the
      value does not add to an int. */
  function Incremented(v: JVal): Option<JVal>
  {
    match v
    case JNum(n) => Some(JNum(n + 1))
    case JBool(b) => Some(JNum(if b then 2 else 1))
    case _ => None
  }

  /** The outcome of one call to `generate_viral_story` and the session
      entries it leaves behind. */
  datatype CallResult = CallResult(outcome: ViralOutcome, entries: map<string, JVal>)

  /** Lines 231-257: a failed request, a missing or non-numeric usage counter
      and a failed re-parse all land in the `except`; the counter is bumped
      as soon as the request answers. */
  function ViralCall(parse: Parser, reply: Reply, m: map<string, JVal>): CallResult
  {
    match reply
    case TransportError => CallResult(Raised, m)
    case Answered(content) =>
      if "api_usage" !in m || Incremented(m["api_usage"]).None? then CallResult(Raised, m)
      else CallResult(DecodeViral(parse, ContentText(content)), m["api_usage" := Incremented(m["api_usage"]).value])
  }

  /** With a numeric usage counter, every answered request adds one to it,
      even one whose reply cannot be decoded, and leaves every other entry
      alone; a failed request changes nothing and hands back `(None, None)`. */
  lemma UsageCountsAnsweredRequests(parse: Parser, reply: Reply, m: map<string, JVal>, n: int)
    requires "api_usage" in m && m["api_usage"] == JNum(n)
    ensures reply.Answered? ==> ViralCall(parse, reply, m).entries == m["api_usage" := JNum(n + 1)]
    ensures reply.TransportError? ==> ViralCall(parse, reply, m) == CallResult(Raised, m)
    ensures reply.Answered? && DecodeViral(parse, ContentText(reply.content)).Raised? ==>
      ViralCall(parse, reply, m).outcome == Raised && ViralCall(parse, reply, m).entries["api_usage"] == JNum(n + 1)
  {
  }

  /** Lines 639-644: only truthy data is stored, together with its raw text. */
  function Accepted(m: map<string, JVal>, outcome: ViralOutcome): map<string, JVal>
  {
    match outcome
    case Returned(d, raw) => if Truthy(d) then m["generated_content" := d]["raw_output" := JStr(raw)] else m
    case Raised => m
  }

  /** An empty reply is counted, decodes to `({}, "{}")`, and is reported as
      a failure: the stored story is left as it was. */
  lemma EmptyReplyReportedAsFailure(parse: Parser, m: map<string, JVal>, n: int)
    requires parse("{}") == Some(JObj(map[]))
    requires "api_usage" in m && m["api_usage"] == JNum(n)
    ensures ViralCall(parse, Answered(None), m).outcome == Returned(JObj(map[]), "{}")
    ensures var r := ViralCall(parse, Answered(None), m);
      Accepted(r.entries, r.outcome) == m["api_usage" := JNum(n + 1)]
  {
    EmptyReplyDecodes(parse);
  }

  /** Streamlit's `st.session_state` as the viral generator uses it: a
      dictionary of entries updated in place. */
  class SessionState {
    var entries: map<string, JVal>

    constructor (initial: map<string, JVal>)
      ensures entries == initial
    {
      entries := initial;
    }

    /** `init_session_state`. */
    method InitSessionState()
      modifies this
      ensures entries == WithDefaults(old(entries))
    {
      if "generated_content" !in entries {
        entries := entries["generated_content" := JNull];
      }
      if "export_format" !in entries {
        entries := entries["export_format" := JStr("txt")];
      }
      if "api_usage" !in entries {
        entries := entries["api_usage" := JNum(0)];
      }
    }

    /** The decision logic of `generate_viral_story` around the request whose
        answer is `reply`. */
    method GenerateViralStory(parse: Parser, reply: Reply) returns (outcome: ViralOutcome)
      modifies this
      ensures CallResult(outcome, entries) == ViralCall(parse, reply, old(entries))
    {
      match reply {
        case TransportError =>
          return Raised;
        case Answered(content) =>
          if "api_usage" !in entries {
            return Raised;
          }
          var usage := Incremented(entries["api_usage"]);
          if usage.None? {
            return Raised;
          }
          entries := entries["api_usage" := usage.value];
          var text := ContentText(content);
          var data := SafeJsonLoadsV2(parse, text);
          if !Truthy(data) {
            text := Repair(text);
            var reparsed := parse(text);
            if reparsed.None? {
              return Raised;
            }
            data := reparsed.value;
          }
          outcome := Returned(data, text);
      }
    }

    /** `if data:` store the story and its raw text, else report an error. */
    method AcceptGeneration(outcome: ViralOutcome)
      modifies this
      ensures entries == Accepted(old(entries), outcome)
    {
      if outcome.Returned? && Truthy(outcome.data) {
        entries := entries["generated_content" := outcome.data];
        entries := entries["raw_output" := JStr(outcome.raw)];
      }
    }
  }
}

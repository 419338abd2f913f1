/**
 * The deterministic parts of affina/summarizer.py: the user prompt built for one two-minute
 * window, the defaults and fallback records patched onto the analysis, and the cumulative text
 * summary of earlier windows. The chat-completion call together with its markdown clean-up and
 * `json.loads` is an oracle `llm` from the prompt to a reply.
 */
module Summarizer {
  import opened Wrappers
  import opened JsonValue
  import Text
  import Slices

  /** A summary or window entry: a JSON object. */
  type Record = map<string, Json>

  /** What the oracle hands back: the parsed JSON, a parse error, or any other exception's message. */
  datatype LlmReply = Parsed(value: Json) | Unparsable | Failed(message: string)

  const NoConversation := "[No conversation in this window]"
  const NoEmotionData := "[No emotion data in this window]"
  const MeetingJustStarted := "[Meeting just started]"
  const Arrow := " → "

  /** The text the model uses for the message of an exception it does not spell out. */
  const ErrorText := "<error>"

  // ---------------------------------------------------------------------------------------------
  // Transcript section

  /** `f"[{entry['timestamp']}] {entry['speaker']}: {entry['text']}"`; `None` is the `KeyError`. */
  function TranscriptLine(entry: Record): Option<string> {
    if "timestamp" in entry && "speaker" in entry && "text" in entry
    then Some("[" + Str(entry["timestamp"]) + "] " + Str(entry["speaker"]) + ": " + Str(entry["text"]))
    else None
  }

  function TranscriptLines(window: seq<Record>): (r: Option<seq<string>>)
    ensures r.Some? ==> |r.value| == |window|
    decreases |window|
  {
    if window == [] then Some([])
    else match TranscriptLines(window[..|window| - 1])
      case None => None
      case Some(init) =>
        match TranscriptLine(window[|window| - 1])
        case None => None
        case Some(line) => Some(init + [line])
  }

  /** The transcript section: the lines joined by newlines, or the placeholder when that is blank. */
  function TranscriptText(window: seq<Record>): Option<string> {
    match TranscriptLines(window)
    case None => None
    case Some(lines) =>
      var text := Text.Join("\n", lines);
      Some(if Text.IsBlank(text) then NoConversation else text)
  }

  /** The placeholder stands in exactly for an empty window; otherwise the lines are joined in window order. */
  lemma TranscriptPlaceholderOnlyWhenEmpty(window: seq<Record>)
    requires TranscriptLines(window).Some?
    ensures window == [] ==> TranscriptText(window) == Some(NoConversation)
    ensures window != [] ==> TranscriptText(window) == Some(Text.Join("\n", TranscriptLines(window).value))
  {
    if window != [] {
      var lines := TranscriptLines(window).value;
      Text.JoinStartsWithFirst("\n", lines);
      var line0 := TranscriptLine(window[0]);
      assert lines[0] == line0.value by {
        TranscriptLinesAt(window, 0);
      }
      assert Text.Join("\n", lines)[0] == '[';
    }
  }

  lemma {:induction false} TranscriptLinesAt(window: seq<Record>, i: int)
    requires TranscriptLines(window).Some? && 0 <= i < |window|
    ensures TranscriptLine(window[i]).Some? && TranscriptLines(window).value[i] == TranscriptLine(window[i]).value
    decreases |window|
  {
    if i < |window| - 1 {
      TranscriptLinesAt(window[..|window| - 1], i);
    }
  }

  // ---------------------------------------------------------------------------------------------
  // Emotion section

  /** `f"{e.get('name', 'Unknown')}({e.get('score', 0):.2f})"`; `None` when formatting raises. */
  function EmotionText(e: Json, fmt: real -> string): Option<string> {
    if e.JObj? && Number(Get(e.fields, "score", JNum(0.0))).Some?
    then Some(Str(Get(e.fields, "name", JStr("Unknown"))) + "(" + fmt(Number(Get(e.fields, "score", JNum(0.0))).value) + ")")
    else None
  }

  function EmotionTexts(es: seq<Json>, fmt: real -> string): (r: Option<seq<string>>)
    ensures r.Some? ==> |r.value| == |es|
    decreases |es|
  {
    if es == [] then Some([])
    else match EmotionTexts(es[..|es| - 1], fmt)
      case None => None
      case Some(init) =>
        match EmotionText(es[|es| - 1], fmt)
        case None => None
        case Some(t) => Some(init + [t])
  }

  /** The formatted first three entries of a list; slicing anything else raises inside the `try`. */
  function FirstThree(emos: Json, fmt: real -> string): (r: Option<seq<string>>)
    ensures r.Some? ==> |r.value| <= 3
  {
    if emos.JArr? then EmotionTexts(emos.items[..if |emos.items| < 3 then |emos.items| else 3], fmt)
    else None
  }

  /** The `Voice:` or `Face:` line for a truthy emotion list, or its error line. */
  function ModalityLine(kind: string, emos: Json, fmt: real -> string): string {
    if !Truthy(emos) then ""
    else match FirstThree(emos, fmt)
      case Some(parts) => "  " + kind + ": " + Text.Join(", ", parts) + "\n"
      case None => "  " + kind + ": [Error formatting: " + ErrorText + "]\n"
  }

  /** What one speaker adds to `emotions_text`: nothing without entries, else its latest entry. */
  function SpeakerBlock(speaker: string, entries: seq<Record>, fmt: real -> string): string {
    if entries == [] then ""
    else
      var latest := entries[|entries| - 1];
      "\n" + speaker + ":\n"
        + ModalityLine("Voice", Get(latest, "audio_emotions", JArr([])), fmt)
        + ModalityLine("Face", Get(latest, "video_emotions", JArr([])), fmt)
  }

  /** `emotions_text` after the loop over `emotion_window.items()`, in key order. */
  function EmotionsText(items: seq<(string, seq<Record>)>, fmt: real -> string): string
    decreases |items|
  {
    if items == [] then ""
    else EmotionsText(items[..|items| - 1], fmt) + SpeakerBlock(items[|items| - 1].0, items[|items| - 1].1, fmt)
  }

  /** The emotion section of the prompt. */
  function EmotionSection(items: seq<(string, seq<Record>)>, fmt: real -> string): string {
    var text := EmotionsText(items, fmt);
    if Text.IsBlank(text) then NoEmotionData else text
  }

  /** The accumulating loop of `summarize_window` over the emotion window. */
  method FormatEmotions(items: seq<(string, seq<Record>)>, fmt: real -> string) returns (text: string)
    ensures text == EmotionsText(items, fmt)
  {
    text := "";
    var i := 0;
    while i < |items|
      invariant 0 <= i <= |items|
      invariant text == EmotionsText(items[..i], fmt)
    {
      assert items[..i + 1][..i] == items[..i];
      var (speaker, emotions) := items[i];
      if emotions != [] {
        var latest := emotions[|emotions| - 1];
        var audio := Get(latest, "audio_emotions", JArr([]));
        var video := Get(latest, "video_emotions", JArr([]));
        var block := "\n" + speaker + ":\n";
        if Truthy(audio) {
          block := block + ModalityLine("Voice", audio, fmt);
        } else {
          assert ModalityLine("Voice", audio, fmt) == "";
          assert block == block + ModalityLine("Voice", audio, fmt);
        }
        if Truthy(video) {
          block := block + ModalityLine("Face", video, fmt);
        } else {
          assert ModalityLine("Face", video, fmt) == "";
          assert block == block + ModalityLine("Face", video, fmt);
        }
        assert block == SpeakerBlock(speaker, emotions, fmt);
        text := text + block;
      }
      i := i + 1;
    }
    assert items[..i] == items;
  }

  /** The placeholder is used exactly when no speaker of the window has an entry. */
  lemma EmotionPlaceholderIffNoEntries(items: seq<(string, seq<Record>)>, fmt: real -> string)
    ensures EmotionSection(items, fmt) == NoEmotionData <==> forall i :: 0 <= i < |items| ==> items[i].1 == []
  {
    if forall i :: 0 <= i < |items| ==> items[i].1 == [] {
      EmotionsTextOfEmpty(items, fmt);
    } else {
      var i :| 0 <= i < |items| && items[i].1 != [];
      var text := EmotionsText(items, fmt);
      var k := EmotionsTextHasColon(items, i, fmt);
      assert !Text.IsSpace(text[k]);
      PlaceholderHasNoColon();
      assert k >= |NoEmotionData| || NoEmotionData[k] != text[k];
    }
  }

  lemma PlaceholderHasNoColon()
    ensures forall j :: 0 <= j < |NoEmotionData| ==> NoEmotionData[j] != ':'
  {
  }

  /** A speaker with entries puts a colon into the emotion text. */
  lemma EmotionsTextHasColon(items: seq<(string, seq<Record>)>, i: int, fmt: real -> string) returns (k: int)
    requires 0 <= i < |items| && items[i].1 != []
    ensures 0 <= k < |EmotionsText(items, fmt)| && EmotionsText(items, fmt)[k] == ':'
  {
    EmotionsTextPrefix(items, i + 1, fmt);
    assert items[..i + 1][..i] == items[..i];
    var before := EmotionsText(items[..i], fmt);
    var block := SpeakerBlock(items[i].0, items[i].1, fmt);
    assert EmotionsText(items[..i + 1], fmt) == before + block;
    assert block[1 + |items[i].0|] == ':';
    k := |before| + 1 + |items[i].0|;
  }

  lemma {:induction false} EmotionsTextOfEmpty(items: seq<(string, seq<Record>)>, fmt: real -> string)
    requires forall i :: 0 <= i < |items| ==> items[i].1 == []
    ensures EmotionsText(items, fmt) == ""
    decreases |items|
  {
    if items != [] {
      EmotionsTextOfEmpty(items[..|items| - 1], fmt);
    }
  }

  lemma {:induction false} EmotionsTextPrefix(items: seq<(string, seq<Record>)>, j: int, fmt: real -> string)
    requires 0 <= j <= |items|
    ensures EmotionsText(items[..j], fmt) <= EmotionsText(items, fmt)
    decreases |items| - j
  {
    if j < |items| {
      assert items[..j + 1][..j] == items[..j];
      EmotionsTextPrefix(items, j + 1, fmt);
    } else {
      assert items[..j] == items;
    }
  }

  // ---------------------------------------------------------------------------------------------
  // Prompt and result

  // The fixed lines of the user prompt.
  const RepHeader: string := "\nMeeting Context:\n- Sales Rep: "
  const ObjectiveHeader: string := "\n- Objective: "
  const StageHeader: string := "\n- Current Stage: "
  const TranscriptHeader: string := "\n\n=== TRANSCRIPT (Last 2 Minutes) ===\n"
  const EmotionsHeader: string := "\n\n=== EMOTIONS (Last 2 Minutes) ===\n"
  const Closing: string := "\n\nAnalyze this window and determine if the coach should provide advice now.\nOutput ONLY JSON.\n"

  /** The user prompt sent for one window: the meeting context, then the transcript, then the emotions. */
  function UserPrompt(rep: string, objective: string, stage: string, transcript: string, emotions: string): (r: string)
    ensures Text.StartsWith(r, RepHeader + rep)
    ensures Text.Contains(r, transcript) && Text.Contains(r, emotions)
  {
    var context := RepHeader + rep;
    var head := context + (ObjectiveHeader + objective + StageHeader + stage + TranscriptHeader);
    var upToEmotions := head + transcript + EmotionsHeader;
    Text.StartsWithAppend(context, ObjectiveHeader + objective + StageHeader + stage + TranscriptHeader);
    Text.StartsWithGrows(head, context, transcript);
    Text.StartsWithGrows(head + transcript, context, EmotionsHeader);
    Text.StartsWithGrows(upToEmotions, context, emotions);
    Text.StartsWithGrows(upToEmotions + emotions, context, Closing);
    Text.ContainsInfix(head, transcript, EmotionsHeader);
    Text.ContainsGrows(upToEmotions, transcript, emotions);
    Text.ContainsGrows(upToEmotions + emotions, transcript, Closing);
    Text.ContainsInfix(upToEmotions, emotions, Closing);
    upToEmotions + emotions + Closing
  }

  const Required: seq<string> := ["summary", "key_emotions", "dynamics", "coaching_ready", "coaching_reason"]

  /** The value a missing required field is given. */
  function Default(field: string): Json {
    if field == "coaching_ready" then JBool(false) else JStr("Processing")
  }

  /** `m` with each of `fields` it lacks set to its default. */
  function Patched(m: map<string, Json>, fields: seq<string>): map<string, Json> {
    map k | k in m.Keys + (set f | f in fields) :: if k in m then m[k] else Default(k)
  }

  /**
   * The parsed reply after the required-field loop: a dict gains each missing field with its
   * default and keeps every field it had; any other value passes only if every field is `in` it,
   * since assigning into it raises (`None`).
   */
  function Completed(v: Json): Option<Json> {
    if v.JObj? then Some(JObj(Patched(v.fields, Required)))
    else if AllPresent(v, Required) then Some(v)
    else None
  }

  /** `field in v` holds for each of `fields`. */
  predicate AllPresent(v: Json, fields: seq<string>) {
    forall i :: 0 <= i < |fields| ==> Membership(fields[i], v) == Some(true)
  }

  /**
   * A dict gains exactly the missing required fields, each with its default, and keeps every
   * field it had with its value; any other value comes back unchanged or raises.
   */
  lemma CompletedFillsMissing(v: Json)
    ensures v.JObj? ==> Completed(v).Some? && Completed(v).value.JObj?
    ensures v.JObj? ==> forall f :: f in Required ==> f in Completed(v).value.fields
    ensures v.JObj? ==> forall k :: k in v.fields ==> k in Completed(v).value.fields && Completed(v).value.fields[k] == v.fields[k]
    ensures v.JObj? ==> forall k :: k in Completed(v).value.fields && k !in v.fields ==> k in Required && Completed(v).value.fields[k] == Default(k)
    ensures !v.JObj? ==> Completed(v).None? || Completed(v) == Some(v)
  {
  }

  /** Patching one more field: nothing changes when it is already present, else it gets its default. */
  lemma PatchedStep(m: map<string, Json>, fields: seq<string>, f: string)
    ensures f in Patched(m, fields) ==> Patched(m, fields + [f]) == Patched(m, fields)
    ensures f !in Patched(m, fields) ==> Patched(m, fields + [f]) == Patched(m, fields)[f := Default(f)]
  {
    assert (set g | g in fields + [f]) == (set g | g in fields) + {f};
  }

  /** `for field in required_fields: if field not in result: result[field] = ...`; `None` when it raises. */
  method ApplyDefaults(v: Json) returns (r: Option<Json>)
    ensures r == Completed(v)
  {
    var current := v;
    var i := 0;
    while i < |Required|
      invariant 0 <= i <= |Required|
      invariant v.JObj? ==> current.JObj? && current.fields == Patched(v.fields, Required[..i])
      invariant !v.JObj? ==> current == v && AllPresent(v, Required[..i])
    {
      var field := Required[i];
      assert Required[..i + 1] == Required[..i] + [field];
      if v.JObj? {
        PatchedStep(v.fields, Required[..i], field);
      }
      var present := Membership(field, current);
      if present.None? {
        assert !AllPresent(v, Required) by { assert Membership(Required[i], v) != Some(true); }
        return None;
      }
      if !present.value {
        if !current.JObj? {
          assert !AllPresent(v, Required) by { assert Membership(Required[i], v) != Some(true); }
          return None;
        }
        current := JObj(current.fields[field := Default(field)]);
      }
      i := i + 1;
    }
    assert Required[..i] == Required;
    r := Some(current);
  }

  function ParseFallback(stage: string): Json {
    JObj(map["summary" := JStr("Unable to parse analysis"), "key_emotions" := JObj(map[]),
             "dynamics" := JStr("Processing"), "coaching_ready" := JBool(false),
             "coaching_reason" := JStr("Analysis error"), "stage_assessment" := JStr(stage)])
  }

  function ErrorFallback(message: string, stage: string): Json {
    JObj(map["summary" := JStr("Error: " + message), "key_emotions" := JObj(map[]),
             "dynamics" := JStr("Error"), "coaching_ready" := JBool(false),
             "coaching_reason" := JStr("System error"), "stage_assessment" := JStr(stage)])
  }

  /** The value `summarize_window` returns for a reply. */
  function Answer(reply: LlmReply, stage: string): Json {
    match reply
    case Unparsable => ParseFallback(stage)
    case Failed(message) => ErrorFallback(message, stage)
    case Parsed(v) =>
      match Completed(v)
      case Some(r) => r
      case None => ErrorFallback(ErrorText, stage)
  }

  /**
   * Every dict answer carries all required fields; the fallbacks are never coaching-ready and
   * carry the current stage; a parsed dict keeps every field the analysis gave.
   */
  lemma AnswerFields(reply: LlmReply, stage: string)
    ensures Answer(reply, stage).JObj? ==> forall f :: f in Required ==> f in Answer(reply, stage).fields
    ensures !reply.Parsed? ==> (Answer(reply, stage).JObj?
                                && Answer(reply, stage).fields["coaching_ready"] == JBool(false)
                                && Answer(reply, stage).fields["stage_assessment"] == JStr(stage))
    ensures reply.Parsed? && reply.value.JObj? ==>
              (Answer(reply, stage).JObj?
               && forall k :: k in reply.value.fields ==> k in Answer(reply, stage).fields
                                                          && Answer(reply, stage).fields[k] == reply.value.fields[k])
  {
    if reply.Parsed? {
      CompletedFillsMissing(reply.value);
    }
  }

  /** What `summarize_window` returns; `None` when it raises before its `try`. */
  function WindowResult(transcript: seq<Record>, emotions: seq<(string, seq<Record>)>, rep: string, objective: string,
                        stage: string, fmt: real -> string, llm: string -> LlmReply): Option<Json>
  {
    match TranscriptText(transcript)
    case None => None
    case Some(t) => Some(Answer(llm(UserPrompt(rep, objective, stage, t, EmotionSection(emotions, fmt))), stage))
  }

  /** `summarize_window`: build the prompt, ask the oracle, patch the defaults or fall back. */
  method SummarizeWindow(transcript: seq<Record>, emotions: seq<(string, seq<Record>)>, rep: string, objective: string,
                         stage: string, fmt: real -> string, llm: string -> LlmReply) returns (result: Option<Json>)
    ensures result == WindowResult(transcript, emotions, rep, objective, stage, fmt, llm)
  {
    var transcriptText := TranscriptText(transcript);
    if transcriptText.None? {
      return None;
    }
    var emotionsText := FormatEmotions(emotions, fmt);
    if Text.IsBlank(emotionsText) {
      emotionsText := NoEmotionData;
    }
    assert emotionsText == EmotionSection(emotions, fmt);
    var prompt := UserPrompt(rep, objective, stage, transcriptText.value, emotionsText);
    var answer := Respond(llm(prompt), stage);
    result := Some(answer);
  }

  /** The `try` around the oracle: patch the defaults onto a parsed reply, or build a fallback record. */
  method Respond(reply: LlmReply, stage: string) returns (result: Json)
    ensures result == Answer(reply, stage)
  {
    match reply {
      case Unparsable =>
        result := ParseFallback(stage);
      case Failed(message) =>
        result := ErrorFallback(message, stage);
      case Parsed(v) =>
        var completed := ApplyDefaults(v);
        result := if completed.Some? then completed.value else ErrorFallback(ErrorText, stage);
    }
  }

  // ---------------------------------------------------------------------------------------------
  // Cumulative summary

  /** `f"[{stage}] {text}"` for one earlier summary. */
  function Part(s: Record): string {
    "[" + Str(Get(s, "stage_assessment", JStr("Unknown"))) + "] " + Str(Get(s, "summary", JStr("")))
  }

  function Parts(summaries: seq<Record>): (r: seq<string>)
    ensures |r| == |summaries|
    ensures forall i :: 0 <= i < |r| ==> r[i] == Part(summaries[i])
  {
    seq(|summaries|, i requires 0 <= i < |summaries| => Part(summaries[i]))
  }

  /** `create_cumulative_summary`. */
  function CumulativeSummary(previous: seq<Record>): (r: string)
    ensures previous == [] ==> r == MeetingJustStarted
    ensures |previous| == 1 ==> r == Part(previous[0])
  {
    if previous == [] then MeetingJustStarted
    else Text.Join(Arrow, Parts(Slices.LastN(previous, 5)))
  }

  /** Only the last five summaries matter: earlier ones can be anything. */
  lemma CumulativeUsesLastFive(older: seq<Record>, recent: seq<Record>)
    requires |recent| == 5
    ensures CumulativeSummary(older + recent) == CumulativeSummary(recent)
  {
    assert Slices.LastN(older + recent, 5) == recent;
    assert Slices.LastN(recent, 5) == recent;
  }

  /** With fewer than five earlier summaries, one more appends its part after an arrow. */
  lemma CumulativeGrows(previous: seq<Record>, s: Record)
    requires 0 < |previous| < 5
    ensures CumulativeSummary(previous + [s]) == CumulativeSummary(previous) + Arrow + Part(s)
  {
    assert Slices.LastN(previous + [s], 5) == previous + [s];
    assert Slices.LastN(previous, 5) == previous;
    assert Parts(previous + [s]) == Parts(previous) + [Part(s)];
    Text.JoinSnoc(Arrow, Parts(previous), Part(s));
  }

  /** The text starts with the bracketed stage of the oldest of the last five summaries. */
  lemma CumulativeStartsWithOldestStage(previous: seq<Record>)
    requires previous != []
    ensures Text.StartsWith(CumulativeSummary(previous), Part(Slices.LastN(previous, 5)[0]))
  {
    Text.JoinStartsWithFirst(Arrow, Parts(Slices.LastN(previous, 5)));
  }
}

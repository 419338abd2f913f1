/**
 * Session storage helpers (config/storage_utils.py; config/storage.py is an identical copy):
 * the emotion change detector, the blended emotion label, and the readers that parse the
 * last lines of a session's jsonl files. A file is a sequence of lines; JSON parsing is the
 * `parse` parameter, `None` for a line `json.loads` rejects.
 */
module Storage {
  import opened Wrappers
  import Slices
  import Text

  /** One emotion as trails and summaries carry it: `{"name": ..., "score": ...}`; either key may be missing. */
  datatype Score = Score(name: Option<string>, score: Option<real>)

  /**
   * The top emotions of one window per modality: `audio_emotions`/`video_emotions` of a trail line,
   * or `top_emotions` of a summary's `audio`/`video` part; a missing list is `[]`.
   */
  datatype TopEmotions = TopEmotions(audio: seq<Score>, video: seq<Score>)

  const BlendThreshold: real := 0.07

  function Abs(x: real): real {
    if x < 0.0 then -x else x
  }

  /** One modality of `has_emotion_changed`: both lists present and the top name or score moved. */
  predicate ModalityChanged(before: seq<Score>, after: seq<Score>, threshold: real) {
    && before != [] && after != []
    && (|| before[0].name != after[0].name
        || Abs(before[0].score.GetOr(0.0) - after[0].score.GetOr(0.0)) > threshold)
  }

  /** `has_emotion_changed(old_state, new_emotions, threshold)`; `None` is the empty `old_state`. */
  function HasEmotionChanged(previous: Option<TopEmotions>, current: TopEmotions, threshold: real): (r: bool)
    ensures previous.None? ==> r
    // a changed top name, or a top score that moved by more than the threshold, in either modality
    ensures (previous.Some? && previous.value.audio != [] && current.audio != []
             && previous.value.audio[0].name != current.audio[0].name) ==> r
    ensures (previous.Some? && previous.value.audio != [] && current.audio != []
             && Abs(previous.value.audio[0].score.GetOr(0.0) - current.audio[0].score.GetOr(0.0)) > threshold) ==> r
    ensures (previous.Some? && previous.value.video != [] && current.video != []
             && previous.value.video[0].name != current.video[0].name) ==> r
    ensures (previous.Some? && previous.value.video != [] && current.video != []
             && Abs(previous.value.video[0].score.GetOr(0.0) - current.video[0].score.GetOr(0.0)) > threshold) ==> r
    // and nothing else: a reported change is one of those four
    ensures (r && previous.Some?) ==>
              || (&& previous.value.audio != [] && current.audio != []
                  && (|| previous.value.audio[0].name != current.audio[0].name
                      || Abs(previous.value.audio[0].score.GetOr(0.0) - current.audio[0].score.GetOr(0.0)) > threshold))
              || (&& previous.value.video != [] && current.video != []
                  && (|| previous.value.video[0].name != current.video[0].name
                      || Abs(previous.value.video[0].score.GetOr(0.0) - current.video[0].score.GetOr(0.0)) > threshold))
    ensures (&& previous.Some?
             && (previous.value.audio == [] || current.audio == [])
             && (previous.value.video == [] || current.video == [])) ==> !r
  {
    previous.None?
    || ModalityChanged(previous.value.audio, current.audio, threshold)
    || ModalityChanged(previous.value.video, current.video, threshold)
  }

  /** Comparing a state with itself is never a change, whatever the (non-negative) threshold. */
  lemma UnchangedIsStable(state: TopEmotions, threshold: real)
    requires threshold >= 0.0
    ensures !HasEmotionChanged(Some(state), state, threshold)
  {
  }

  /** The detector does not care which of the two states is the older one. */
  lemma ChangeIsSymmetric(a: TopEmotions, b: TopEmotions, threshold: real)
    ensures HasEmotionChanged(Some(a), b, threshold) == HasEmotionChanged(Some(b), a, threshold)
  {
  }

  /** A change at some threshold is also a change at every lower threshold. */
  lemma ChangeMonotoneInThreshold(a: TopEmotions, b: TopEmotions, low: real, high: real)
    requires low <= high && HasEmotionChanged(Some(a), b, high)
    ensures HasEmotionChanged(Some(a), b, low)
  {
  }

  /** Same top emotion: a score drift of 0.03 is not a change at 0.1, a drift of 0.15 is. */
  lemma ScoreDriftScenario()
    ensures var joy := (x: real) => TopEmotions([Score(Some("Joy"), Some(x))], []);
      && !HasEmotionChanged(Some(joy(0.5)), joy(0.53), 0.1)
      && HasEmotionChanged(Some(joy(0.5)), joy(0.65), 0.1)
  {
  }

  // ---------------------------------------------------------------- blended label

  /**
   * `[e for e in emotions if top_score - e["score"] <= threshold]`; `None` when an entry has no
   * score (Python raises `KeyError`).
   */
  function CloseTo(emotions: seq<Score>, topScore: real, threshold: real): Option<seq<Score>> {
    if emotions == [] then Some([])
    else if emotions[0].score.None? then None
    else match CloseTo(emotions[1..], topScore, threshold)
      case None => None
      case Some(rest) =>
        Some((if topScore - emotions[0].score.value <= threshold then [emotions[0]] else []) + rest)
  }

  /** `e["name"]` for each entry; `None` when one is missing. */
  function Names(emotions: seq<Score>): (r: Option<seq<string>>)
    ensures r.Some? ==> |r.value| == |emotions|
  {
    if emotions == [] then Some([])
    else if emotions[0].name.None? then None
    else match Names(emotions[1..])
      case None => None
      case Some(rest) => Some([emotions[0].name.value] + rest)
  }

  /** `get_blended_emotion_label(emotions, threshold)`; `None` when Python raises (a missing key or index). */
  function BlendedLabel(emotions: seq<Score>, threshold: real): (blend: Option<string>)
    ensures emotions == [] ==> blend == Some("Neutral")
    ensures emotions != [] && emotions[0].score.None? ==> blend.None?
    // an empty close set (a negative threshold) reaches `names[0]`, which raises
    ensures emotions != [] && emotions[0].score.Some? && blend.Some? ==>
              CloseTo(emotions, emotions[0].score.value, threshold).Some?
              && CloseTo(emotions, emotions[0].score.value, threshold).value != []
  {
    if emotions == [] then Some("Neutral")
    else if emotions[0].score.None? then None
    else match CloseTo(emotions, emotions[0].score.value, threshold)
      case None => None
      case Some(close) =>
        if |close| == 1 then emotions[0].name
        else if |close| == 2 then
          (if close[0].name.Some? && close[1].name.Some?
           then Some(close[0].name.value + " + " + close[1].name.value) else None)
        else if |close| >= 3 && Names(close[..3]).Some? then
          var names := Names(close[..3]).value;
          Some(names[0] + " + " + names[1] + " + " + names[2])
        else None
  }

  /** Every entry has a name and a score. */
  predicate Complete(emotions: seq<Score>) {
    forall i :: 0 <= i < |emotions| ==> emotions[i].name.Some? && emotions[i].score.Some?
  }

  /** For complete entries the close set exists and holds exactly the entries within `threshold` of `topScore`. */
  lemma {:induction false} CloseToMembers(emotions: seq<Score>, topScore: real, threshold: real)
    requires Complete(emotions)
    ensures CloseTo(emotions, topScore, threshold).Some?
    ensures var close := CloseTo(emotions, topScore, threshold).value;
      && Complete(close)
      && forall e :: e in close <==> e in emotions && topScore - e.score.value <= threshold
  {
    if emotions != [] {
      CloseToMembers(emotions[1..], topScore, threshold);
      assert emotions == [emotions[0]] + emotions[1..];
    }
  }

  /**
   * The close set keeps list order and multiplicity: filtering a concatenation is concatenating
   * the filtered parts, and it fails exactly when one of the parts does.
   */
  lemma {:induction false} CloseToAppend(a: seq<Score>, b: seq<Score>, topScore: real, threshold: real)
    ensures CloseTo(a + b, topScore, threshold)
            == if CloseTo(a, topScore, threshold).Some? && CloseTo(b, topScore, threshold).Some?
               then Some(CloseTo(a, topScore, threshold).value + CloseTo(b, topScore, threshold).value)
               else None
  {
    if a == [] {
      assert a + b == b;
      if CloseTo(b, topScore, threshold).Some? {
        assert [] + CloseTo(b, topScore, threshold).value == CloseTo(b, topScore, threshold).value;
      }
    } else {
      assert (a + b)[1..] == a[1..] + b;
      CloseToAppend(a[1..], b, topScore, threshold);
      if a[0].score.Some? && CloseTo(a[1..], topScore, threshold).Some? && CloseTo(b, topScore, threshold).Some? {
        var head := if topScore - a[0].score.value <= threshold then [a[0]] else [];
        assert head + (CloseTo(a[1..], topScore, threshold).value + CloseTo(b, topScore, threshold).value)
               == (head + CloseTo(a[1..], topScore, threshold).value) + CloseTo(b, topScore, threshold).value;
      }
    }
  }

  /** A single entry is kept exactly when it is within the threshold of the top score. */
  lemma CloseToSingle(e: Score, topScore: real, threshold: real)
    requires e.score.Some?
    ensures CloseTo([e], topScore, threshold) == Some(if topScore - e.score.value <= threshold then [e] else [])
  {
    assert [e][1..] == [];
    assert CloseTo([e][1..], topScore, threshold) == Some([]);
    var head: seq<Score> := if topScore - e.score.value <= threshold then [e] else [];
    assert head + [] == head;
  }

  lemma {:induction false} NamesOfComplete(emotions: seq<Score>)
    requires Complete(emotions)
    ensures Names(emotions).Some? && |Names(emotions).value| == |emotions|
    ensures forall i :: 0 <= i < |emotions| ==> Names(emotions).value[i] == emotions[i].name.value
  {
    if emotions != [] {
      NamesOfComplete(emotions[1..]);
    }
  }

  /**
   * For complete entries and a non-negative threshold the label is the names of the first
   * min(3, n) close entries joined by " + ", where the close set always starts with the top entry;
   * an empty list is "Neutral".
   */
  lemma BlendedLabelJoinsCloseNames(emotions: seq<Score>, threshold: real)
    requires Complete(emotions) && threshold >= 0.0
    ensures emotions == [] ==> BlendedLabel(emotions, threshold) == Some("Neutral")
    ensures emotions != [] ==>
      && CloseTo(emotions, emotions[0].score.value, threshold).Some?
      && var close := CloseTo(emotions, emotions[0].score.value, threshold).value;
         var k := if |close| < 3 then |close| else 3;
         && close != [] && close[0] == emotions[0]
         && Names(close[..k]).Some?
         && BlendedLabel(emotions, threshold) == Some(Text.Join(" + ", Names(close[..k]).value))
  {
    if emotions != [] {
      var top := emotions[0].score.value;
      CloseToMembers(emotions, top, threshold);
      var close := CloseTo(emotions, top, threshold).value;
      assert emotions[0] in close;
      assert close[0] == emotions[0] by {
        assert emotions == [emotions[0]] + emotions[1..];
      }
      var k := if |close| < 3 then |close| else 3;
      NamesOfComplete(close[..k]);
      var names := Names(close[..k]).value;
      if k == 2 {
        assert Text.Join(" + ", names) == names[0] + " + " + Text.Join(" + ", names[1..]);
      } else if k == 3 {
        assert Text.Join(" + ", names) == names[0] + " + " + Text.Join(" + ", names[1..]);
        assert Text.Join(" + ", names[1..]) == names[1] + " + " + Text.Join(" + ", names[2..]);
        assert names[0] + " + " + (names[1] + " + " + names[2]) == names[0] + " + " + names[1] + " + " + names[2];
      }
    }
  }

  // ---------------------------------------------------------------- recent-line readers

  /** The lines that parse, parsed, in file order. */
  function Parsed<L, T>(lines: seq<L>, parse: L -> Option<T>): seq<T> {
    if lines == [] then []
    else Parsed(lines[..|lines| - 1], parse)
         + (match parse(lines[|lines| - 1]) case Some(x) => [x] case None => [])
  }

  /** Parsing never adds entries, and skipping bad lines keeps the others in order. */
  lemma {:induction false} ParsedProperties<L, T>(lines: seq<L>, more: seq<L>, parse: L -> Option<T>)
    ensures |Parsed(lines, parse)| <= |lines|
    ensures Parsed(lines + more, parse) == Parsed(lines, parse) + Parsed(more, parse)
    decreases |lines| + |more|
  {
    if more != [] {
      var init := more[..|more| - 1];
      assert (lines + more)[..|lines + more| - 1] == lines + init;
      ParsedProperties(lines, init, parse);
    } else {
      assert lines + more == lines;
      if lines != [] {
        ParsedProperties(lines[..|lines| - 1], [], parse);
      }
    }
  }

  /** An entry is read back exactly when some line parses to it. */
  lemma {:induction false} ParsedMembers<L, T>(lines: seq<L>, parse: L -> Option<T>, x: T)
    ensures x in Parsed(lines, parse) <==> exists l :: l in lines && parse(l) == Some(x)
  {
    if lines != [] {
      var init, last := lines[..|lines| - 1], lines[|lines| - 1];
      ParsedMembers(init, parse, x);
      assert lines == init + [last];
      if x in Parsed(init, parse) {
        var l :| l in init && parse(l) == Some(x);
        assert l in lines;
      }
      if exists l :: l in lines && parse(l) == Some(x) {
        var l :| l in lines && parse(l) == Some(x);
        if l != last {
          assert l in init;
        }
      }
    }
  }

  /** The loop over `lines[-limit:]` of one file: missing file, no entries. */
  method ReadRecent<L, T>(file: Option<seq<L>>, limit: int, parse: L -> Option<T>) returns (recent: seq<T>)
    ensures file.None? ==> recent == []
    ensures file.Some? ==> recent == Parsed(Slices.LastN(file.value, limit), parse)
  {
    recent := [];
    if file.None? {
      return;
    }
    var lines := Slices.LastN(file.value, limit);
    var i := 0;
    while i < |lines|
      invariant 0 <= i <= |lines|
      invariant recent == Parsed(lines[..i], parse)
    {
      assert lines[..i + 1][..i] == lines[..i];
      match parse(lines[i]) {
        case Some(entry) => recent := recent + [entry];
        case None =>
      }
      i := i + 1;
    }
    assert lines[..i] == lines;
  }

  /** For a positive limit a reader returns at most `limit` entries, all parsed from the last `limit` lines. */
  lemma RecentAtMostLimit<L, T>(lines: seq<L>, limit: int, parse: L -> Option<T>)
    requires limit >= 1
    ensures |Parsed(Slices.LastN(lines, limit), parse)| <= limit
    ensures forall x :: x in Parsed(Slices.LastN(lines, limit), parse) <==>
              exists i :: |lines| - limit <= i < |lines| && 0 <= i && parse(lines[i]) == Some(x)
  {
    var tail := Slices.LastN(lines, limit);
    ParsedProperties(tail, [], parse);
    forall x ensures x in Parsed(tail, parse) <==>
                     (exists i :: |lines| - limit <= i < |lines| && 0 <= i && parse(lines[i]) == Some(x))
    {
      ParsedMembers(tail, parse, x);
      if exists l :: l in tail && parse(l) == Some(x) {
        var l :| l in tail && parse(l) == Some(x);
        var j :| 0 <= j < |tail| && tail[j] == l;
        assert lines[|lines| - |tail| + j] == l;
      }
      if exists i :: |lines| - limit <= i < |lines| && 0 <= i && parse(lines[i]) == Some(x) {
        var i :| |lines| - limit <= i < |lines| && 0 <= i && parse(lines[i]) == Some(x);
        assert tail[i - (|lines| - |tail|)] == lines[i];
      }
    }
  }

  /** `get_recent_emotion_trail`: the speaker's `<speaker>_emotions.jsonl`, absent when the speaker has none. */
  method RecentEmotionTrail<L, T>(trails: map<string, seq<L>>, speaker: string, limit: int, parse: L -> Option<T>)
    returns (recent: seq<T>)
    ensures speaker !in trails ==> recent == []
    ensures speaker in trails ==> recent == Parsed(Slices.LastN(trails[speaker], limit), parse)
  {
    recent := ReadRecent(if speaker in trails then Some(trails[speaker]) else None, limit, parse);
  }

  /** `get_recent_transcript`: the session's `transcript.jsonl`. */
  method RecentTranscript<L, T>(transcript: Option<seq<L>>, limit: int, parse: L -> Option<T>)
    returns (recent: seq<T>)
    ensures transcript.None? ==> recent == []
    ensures limit >= 1 && transcript.Some? ==> |recent| <= limit
    ensures transcript.Some? ==> recent == Parsed(Slices.LastN(transcript.value, limit), parse)
  {
    recent := ReadRecent(transcript, limit, parse);
    if limit >= 1 && transcript.Some? {
      RecentAtMostLimit(transcript.value, limit, parse);
    }
  }

  /**
   * `get_last_emotion_state`: the parsed last line of the speaker's trail; `None` (the empty dict)
   * when there is no trail, it is empty, or its last line does not parse.
   */
  method LastEmotionState<L, T>(trails: map<string, seq<L>>, speaker: string, parse: L -> Option<T>)
    returns (state: Option<T>)
    ensures state == if speaker in trails && trails[speaker] != []
                     then parse(trails[speaker][|trails[speaker]| - 1]) else None
  {
    var trail := RecentEmotionTrail(trails, speaker, 1, parse);
    if speaker in trails && trails[speaker] != [] {
      var lines := trails[speaker];
      assert Slices.LastN(lines, 1) == [lines[|lines| - 1]];
      assert Parsed([lines[|lines| - 1]], parse) == Parsed([], parse) + (match parse(lines[|lines| - 1]) case Some(x) => [x] case None => []);
    }
    state := if trail != [] then Some(trail[0]) else None;
  }
}

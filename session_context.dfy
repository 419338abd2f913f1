/**
 * The rolling session context of affina/context_manager.py: per session, a 120-second transcript
 * window, per-speaker 120-second emotion windows, the history of window summaries and the
 * 30-second summarize gate; plus the registry of contexts by session id. Each read of the clock
 * is the parameter `now`; the summary timestamp string is the parameter `stamp`.
 */
module SessionContexts {
  import opened Wrappers
  import opened JsonValue
  import Slices
  import Summarizer
  import Text

  type Record = map<string, Json>

  const WindowSeconds: real := 120.0
  const SummaryIntervalSeconds: real := 30.0
  const WindowDurationSeconds: int := 120

  // ---------------------------------------------------------------------------------------------
  // Trimming a window

  /** An entry `e.get('_added_at', 0) > cutoff` can be evaluated for: the stamp is missing or a number. */
  predicate Stampable(e: Record) {
    Number(Get(e, "_added_at", JNum(0.0))).Some?
  }

  predicate AllStampable(es: seq<Record>) {
    forall i :: 0 <= i < |es| ==> Stampable(es[i])
  }

  /** `e.get('_added_at', 0)`. */
  function AddedAt(e: Record): real
    requires Stampable(e)
  {
    Number(Get(e, "_added_at", JNum(0.0))).value
  }

  /** `entry['_added_at'] = now`. */
  function Stamped(e: Record, now: real): (r: Record)
    ensures Stampable(r) && AddedAt(r) == now
  {
    e["_added_at" := JNum(now)]
  }

  /** `[e for e in entries if e.get('_added_at', 0) > cutoff]`. */
  function Retained(es: seq<Record>, cutoff: real): (r: seq<Record>)
    requires AllStampable(es)
    ensures AllStampable(r) && |r| <= |es|
    decreases |es|
  {
    if es == [] then []
    else
      var last := es[|es| - 1];
      Retained(es[..|es| - 1], cutoff) + (if AddedAt(last) > cutoff then [last] else [])
  }

  /** An entry is kept exactly when it is stamped strictly after the cutoff. */
  lemma {:induction false} RetainedMembers(es: seq<Record>, cutoff: real, e: Record)
    requires AllStampable(es)
    ensures e in Retained(es, cutoff) <==> e in es && Stampable(e) && AddedAt(e) > cutoff
    decreases |es|
  {
    if es != [] {
      var init := es[..|es| - 1];
      RetainedMembers(init, cutoff, e);
      assert es == init + [es[|es| - 1]];
    }
  }

  /** Trimming keeps the original order: it distributes over concatenation. */
  lemma {:induction false} RetainedAppend(a: seq<Record>, b: seq<Record>, cutoff: real)
    requires AllStampable(a) && AllStampable(b)
    ensures AllStampable(a + b)
    ensures Retained(a + b, cutoff) == Retained(a, cutoff) + Retained(b, cutoff)
    decreases |b|
  {
    assert AllStampable(a + b) by {
      forall i | 0 <= i < |a + b|
        ensures Stampable((a + b)[i])
      {
        if i >= |a| {
          assert (a + b)[i] == b[i - |a|];
        }
      }
    }
    if b != [] {
      var b' := b[..|b| - 1];
      assert (a + b)[..|a + b| - 1] == a + b';
      RetainedAppend(a, b', cutoff);
    } else {
      assert a + b == a;
    }
  }

  /** Trimming again at a later cutoff is the same as trimming once at that cutoff. */
  lemma {:induction false} RetainedTwice(es: seq<Record>, c1: real, c2: real)
    requires AllStampable(es) && c1 <= c2
    ensures Retained(Retained(es, c1), c2) == Retained(es, c2)
    decreases |es|
  {
    if es != [] {
      var init, last := es[..|es| - 1], es[|es| - 1];
      RetainedTwice(init, c1, c2);
      var tail := if AddedAt(last) > c1 then [last] else [];
      RetainedAppend(Retained(init, c1), tail, c2);
      if AddedAt(last) > c1 {
        assert [last][..0] == [];
      }
    }
  }

  /** An entry stamped `now` survives the trim at `now - 120` as the last entry. */
  lemma NewEntrySurvives(es: seq<Record>, e: Record, now: real)
    requires AllStampable(es)
    ensures AllStampable(es + [Stamped(e, now)])
    ensures Retained(es + [Stamped(e, now)], now - WindowSeconds) == Retained(es, now - WindowSeconds) + [Stamped(e, now)]
  {
    RetainedAppend(es, [Stamped(e, now)], now - WindowSeconds);
    assert [Stamped(e, now)][..0] == [];
  }

  /** An entry without a stamp counts as stamped at 0. */
  lemma UnstampedCountsAsZero(e: Record, cutoff: real)
    requires "_added_at" !in e
    ensures Retained([e], cutoff) == (if cutoff < 0.0 then [e] else [])
  {
    assert [e][..0] == [];
  }

  /** Every speaker's window trimmed at `cutoff`; the keys stay. */
  function TrimmedWindows(window: map<string, seq<Record>>, cutoff: real): (r: map<string, seq<Record>>)
    requires forall s :: s in window ==> AllStampable(window[s])
    ensures r.Keys == window.Keys
  {
    map s | s in window :: Retained(window[s], cutoff)
  }

  /** A window whose every list is the trimmed old list is the trimmed window. */
  lemma TrimmedWindowsEach(window: map<string, seq<Record>>, trimmed: map<string, seq<Record>>, cutoff: real)
    requires forall s :: s in window ==> AllStampable(window[s])
    requires trimmed.Keys == window.Keys
    requires forall s :: s in trimmed ==> trimmed[s] == Retained(window[s], cutoff)
    ensures trimmed == TrimmedWindows(window, cutoff)
  {
  }

  /** The emotion window as `(speaker, entries)` pairs in key order. */
  function ItemsOf(speakers: seq<string>, window: map<string, seq<Record>>): (r: seq<(string, seq<Record>)>)
    requires forall s :: s in speakers ==> s in window
    ensures |r| == |speakers|
    ensures forall i :: 0 <= i < |r| ==> r[i] == (speakers[i], window[speakers[i]])
  {
    seq(|speakers|, i requires 0 <= i < |speakers| => (speakers[i], window[speakers[i]]))
  }

  // ---------------------------------------------------------------------------------------------
  // Summaries and the coaching context

  /**
   * The summary `create_summary` records for a summarizer result: the result dict with the
   * `timestamp`, `window_start` and `window_end` keys set; `None` when the result is not a dict
   * (setting a key raises), when the summarizer raised, or when the summary file write fails.
   */
  function NewSummary(result: Option<Json>, windowStart: real, now: real, stamp: string, writeFails: bool): Option<Record> {
    match result
    case Some(JObj(m)) =>
      if writeFails then None
      else Some(m["timestamp" := JStr(stamp)]["window_start" := JNum(windowStart)]["window_end" := JNum(now)])
    case _ => None
  }

  /**
   * What `create_summary` yields for a window: nothing when both windows are empty, otherwise
   * the recorded summary of the window's transcript and emotions.
   */
  function WindowSummary(transcript: seq<Record>, emotionWindow: map<string, seq<Record>>, speakers: seq<string>,
                         rep: string, objective: string, phase: string, windowStart: real, now: real, stamp: string,
                         fmt: real -> string, llm: string -> Summarizer.LlmReply, writeFails: bool): Option<Record>
    requires forall s :: s in speakers ==> s in emotionWindow
  {
    if transcript == [] && emotionWindow == map[] then None
    else NewSummary(Summarizer.WindowResult(transcript, ItemsOf(speakers, emotionWindow), rep, objective, phase, fmt, llm),
                    windowStart, now, stamp, writeFails)
  }

  /** The `try` body of `create_summary` up to the file write: summarize, then add the metadata keys. */
  method RecordSummary(transcript: seq<Record>, items: seq<(string, seq<Record>)>, rep: string, objective: string,
                       phase: string, fmt: real -> string, llm: string -> Summarizer.LlmReply,
                       windowStart: real, now: real, stamp: string, writeFails: bool) returns (summary: Option<Record>)
    ensures summary == NewSummary(Summarizer.WindowResult(transcript, items, rep, objective, phase, fmt, llm),
                                  windowStart, now, stamp, writeFails)
  {
    var result := Summarizer.SummarizeWindow(transcript, items, rep, objective, phase, fmt, llm);
    if result.None? || !result.value.JObj? {
      return None;
    }
    var record := result.value.fields;
    record := record["timestamp" := JStr(stamp)];
    record := record["window_start" := JNum(windowStart)];
    record := record["window_end" := JNum(now)];
    if writeFails {
      return None;
    }
    summary := Some(record);
  }

  /** A recorded summary carries every required analysis field and the window it covers. */
  lemma NewSummaryFields(transcript: seq<Record>, items: seq<(string, seq<Record>)>, rep: string, objective: string,
                         phase: string, fmt: real -> string, llm: string -> Summarizer.LlmReply,
                         windowStart: real, now: real, stamp: string, writeFails: bool)
    requires NewSummary(Summarizer.WindowResult(transcript, items, rep, objective, phase, fmt, llm), windowStart, now, stamp, writeFails).Some?
    ensures var s := NewSummary(Summarizer.WindowResult(transcript, items, rep, objective, phase, fmt, llm), windowStart, now, stamp, writeFails).value;
            (forall f :: f in Summarizer.Required ==> f in s)
            && s["window_start"] == JNum(windowStart) && s["window_end"] == JNum(now) && s["timestamp"] == JStr(stamp)
  {
    var prompt := Summarizer.UserPrompt(rep, objective, phase, Summarizer.TranscriptText(transcript).value,
                                        Summarizer.EmotionSection(items, fmt));
    Summarizer.AnswerFields(llm(prompt), phase);
  }

  /** What `prepare_coaching_context` returns. */
  datatype CoachingContext = CoachingContext(
    sessionId: string, phase: string, objective: string, salesRepName: string,
    conversationHistory: string, cumulativeSummary: string, previousSummariesCount: int,
    transcript: string, repEmotions: seq<Record>, customerEmotions: map<string, seq<Record>>,
    durationSeconds: int, latestAnalysis: Option<Record>, coachingReady: Json)

  /** What `process_context_updates` ends with. */
  datatype Update =
    | Idle                             // returns None
    | Coach(context: CoachingContext)  // returns the prepared context
    | Raises                           // preparing the context raised (a transcript entry lacks a key)

  // ---------------------------------------------------------------------------------------------
  // One session

  class SessionContext {
    var sessionId: string
    var salesRepName: string
    var objective: string
    var phase: string
    var transcriptWindow: seq<Record>
    var emotionWindow: map<string, seq<Record>>
    /** The key order of `emotion_window`. */
    var speakers: seq<string>
    var summaries: seq<Record>
    var lastSummaryTime: real
    var windowStartTime: real

    predicate Valid()
      reads this
    {
      AllStampable(transcriptWindow)
      && (forall s :: s in emotionWindow ==> AllStampable(emotionWindow[s]))
      && (forall s :: s in speakers ==> s in emotionWindow)
      && (forall s :: s in emotionWindow ==> s in speakers)
      && (forall i, j :: 0 <= i < j < |speakers| ==> speakers[i] != speakers[j])
    }

    constructor(sessionId: string, salesRepName: string, objective: string, phase: string, now: real)
      ensures Valid()
      ensures this.sessionId == sessionId && this.salesRepName == salesRepName
      ensures this.objective == objective && this.phase == phase
      ensures transcriptWindow == [] && emotionWindow == map[] && speakers == [] && summaries == []
      ensures lastSummaryTime == now && windowStartTime == now
    {
      this.sessionId := sessionId;
      this.salesRepName := salesRepName;
      this.objective := objective;
      this.phase := phase;
      transcriptWindow := [];
      emotionWindow := map[];
      speakers := [];
      summaries := [];
      lastSummaryTime := now;
      windowStartTime := now;
    }

    /** `update_metadata`: a missing or empty value leaves the field as it is. */
    method UpdateMetadata(newPhase: Option<string>, newObjective: Option<string>)
      requires Valid()
      modifies this
      ensures Valid()
      ensures phase == (if newPhase.Some? && newPhase.value != "" then newPhase.value else old(phase))
      ensures objective == (if newObjective.Some? && newObjective.value != "" then newObjective.value else old(objective))
      ensures sessionId == old(sessionId) && salesRepName == old(salesRepName)
      ensures transcriptWindow == old(transcriptWindow) && emotionWindow == old(emotionWindow) && speakers == old(speakers)
      ensures summaries == old(summaries) && lastSummaryTime == old(lastSummaryTime) && windowStartTime == old(windowStartTime)
    {
      if newPhase.Some? && newPhase.value != "" {
        phase := newPhase.value;
      }
      if newObjective.Some? && newObjective.value != "" {
        objective := newObjective.value;
      }
    }

    /** `_trim_transcript_window`. */
    method TrimTranscriptWindow(now: real)
      requires Valid()
      modifies this
      ensures Valid()
      ensures transcriptWindow == Retained(old(transcriptWindow), now - WindowSeconds)
      ensures sessionId == old(sessionId) && salesRepName == old(salesRepName) && objective == old(objective) && phase == old(phase)
      ensures emotionWindow == old(emotionWindow) && speakers == old(speakers)
      ensures summaries == old(summaries) && lastSummaryTime == old(lastSummaryTime) && windowStartTime == old(windowStartTime)
    {
      transcriptWindow := Retained(transcriptWindow, now - WindowSeconds);
    }

    /** `_trim_emotion_window(speaker)`, for a speaker the window has. */
    method TrimEmotionWindow(speaker: string, now: real)
      requires Valid() && speaker in emotionWindow
      modifies this
      ensures Valid()
      ensures emotionWindow == old(emotionWindow)[speaker := Retained(old(emotionWindow)[speaker], now - WindowSeconds)]
      ensures sessionId == old(sessionId) && salesRepName == old(salesRepName) && objective == old(objective) && phase == old(phase)
      ensures transcriptWindow == old(transcriptWindow) && speakers == old(speakers)
      ensures summaries == old(summaries) && lastSummaryTime == old(lastSummaryTime) && windowStartTime == old(windowStartTime)
    {
      emotionWindow := emotionWindow[speaker := Retained(emotionWindow[speaker], now - WindowSeconds)];
    }

    /** `add_transcript_entry`: stamp, append, trim; the new entry is the last one kept. */
    method AddTranscriptEntry(entry: Record, now: real)
      requires Valid()
      modifies this
      ensures Valid()
      ensures transcriptWindow == Retained(old(transcriptWindow), now - WindowSeconds) + [Stamped(entry, now)]
      ensures sessionId == old(sessionId) && salesRepName == old(salesRepName) && objective == old(objective) && phase == old(phase)
      ensures emotionWindow == old(emotionWindow) && speakers == old(speakers)
      ensures summaries == old(summaries) && lastSummaryTime == old(lastSummaryTime) && windowStartTime == old(windowStartTime)
    {
      NewEntrySurvives(transcriptWindow, entry, now);
      transcriptWindow := transcriptWindow + [Stamped(entry, now)];
      TrimTranscriptWindow(now);
    }

    /**
     * `add_emotion_entry`: an unseen speaker gets a fresh list at the end of the key order; the
     * entry is stamped and appended; only that speaker's list is trimmed, and it ends with the entry.
     */
    method AddEmotionEntry(speaker: string, entry: Record, now: real)
      requires Valid()
      modifies this
      ensures Valid()
      ensures speaker in emotionWindow
      ensures emotionWindow == old(emotionWindow)[speaker :=
                Retained(if speaker in old(emotionWindow) then old(emotionWindow)[speaker] else [], now - WindowSeconds)
                + [Stamped(entry, now)]]
      ensures speakers == if speaker in old(emotionWindow) then old(speakers) else old(speakers) + [speaker]
      ensures sessionId == old(sessionId) && salesRepName == old(salesRepName) && objective == old(objective) && phase == old(phase)
      ensures transcriptWindow == old(transcriptWindow)
      ensures summaries == old(summaries) && lastSummaryTime == old(lastSummaryTime) && windowStartTime == old(windowStartTime)
    {
      var entries := if speaker in emotionWindow then emotionWindow[speaker] else [];
      if speaker !in emotionWindow {
        assert speaker !in speakers;
        speakers := speakers + [speaker];
      }
      NewEntrySurvives(entries, entry, now);
      emotionWindow := emotionWindow[speaker := entries + [Stamped(entry, now)]];
      TrimEmotionWindow(speaker, now);
    }

    /** The trimming at the start of `process_context_updates`: the transcript, then every speaker. */
    method TrimAll(now: real)
      requires Valid()
      modifies this
      ensures Valid()
      ensures transcriptWindow == Retained(old(transcriptWindow), now - WindowSeconds)
      ensures emotionWindow == TrimmedWindows(old(emotionWindow), now - WindowSeconds)
      ensures sessionId == old(sessionId) && salesRepName == old(salesRepName) && objective == old(objective) && phase == old(phase)
      ensures speakers == old(speakers)
      ensures summaries == old(summaries) && lastSummaryTime == old(lastSummaryTime) && windowStartTime == old(windowStartTime)
    {
      TrimTranscriptWindow(now);
      var keys := speakers;
      var i := 0;
      while i < |keys|
        invariant 0 <= i <= |keys|
        invariant Valid()
        invariant speakers == keys
        invariant transcriptWindow == Retained(old(transcriptWindow), now - WindowSeconds)
        invariant emotionWindow.Keys == old(emotionWindow).Keys
        invariant forall k :: 0 <= k < i ==> emotionWindow[keys[k]] == Retained(old(emotionWindow)[keys[k]], now - WindowSeconds)
        invariant forall k :: i <= k < |keys| ==> emotionWindow[keys[k]] == old(emotionWindow)[keys[k]]
        invariant sessionId == old(sessionId) && salesRepName == old(salesRepName) && objective == old(objective) && phase == old(phase)
        invariant summaries == old(summaries) && lastSummaryTime == old(lastSummaryTime) && windowStartTime == old(windowStartTime)
      {
        TrimEmotionWindow(keys[i], now);
        i := i + 1;
      }
      forall s | s in emotionWindow
        ensures emotionWindow[s] == Retained(old(emotionWindow)[s], now - WindowSeconds)
      {
        var k :| 0 <= k < |keys| && keys[k] == s;
      }
      TrimmedWindowsEach(old(emotionWindow), emotionWindow, now - WindowSeconds);
    }

    /** `should_summarize`: at least 30 seconds since the last summary; never at the moment of the last one. */
    function ShouldSummarize(now: real): (due: bool)
      reads this
      ensures due ==> now > lastSummaryTime
    {
      now - lastSummaryTime >= SummaryIntervalSeconds
    }

    /** Once a summary is due it stays due until one is taken. */
    lemma DueStaysDue(now: real, later: real)
      requires now <= later && ShouldSummarize(now)
      ensures ShouldSummarize(later)
    {
    }

    /**
     * `create_summary`. With no transcript entries and no emotion keys nothing happens. Otherwise
     * the summarizer runs on the window; a recorded summary is appended to the history and both
     * clocks move to `now`; on failure the state is left as it was.
     */
    method CreateSummary(now: real, stamp: string, fmt: real -> string, llm: string -> Summarizer.LlmReply, writeFails: bool)
      returns (summary: Option<Record>)
      requires Valid()
      modifies this
      ensures Valid()
      ensures old(transcriptWindow) == [] && old(emotionWindow) == map[] ==> summary.None?
      ensures summary == WindowSummary(old(transcriptWindow), old(emotionWindow), old(speakers), old(salesRepName),
                                       old(objective), old(phase), old(windowStartTime), now, stamp, fmt, llm, writeFails)
      ensures summary.None? ==> summaries == old(summaries) && lastSummaryTime == old(lastSummaryTime)
                                && windowStartTime == old(windowStartTime)
      ensures summary.Some? ==> summaries == old(summaries) + [summary.value] && lastSummaryTime == now && windowStartTime == now
      ensures sessionId == old(sessionId) && salesRepName == old(salesRepName) && objective == old(objective) && phase == old(phase)
      ensures transcriptWindow == old(transcriptWindow) && emotionWindow == old(emotionWindow) && speakers == old(speakers)
    {
      if transcriptWindow == [] && emotionWindow == map[] {
        return None;
      }
      summary := RecordSummary(transcriptWindow, ItemsOf(speakers, emotionWindow), salesRepName, objective, phase,
                               fmt, llm, windowStartTime, now, stamp, writeFails);
      if summary.Some? {
        AppendSummary(summary.value, now);
      }
    }

    /**
     * The summary step of `process_context_updates`: `create_summary` when 30 seconds have passed.
     * The history gains the recorded summary, if any; the windows and metadata stay.
     */
    method SummarizeIfDue(now: real, stamp: string, fmt: real -> string, llm: string -> Summarizer.LlmReply, writeFails: bool)
      returns (summary: Option<Record>)
      requires Valid()
      modifies this
      ensures Valid()
      ensures !old(ShouldSummarize(now)) ==> summary.None?
      ensures old(ShouldSummarize(now)) ==>
                summary == WindowSummary(old(transcriptWindow), old(emotionWindow), old(speakers), old(salesRepName),
                                         old(objective), old(phase), old(windowStartTime), now, stamp, fmt, llm, writeFails)
      ensures summary.None? ==> summaries == old(summaries) && lastSummaryTime == old(lastSummaryTime)
                                && windowStartTime == old(windowStartTime)
      ensures summary.Some? ==> summaries == old(summaries) + [summary.value] && lastSummaryTime == now && windowStartTime == now
      ensures sessionId == old(sessionId) && salesRepName == old(salesRepName) && objective == old(objective) && phase == old(phase)
      ensures transcriptWindow == old(transcriptWindow) && emotionWindow == old(emotionWindow) && speakers == old(speakers)
    {
      summary := None;
      if ShouldSummarize(now) {
        summary := CreateSummary(now, stamp, fmt, llm, writeFails);
      }
    }

    /** `self.summaries.append(summary)`, then both clocks move to `now`. */
    method AppendSummary(summary: Record, now: real)
      requires Valid()
      modifies this
      ensures Valid()
      ensures summaries == old(summaries) + [summary] && lastSummaryTime == now && windowStartTime == now
      ensures sessionId == old(sessionId) && salesRepName == old(salesRepName) && objective == old(objective) && phase == old(phase)
      ensures transcriptWindow == old(transcriptWindow) && emotionWindow == old(emotionWindow) && speakers == old(speakers)
    {
      summaries := summaries + [summary];
      lastSummaryTime := now;
      windowStartTime := now;
    }

    /** `prepare_coaching_context`; `None` when a transcript entry lacks a key and the join raises. */
    function PrepareCoachingContext(): (r: Option<CoachingContext>)
      reads this
      ensures r.Some? <==> Summarizer.TranscriptLines(transcriptWindow).Some?
      ensures r.Some? ==>
                r.value.coachingReady == (if summaries == [] then JBool(false)
                                          else if "coaching_ready" in summaries[|summaries| - 1]
                                          then summaries[|summaries| - 1]["coaching_ready"]
                                          else JBool(false))
      ensures r.Some? ==> r.value.latestAnalysis == (if summaries == [] then None else Some(summaries[|summaries| - 1]))
      ensures r.Some? ==> r.value.conversationHistory == Summarizer.CumulativeSummary(Slices.AllButLast(summaries))
                          && r.value.cumulativeSummary == r.value.conversationHistory
      ensures r.Some? ==> r.value.previousSummariesCount == (if summaries == [] then 0 else |summaries| - 1)
      ensures r.Some? ==> r.value.repEmotions == (if salesRepName in emotionWindow then emotionWindow[salesRepName] else [])
      ensures r.Some? ==> r.value.customerEmotions.Keys == emotionWindow.Keys - {salesRepName}
      ensures r.Some? ==> forall k :: k in r.value.customerEmotions ==> r.value.customerEmotions[k] == emotionWindow[k]
    {
      match Summarizer.TranscriptLines(transcriptWindow)
      case None => None
      case Some(lines) =>
        var history := Summarizer.CumulativeSummary(if summaries != [] then summaries[..|summaries| - 1] else []);
        var latest := if summaries != [] then Some(summaries[|summaries| - 1]) else None;
        Some(CoachingContext(
          sessionId, phase, objective, salesRepName,
          history, history, if summaries != [] then |summaries| - 1 else 0,
          Text.Join("\n", lines),
          EntriesOf(emotionWindow, salesRepName),
          map k | k in emotionWindow && k != salesRepName :: emotionWindow[k],
          WindowDurationSeconds,
          latest,
          if latest.Some? && latest.value != map[] then Get(latest.value, "coaching_ready", JBool(false)) else JBool(false)))
    }

    /** `get_recent_summaries(count)`: `summaries[-count:]`, which is every summary for `count == 0`. */
    function GetRecentSummaries(count: int): (r: seq<Record>)
      reads this
      ensures count > 0 ==> |r| == (if count < |summaries| then count else |summaries|)
      ensures count > 0 ==> r == summaries[|summaries| - |r|..]
      ensures count == 0 ==> r == summaries
    {
      if summaries != [] then Slices.LastN(summaries, count) else []
    }
  }

  /** `raw_emotions.get(name, [])`. */
  function EntriesOf(window: map<string, seq<Record>>, name: string): seq<Record> {
    if name in window then window[name] else []
  }

  /** The history handed to the coach covers the summaries before the latest one, the last five of them. */
  lemma HistoryExcludesLatest(summaries: seq<Record>, latest: Record)
    requires |summaries| >= 5
    ensures Summarizer.CumulativeSummary(Slices.AllButLast(summaries + [latest]))
         == Summarizer.CumulativeSummary(summaries[|summaries| - 5..])
  {
    assert Slices.AllButLast(summaries + [latest]) == summaries;
    assert summaries == summaries[..|summaries| - 5] + summaries[|summaries| - 5..];
    Summarizer.CumulativeUsesLastFive(summaries[..|summaries| - 5], summaries[|summaries| - 5..]);
  }

  // ---------------------------------------------------------------------------------------------
  // The registry of sessions

  class ContextRegistry {
    var contexts: map<string, SessionContext>

    constructor()
      ensures contexts == map[]
    {
      contexts := map[];
    }

    /** `get_or_create_context`: a repeat call returns the existing context and ignores its arguments. */
    method GetOrCreate(sessionId: string, salesRepName: string, objective: string, phase: string, now: real)
      returns (c: SessionContext)
      modifies this
      ensures sessionId in old(contexts) ==> c == old(contexts)[sessionId] && contexts == old(contexts)
      ensures sessionId !in old(contexts) ==> fresh(c) && contexts == old(contexts)[sessionId := c]
      ensures sessionId !in old(contexts) ==> c.Valid() && c.sessionId == sessionId && c.salesRepName == salesRepName
                                              && c.objective == objective && c.phase == phase && c.summaries == []
    {
      if sessionId !in contexts {
        var created := new SessionContext(sessionId, salesRepName, objective, phase, now);
        contexts := contexts[sessionId := created];
      }
      c := contexts[sessionId];
    }

    /** `get_context`. */
    function GetContext(sessionId: string): (r: Option<SessionContext>)
      reads this
      ensures r.Some? <==> sessionId in contexts
      ensures r.Some? ==> r.value == contexts[sessionId]
    {
      if sessionId in contexts then Some(contexts[sessionId]) else None
    }

    /** `remove_context`: only that id goes; an absent id is a no-op. */
    method Remove(sessionId: string)
      modifies this
      ensures contexts == old(contexts) - {sessionId}
      ensures sessionId !in old(contexts) ==> contexts == old(contexts)
    {
      if sessionId in contexts {
        contexts := contexts - {sessionId};
      }
    }

    /**
     * `process_context_updates`: trim every window; when 30 seconds have passed, summarize; hand
     * back the prepared coaching context only when the new summary is coaching-ready.
     */
    method ProcessContextUpdates(sessionId: string, now: real, stamp: string, fmt: real -> string,
                                 llm: string -> Summarizer.LlmReply, writeFails: bool) returns (u: Update)
      requires sessionId in contexts ==> contexts[sessionId].Valid()
      modifies if sessionId in contexts then {contexts[sessionId]} else {}
      ensures sessionId !in contexts ==> u == Idle
      ensures sessionId in contexts ==> contexts[sessionId].Valid()
      ensures sessionId in contexts ==>
                contexts[sessionId].transcriptWindow == Retained(old(contexts[sessionId].transcriptWindow), now - WindowSeconds)
      ensures sessionId in contexts ==>
                contexts[sessionId].emotionWindow == TrimmedWindows(old(contexts[sessionId].emotionWindow), now - WindowSeconds)
      ensures sessionId in contexts && !old(contexts[sessionId].ShouldSummarize(now)) ==>
                u == Idle && contexts[sessionId].summaries == old(contexts[sessionId].summaries)
      ensures sessionId in contexts ==>
                (!u.Idle? <==> |contexts[sessionId].summaries| == |old(contexts[sessionId].summaries)| + 1
                               && Truthy(Get(contexts[sessionId].summaries[|contexts[sessionId].summaries| - 1],
                                             "coaching_ready", JBool(false))))
      ensures sessionId in contexts ==>
                var c := contexts[sessionId];
                && c.sessionId == old(c.sessionId) && c.salesRepName == old(c.salesRepName)
                && c.objective == old(c.objective) && c.phase == old(c.phase) && c.speakers == old(c.speakers)
      ensures sessionId in contexts ==>
                var c := contexts[sessionId];
                if c.summaries == old(c.summaries)
                then c.lastSummaryTime == old(c.lastSummaryTime) && c.windowStartTime == old(c.windowStartTime)
                else c.lastSummaryTime == now && c.windowStartTime == now
      ensures sessionId in contexts && old(contexts[sessionId].ShouldSummarize(now)) ==>
                var c := contexts[sessionId];
                var s := WindowSummary(Retained(old(c.transcriptWindow), now - WindowSeconds),
                                       TrimmedWindows(old(c.emotionWindow), now - WindowSeconds), old(c.speakers),
                                       old(c.salesRepName), old(c.objective), old(c.phase), old(c.windowStartTime),
                                       now, stamp, fmt, llm, writeFails);
                c.summaries == old(c.summaries) + (if s.Some? then [s.value] else [])
      ensures u.Coach? ==> sessionId in contexts && contexts[sessionId].PrepareCoachingContext() == Some(u.context)
      ensures u.Raises? ==> sessionId in contexts && contexts[sessionId].PrepareCoachingContext().None?
    {
      if sessionId !in contexts {
        return Idle;
      }
      var c := contexts[sessionId];
      c.TrimAll(now);
      u := Idle;
      var summary := c.SummarizeIfDue(now, stamp, fmt, llm, writeFails);
      if summary.Some? && Truthy(Get(summary.value, "coaching_ready", JBool(false))) {
        var prepared := c.PrepareCoachingContext();
        u := if prepared.Some? then Coach(prepared.value) else Raises;
      }
    }
  }
}

# Meeting-coach core, modelled in Dafny

This project models the real-time core of a sales-meeting coaching service.

- A meeting bot streams per-participant video frames and raw PCM audio over a WebSocket. The receiver buffers these per `session_id + "_" + speaker` key, fills audio gaps with silence, and every tick detaches a five-second clip per speaker. It then decides whether the emotion change between clips warrants calling the coach (`recall/ws_receiver.py`).
- The Hume batch-job result for a clip is reduced to the top three averaged prosody and face emotions, plus the spoken transcript (`hume/hume_summarize.py`).
- Emotion trails and transcripts are kept as JSON-lines files. They are read back through the recent-line readers, compared by the emotion change detector, and labelled by the blended emotion label (`config/storage_utils.py`; `config/storage.py` is an identical copy).
- A per-session context keeps two-minute rolling windows of transcript and emotion entries. Every 30 seconds it asks a language model for a window summary. When that summary says coaching is ready, it prepares the coaching context (`affina/context_manager.py`, `affina/summarizer.py`).

Files and modules:

| file | module | what it holds |
|---|---|---|
| `wrappers.dfy` | `Wrappers` | `Option` |
| `text.dfy` | `Text` | `startswith`, `in`, `replace` (removing every occurrence), `join`, blank test |
| `slices.dfy` | `Slices` | Python's `xs[-k:]` and `xs[:-1]` |
| `json.dfy` | `JsonValue` | parsed JSON values with Python truthiness, `in`, `.get` and iteration |
| `media_buffer.dfy` | `MediaBuffer` | `participant_data` as the class `ParticipantStore`, gap fill, tick, cleanup, `clean_speaker` |
| `coach_trigger.dfy` | `CoachTrigger` | the coach gate of `process_affina_feedback`, as written and as intended |
| `storage.dfy` | `Storage` | `has_emotion_changed`, `get_blended_emotion_label`, the recent-line readers |
| `hume_summary.dfy` | `HumeSummary` | `summarize`: stable top-three ranking of averaged scores, the exception paths |
| `summarizer.dfy` | `Summarizer` | `summarize_window`'s prompt, its defaults and fallbacks, `create_cumulative_summary` |
| `session_context.dfy` | `SessionContexts` | `SessionContext` and the registry of contexts as classes |

Some things are parameters or oracles:

- Clock reads are `now` parameters.
- The time-stamp text of a summary is the parameter `stamp`.
- `:.2f` formatting is the parameter `fmt`.
- base64 decoding is the parameter `decode`.
- JSON parsing of a file line is the parameter `parse`.
- The chat-completion call, with its markdown clean-up and `json.loads`, is the oracle `llm`. It maps the prompt to a reply: parsed JSON, a parse error, or another exception.
- The file write of a summary is the flag `writeFails`.
- Python floats are `real`s.

Behaviour of the code that a reader may not expect:

- `clean_speaker` removes every occurrence of the session prefix, not only the leading one (`MediaBuffer.CleanSpeaker`).
- `get_recent_*` with `limit=0` returns every line, because `lines[-0:]` is the whole list (`Slices.LastN`).
- `create_summary` runs whenever the transcript window or the emotion window is non-empty, however few entries they hold.
- Gap filling measures the gap against the arriving chunk's own length. Over exact reals the three-chunk scenario (0.0, 1.0 and 2.3 s; 16000, 16000 and 20800 bytes) therefore ends at 89600 bytes (`MediaBuffer.ThreeChunkScenario`); with Python's doubles the last gap truncates to one sample less and the buffer ends at 89598 bytes.

## Model

| member | source | states |
|---|---|---|
| MediaBuffer.SpeakerOf | recall/ws_receiver.py:507 | the speaker is never empty: a non-empty name is used as it is, otherwise an `ID-` label built from the participant id |
| MediaBuffer.KeyRoundTrip | recall/ws_receiver.py:221-228 | every key built as `session_id + "_" + speaker` passes the session's prefix test, and cutting the prefix off gives the speaker back; conversely every key that passes the test is rebuilt from its cut-off speaker |
| MediaBuffer.EqualLengthSessionsIsolated | recall/ws_receiver.py:566-570 | for session ids of equal length, a key of one session never passes the other session's prefix test, so tick and cleanup never touch another session's buffers |
| MediaBuffer.PrefixCollision | recall/ws_receiver.py:566-570 | for ids of different lengths the prefix test is not isolation: session "a" with speaker "b_c" and session "a_b" with speaker "c" share one key, and that key passes session "a"'s test |
| MediaBuffer.AudioChunkAppends | recall/ws_receiver.py:516-532 | an accepted chunk keeps the old audio as a prefix, then appends exactly `2 * max(0, trunc((rel - last) * 16000) - len(pcm) // 2)` zero bytes (none for a first chunk), then the chunk; `last_audio_ts` becomes the chunk's time and nothing else changes |
| MediaBuffer.AudioKeepsPace | recall/ws_receiver.py:523-532 | for a chunk of whole samples, the samples added are at least the elapsed relative time times 16000 |
| MediaBuffer.ThreeChunkScenario | recall/ws_receiver.py:523-532 | over exact reals, chunks of 16000, 16000 and 20800 bytes at 0.0, 1.0 and 2.3 s leave 89600 bytes in the buffer |
| MediaBuffer.InWindowMembers | recall/ws_receiver.py:242-245 | the frame window keeps exactly the frames whose time lies in `[start, end]` |
| MediaBuffer.InWindowAppend | recall/ws_receiver.py:242-245 | the frame window keeps arrival order: it distributes over concatenation |
| MediaBuffer.InWindowNested | recall/ws_receiver.py:134-135 | filtering by the receiver's window and then by the encoder's window is filtering by their intersection |
| MediaBuffer.TickEntry | recall/ws_receiver.py:230-261 | a tick keeps the invariant that `start_time` and `last_clip_time` are set together |
| MediaBuffer.FirstTickStartsClock | recall/ws_receiver.py:230-234 | the first tick of an entry sets both clocks to `now`, keeps all buffered media and queues nothing |
| MediaBuffer.EarlyTickIsNoop | recall/ws_receiver.py:236-238 | a tick less than 5 s after the last flush changes nothing and queues nothing |
| MediaBuffer.DueTickFlushes | recall/ws_receiver.py:236-261 | a due tick always clears frames and audio, sets `last_clip_time` to `now` and forgets `last_audio_ts`; it queues a clip exactly when a frame lies in `[last_clip_time, now]` or audio is buffered, and the clip holds exactly those frames in order and the whole audio buffer |
| MediaBuffer.CleanSpeaker | recall/ws_receiver.py:61-66 | cleaning never lengthens a name, and a name without the session prefix is kept as it is |
| MediaBuffer.CleanSpeakerStrips | recall/ws_receiver.py:61-66 | a name that starts with the session prefix (and does not repeat it) loses that prefix; any other name is kept |
| MediaBuffer.PlanClip | recall/ws_receiver.py:59-135 | one speaker's encoding job: the cleaned speaker name, the clip's audio unchanged, and exactly the clip's frames whose time lies in `[start, end]` |
| MediaBuffer.EncodedFramesInLastFiveSeconds | recall/ws_receiver.py:266-278 | the encoder receives the window `[now - 5, now]`, so of a flushed clip it keeps exactly the frames at or after `now - 5` |
| MediaBuffer.ParticipantStore.constructor | recall/ws_receiver.py:31-39 | the store starts empty and consistent |
| MediaBuffer.ParticipantStore.OnVideoFrame | recall/ws_receiver.py:505-514 | a non-empty frame is appended, with its arrival time, to the speaker's entry (created blank if missing); an empty buffer changes nothing |
| MediaBuffer.ParticipantStore.OnAudioChunk | recall/ws_receiver.py:516-532 | with a non-empty buffer and a relative timestamp the speaker's entry becomes the gap-filled entry of `AudioChunkAppends`; otherwise nothing changes |
| MediaBuffer.ParticipantStore.Tick | recall/ws_receiver.py:213-278 | the session's entries are ticked and others untouched, with no key added or removed; the batch holds, for exactly the speakers whose tick queued a clip, that clip, with the window `[now - 5, now]`; no batch means no speaker queued one |
| MediaBuffer.ParticipantStore.Disconnect | recall/ws_receiver.py:566-570 | exactly the keys passing the session's prefix test are deleted; the other entries are unchanged |
| CoachTrigger.DecideAsWritten | recall/ws_receiver.py:320-329 | with the trail saved before the last state is read, the coach is never triggered, whatever the batch and the stored trails |
| CoachTrigger.Decide | recall/ws_receiver.py:317-379 | the corrected gate triggers exactly when some speaker's window differs from that speaker's previous stored state; every speaker's trail ends with its new entry; other trails are unchanged |
| CoachTrigger.FirstDetectionCallsCoach | recall/ws_receiver.py:322-329 | under the corrected gate, a speaker with no trail yet always triggers the coach |
| Storage.HasEmotionChanged | config/storage_utils.py:103-150 | no previous state is always a change; with a previous state, a change is reported exactly when, in a modality where both lists are non-empty, the top emotion's name differs or its score (0 when missing) moved by more than the threshold; when neither modality has both lists non-empty, there is never a change |
| Storage.UnchangedIsStable | config/storage_utils.py:103-150 | comparing a state with itself is never a change, for any non-negative threshold |
| Storage.ChangeIsSymmetric | config/storage_utils.py:122-148 | swapping the old and new states does not change the answer |
| Storage.ChangeMonotoneInThreshold | config/storage_utils.py:131-148 | a change at some threshold is a change at every lower threshold |
| Storage.ScoreDriftScenario | config/storage_utils.py:131-135 | with the same top emotion, a drift of 0.03 is not a change at 0.1 but a drift of 0.15 is |
| Storage.Names | config/storage_utils.py:171 | when every entry has a name, the list of names has one name per entry |
| Storage.CloseToMembers | config/storage_utils.py:161 | for complete entries, the close set exists, is complete, and holds exactly the entries within the threshold of the top score |
| Storage.CloseToAppend | config/storage_utils.py:161 | the close set keeps list order and multiplicity: filtering a concatenation is concatenating the filtered parts, and it raises exactly when one part does |
| Storage.CloseToSingle | config/storage_utils.py:161 | a single scored entry is kept exactly when the top score exceeds its score by at most the threshold |
| Storage.NamesOfComplete | config/storage_utils.py:171 | complete entries yield their names position by position |
| Storage.BlendedLabel | config/storage_utils.py:152-172 | an empty list is "Neutral"; a top entry without a score raises; a label is produced only when the close set is non-empty (an empty one raises on `names[0]`) |
| Storage.BlendedLabelJoinsCloseNames | config/storage_utils.py:152-172 | an empty list is "Neutral"; otherwise the close set starts with the top entry and the label is the names of its first min(3, n) entries joined by " + " |
| Storage.ParsedProperties | config/storage_utils.py:64-71 | skipping bad lines never adds entries and keeps the parsed ones in file order |
| Storage.ParsedMembers | config/storage_utils.py:64-71 | an entry is returned exactly when some line parses to it |
| Storage.ReadRecent | config/storage_utils.py:57-71 | a missing file gives no entries; otherwise the result is the parsed entries of `lines[-limit:]`, in order |
| Storage.RecentAtMostLimit | config/storage_utils.py:63-71 | for a positive limit, at most `limit` entries are returned, exactly those parsed from the last `limit` lines |
| Storage.RecentEmotionTrail | config/storage_utils.py:50-71 | a speaker without a trail file gets no entries; otherwise the parsed entries of the trail's last `limit` lines |
| Storage.RecentTranscript | config/storage_utils.py:73-94 | no transcript file gives no entries; otherwise the parsed entries of the last `limit` lines, at most `limit` of them for a positive limit |
| Storage.LastEmotionState | config/storage_utils.py:96-101 | the last state is the parsed last line of the speaker's trail; it is absent (the empty dict) when there is no trail, the trail is empty, or its last line does not parse |
| Slices.LastN | config/storage_utils.py:65 | `xs[-k:]` is the last `min(k, len(xs))` elements for positive `k` and the whole list for `k == 0` |
| Slices.AllButLast | affina/context_manager.py:156 | `xs[:-1]` followed by the last element is `xs`; it is empty for an empty list |
| Text.RemoveAll | recall/ws_receiver.py:63 | removing every occurrence of a non-empty pattern never lengthens the text |
| Text.RemoveAllAbsent | recall/ws_receiver.py:63 | a text that does not contain the pattern is unchanged |
| HumeSummary.TopThree | hume/hume_summarize.py:59-62 | at most three pairs, taken from the averages, in non-increasing score order; every pair left out scores no higher than any reported one; with fewer than three averages, all are reported |
| HumeSummary.TiesKeepInputOrder | hume/hume_summarize.py:60-62 | the sort is stable: when the later of two equally scored names is reported, the earlier is reported too, ahead of it |
| HumeSummary.TopThreeDistinct | hume/hume_summarize.py:54-62 | reported names are distinct |
| HumeSummary.AddAllAppend | hume/hume_summarize.py:76-80 | collecting two observation streams one after the other is collecting their concatenation |
| HumeSummary.GroupCollects | hume/hume_summarize.py:38-51 | the tally's keys are exactly the observed names, and each holds every score observed under that name, in order |
| HumeSummary.Means | hume/hume_summarize.py:54-57 | one average per name, in key order, each the mean of that name's scores |
| HumeSummary.RankingReportsMeans | hume/hume_summarize.py:54-62 | each reported score is the mean of every score observed under its name, and the names are distinct |
| HumeSummary.EmotionsObsPrefixFails | hume/hume_summarize.py:49-51 | once an emotion lacks a string name or a summable score, the whole loop fails |
| HumeSummary.AllObsPrefixFails | hume/hume_summarize.py:41-51 | once a prediction or group fails, the whole loop fails |
| HumeSummary.CollectedTextsAreTruthy | hume/hume_summarize.py:44-46 | every collected text is truthy |
| HumeSummary.PredTextsAreTruthy | hume/hume_summarize.py:44-46 | every text collected from one group's predictions is truthy |
| HumeSummary.CollectEmotions | hume/hume_summarize.py:49-51 | the loop succeeds exactly when every emotion yields a name and a score, and then the tally has them appended in order |
| HumeSummary.CollectPredictions | hume/hume_summarize.py:42-51 | the loop succeeds exactly when every prediction does; the tally gains their scores and the transcript list their truthy texts, in order |
| HumeSummary.CollectPrediction | hume/hume_summarize.py:42-51 | one prediction succeeds exactly when its emotions yield names and scores; its scores are added to the tally and its text, when truthy, to the transcript list |
| HumeSummary.CollectGroups | hume/hume_summarize.py:38-51 | the loop over grouped predictions succeeds exactly when every group does, and then yields the grouped scores and the truthy texts |
| HumeSummary.AudioBranch | hume/hume_summarize.py:32-66 | the audio branch built step by step equals the reference audio result of the grouped predictions, including its failure flag |
| HumeSummary.VideoBranch | hume/hume_summarize.py:68-91 | the video branch built step by step equals the reference video result of the grouped predictions |
| HumeSummary.SummarizeModels | hume/hume_summarize.py:30-91 | the summary of the first prediction's models equals the reference summary of those models |
| HumeSummary.Summarize | hume/hume_summarize.py:3-96 | the summary built step by step equals the reference `SummaryOf` of the input |
| HumeSummary.UnexpectedShapeFails | hume/hume_summarize.py:12-17 | input that is neither a dict nor a non-empty list gives empty modalities and an error |
| HumeSummary.ListUsesFirstElement | hume/hume_summarize.py:12-13 | a list is summarised by its first element alone |
| HumeSummary.NoPredictionsIsEmpty | hume/hume_summarize.py:19-28 | a dict without `results` and `predictions` gives empty modalities and no error |
| HumeSummary.EmptyNestedPredictionsIsEmpty | hume/hume_summarize.py:19-28 | falsy or missing predictions under `results` give empty modalities and no error |
| HumeSummary.OnlyFirstPredictionRead | hume/hume_summarize.py:30 | only the first prediction's models are read |
| HumeSummary.AbsentModelIsEmpty | hume/hume_summarize.py:30-91 | a missing `prosody` model leaves the audio part empty; a missing `face` model leaves the video part empty |
| HumeSummary.AudioBranchReports | hume/hume_summarize.py:32-66 | a completed audio branch reports the top three means; the transcript is present exactly when some prediction had a truthy text, and is then those texts joined by single spaces |
| Summarizer.TranscriptLines | affina/summarizer.py:108-111 | when no entry lacks a key, there is one line per entry |
| Summarizer.TranscriptLinesAt | affina/summarizer.py:108-111 | line `i` is entry `i` rendered as `[timestamp] speaker: text` |
| Summarizer.TranscriptPlaceholderOnlyWhenEmpty | affina/summarizer.py:107-114 | the placeholder appears for an empty window; otherwise the lines are joined by newlines in window order |
| Summarizer.EmotionTexts | affina/summarizer.py:128 | when formatting succeeds, there is one text per emotion |
| Summarizer.FirstThree | affina/summarizer.py:125-131 | at most three emotions are formatted |
| Summarizer.FormatEmotions | affina/summarizer.py:117-138 | the accumulating loop builds the emotion text of the reference definition |
| Summarizer.EmotionPlaceholderIffNoEntries | affina/summarizer.py:117-141 | the emotion placeholder is used exactly when no speaker in the window has an entry |
| Summarizer.PlaceholderHasNoColon | affina/summarizer.py:141 | the placeholder contains no colon |
| Summarizer.EmotionsTextHasColon | affina/summarizer.py:118-124 | a speaker with entries puts a colon into the emotion text |
| Summarizer.EmotionsTextOfEmpty | affina/summarizer.py:118-119 | speakers without entries add nothing |
| Summarizer.EmotionsTextPrefix | affina/summarizer.py:117-138 | the text only grows: the text after `j` speakers is a prefix of the final text |
| Summarizer.UserPrompt | affina/summarizer.py:143-157 | the prompt starts with the meeting context naming the sales rep, and contains the transcript text and the emotions text |
| Summarizer.CompletedFillsMissing | affina/summarizer.py:182-188 | a dict gains exactly the missing required fields, each with its default (False for `coaching_ready`, "Processing" otherwise), and keeps every field it had; other values come back unchanged or raise |
| Summarizer.ApplyDefaults | affina/summarizer.py:182-188 | the field loop computes the completed value of the reference definition |
| Summarizer.AnswerFields | affina/summarizer.py:182-213 | every dict answer carries all required fields; both fallbacks are not coaching-ready and carry the current stage; a parsed dict keeps every field it had |
| Summarizer.SummarizeWindow | affina/summarizer.py:86-213 | the result is the reference window result: prompt built from the window, the oracle's reply, then defaults or a fallback |
| Summarizer.Respond | affina/summarizer.py:159-213 | a parsed reply is completed with defaults; a parse error gives the parse fallback; any other error gives the error fallback |
| Summarizer.Parts | affina/summarizer.py:230-235 | one `[stage] text` part per summary, in order |
| Summarizer.CumulativeSummary | affina/summarizer.py:216-237 | no summaries gives "[Meeting just started]"; a single summary gives its part alone |
| Summarizer.CumulativeUsesLastFive | affina/summarizer.py:232 | only the last five summaries matter: anything before them is ignored |
| Summarizer.CumulativeGrows | affina/summarizer.py:230-237 | with fewer than five summaries, one more appends " → " and its part |
| Summarizer.CumulativeStartsWithOldestStage | affina/summarizer.py:230-237 | the text starts with the part of the oldest of the last five summaries |
| SessionContexts.Stamped | affina/context_manager.py:65 | a stamped entry carries `_added_at == now` |
| SessionContexts.Retained | affina/context_manager.py:81-84 | trimming never adds entries |
| SessionContexts.RetainedMembers | affina/context_manager.py:81-84 | an entry is kept exactly when it is stamped strictly after the cutoff |
| SessionContexts.RetainedAppend | affina/context_manager.py:81-84 | trimming keeps order: it distributes over concatenation |
| SessionContexts.RetainedTwice | affina/context_manager.py:78-92 | trimming again at a later cutoff is the same as trimming once at that cutoff |
| SessionContexts.NewEntrySurvives | affina/context_manager.py:62-76 | an entry stamped `now` survives the trim at `now - 120` as the last entry |
| SessionContexts.UnstampedCountsAsZero | affina/context_manager.py:83 | an entry without a stamp is kept only for a negative cutoff |
| SessionContexts.TrimmedWindows | affina/context_manager.py:247-248 | trimming every speaker keeps every speaker key |
| SessionContexts.ItemsOf | affina/context_manager.py:115-116 | the emotion window's items pair each speaker, in key order, with its entries |
| SessionContexts.RecordSummary | affina/context_manager.py:110-129 | the recorded summary is the window result with the timestamp, window start and window end keys set; it is absent when the result is not a dict or the write fails |
| SessionContexts.NewSummaryFields | affina/context_manager.py:110-129 | a recorded summary carries every required analysis field and the window it covers |
| SessionContexts.SessionContext.constructor | affina/context_manager.py:32-53 | a new context has the given metadata, empty windows and history, and both clocks at `now` |
| SessionContexts.SessionContext.UpdateMetadata | affina/context_manager.py:55-60 | an absent or empty phase or objective leaves that field as it is; nothing else changes |
| SessionContexts.SessionContext.TrimTranscriptWindow | affina/context_manager.py:78-84 | the transcript window keeps the entries stamped after `now - 120`; nothing else changes |
| SessionContexts.SessionContext.TrimEmotionWindow | affina/context_manager.py:86-92 | only that speaker's list is trimmed at `now - 120` |
| SessionContexts.SessionContext.AddTranscriptEntry | affina/context_manager.py:62-67 | the window becomes the trimmed old window followed by the stamped entry |
| SessionContexts.SessionContext.AddEmotionEntry | affina/context_manager.py:69-76 | an unseen speaker is added at the end of the key order; that speaker's list becomes its trimmed old list followed by the stamped entry; other speakers are untouched |
| SessionContexts.SessionContext.TrimAll | affina/context_manager.py:245-248 | the transcript window and every speaker's list are trimmed at `now - 120`; the speaker keys stay |
| SessionContexts.SessionContext.ShouldSummarize | affina/context_manager.py:94-97 | a summary is due when 30 seconds have passed since the last one, so it is never due at or before the moment of the last one |
| SessionContexts.SessionContext.DueStaysDue | affina/context_manager.py:94-97 | once a summary is due it stays due at every later time until one is taken |
| SessionContexts.SessionContext.CreateSummary | affina/context_manager.py:99-147 | the result is the window's summary (`WindowSummary`): nothing for empty windows, otherwise the recorded summary of the window; a recorded summary is appended to the history and both clocks move to `now`, and a failure changes no state |
| SessionContexts.SessionContext.AppendSummary | affina/context_manager.py:131-136 | the summary is appended and both clocks move to `now` |
| SessionContexts.SessionContext.PrepareCoachingContext | affina/context_manager.py:149-201 | fails exactly when a transcript entry lacks a key; otherwise the history is the cumulative summary of all but the latest summary, the count excludes the latest, the rep's emotions are the rep's list (or none), the customers are every other speaker, and `coaching_ready` is the latest summary's flag (False by default) |
| SessionContexts.SessionContext.GetRecentSummaries | affina/context_manager.py:203-205 | the last `min(count, n)` summaries for a positive count; every summary for `count == 0` |
| SessionContexts.HistoryExcludesLatest | affina/context_manager.py:156 | with at least five earlier summaries, the coach's history is the cumulative summary of the five before the latest |
| SessionContexts.ContextRegistry.constructor | affina/context_manager.py:210-234 | the registry starts empty |
| SessionContexts.ContextRegistry.GetOrCreate | affina/context_manager.py:210-221 | an existing context is returned and its arguments are ignored; otherwise a fresh valid context with the given metadata is registered |
| SessionContexts.ContextRegistry.GetContext | affina/context_manager.py:224-226 | a context is returned exactly when the id is registered |
| SessionContexts.ContextRegistry.Remove | affina/context_manager.py:229-233 | only that id is removed; an absent id is a no-op |
| SessionContexts.SessionContext.SummarizeIfDue | affina/context_manager.py:251-252 | before 30 s nothing is summarized; once due, the result is the window's recorded summary; the history gains exactly that summary, if any, with both clocks moved to `now`, and otherwise the history and clocks stay; the windows and metadata do not change |
| SessionContexts.ContextRegistry.ProcessContextUpdates | affina/context_manager.py:236-258 | an unknown id does nothing; otherwise both windows are trimmed, nothing is summarized before 30 s, a due summary appends the recorded summary of the trimmed window (if any), both clocks move to `now` exactly when the history grew, the metadata and speakers stay, and a coaching context comes back exactly when a new summary was appended and is coaching-ready; that context is the prepared one, or preparing it raises |

## Left out

- File and network I/O: the WebSocket loop, event emission, logs, ffmpeg encoding and the Hume API calls are not modelled. Files are modelled as sequences of lines. `save_transcript_line` and `ensure_session_dir` are pure writes and are not modelled. The summary file write of `create_summary` is the `writeFails` flag.
- `create_clips_for_all_sync` is modelled only for its choices: the speaker name cleaning and the frame window (`MediaBuffer.PlanClip`). The WAV/PNG/MP4 files, the batch summariser it calls, and the `safe_summary` serialisation are not part of this model.
- MediaBuffer.PadSamples: `int((rel - last) * 16000)` is computed over exact reals. Python truncates a double product, which can lose one sample (in the three-chunk scenario, `(2.3 - 1.0) * 16000` is 20799.999999999996 as a double, so the gap is 20799 samples rather than 20800).
- MediaBuffer.ThreeChunkScenario: the 89600-byte result holds over exact reals only; with Python doubles the buffer ends at 89598 bytes.
- Concurrency: the executor, the asyncio tasks and the clip timer loop are not modelled. Each operation is one atomic step.
- `process_affina_feedback` is modelled only for its coach gate (`CoachTrigger`). The rep/customer split, the emotion events with the blended label, the transcript text, and the coach call are left out, because they only format data for emitters and the external coach.
- `load_recent_data_into_context` is not modelled: it only replays files into the context through `add_transcript_entry` and `add_emotion_entry`, which are modelled.
- The clock: several `time.time()` reads inside one Python call are merged into one `now` parameter.
- The markdown fence removal and `json.loads` of the chat reply are inside the oracle `llm`. The system prompt text is not modelled.
- The text of Python exception messages: the model uses the fixed text `<error>` where `str(e)` would appear (`Summarizer.ErrorFallback`).
- JsonValue.Str: numbers, lists and dicts are rendered as the fixed text `<value>` rather than Python's `repr`; strings, booleans and `None` are exact.
- `:.2f` formatting is the parameter `fmt`. Its output is not specified.
- HumeSummary.EmotionObs: an emotion name that is not a JSON string is treated as an error. Python would accept any hashable name; non-string names do not occur in Hume results.
- HumeSummary.Summary: the `"error"` text is recorded only as the flag `failed`.
- Text.IsBlank: `str.strip` is modelled for ASCII whitespace only.
- base64 decoding is the parameter `decode`. Its errors, which Python raises out of the event handler, are not modelled.
- Storage.Score: top-emotion entries are modelled as name/score records read with `.get`, as `has_emotion_changed` and `get_blended_emotion_label` read them. The shape other producers write into the trail is not modelled.
- SessionContexts.SessionContext.AddTranscriptEntry: the caller's entry dict gains `_added_at` in place (aliasing). The model stores a stamped copy.
- SessionContexts.SessionContext.AddEmotionEntry: the model computes the speaker's new list as a value, rather than first inserting an empty list. The resulting state is the same.
- Emotion keys persist after trimming: a speaker whose entries all expire keeps an empty list. The model keeps this behaviour.
- SessionContexts.SessionContext.PrepareCoachingContext: the `KeyError` of a transcript entry lacking a key is modelled as `None`. In `process_context_updates` it becomes `Update.Raises`.
- The content of `summaries.jsonl` is not modelled. Only whether the write succeeds is modelled.

## Findings

| source | as written | input that shows it | evidently intended | confidence | as-written member | corrected member |
|---|---|---|---|---|---|---|
| recall/ws_receiver.py:322-329 | Each speaker's emotion trail is saved before `get_last_emotion_state` is read, so the "last state" is the entry just written, and `has_emotion_changed` compares the window with itself. | Any batch, for example one speaker seen for the first time: the freshly written entry is read back as the previous state, so no change is reported. | Read the previous state first and compare, then save. The coach is called exactly when some speaker's emotions changed, including the first detection. | high (not executed) | CoachTrigger.DecideAsWritten | CoachTrigger.Decide |

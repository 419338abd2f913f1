/**
 * Per-participant media buffering of the meeting-bot WebSocket receiver (recall/ws_receiver.py):
 * frames and gap-compensated PCM audio accumulate per `session_id + "_" + speaker` key, a
 * per-session tick detaches a 5-second window of media and resets the buffers, and disconnecting
 * removes every key of the session. Wall-clock reads are the `now` parameters.
 */
module MediaBuffer {
  import opened Wrappers
  import opened Text

  /** PCM sample rate, bytes per sample and window length used by the receiver. */
  const AudioRate: int := 16000
  const SampleWidth: int := 2
  const ClipLen: real := 5.0

  newtype Byte = b: int | 0 <= b < 256

  /** A video frame: its base64 PNG text and the wall-clock time it arrived. */
  datatype Frame = Frame(data: string, time: real)

  /** One entry of `participant_data`. */
  datatype Participant = Participant(
    frames: seq<Frame>,
    audio: seq<Byte>,
    lastAudioTs: Option<real>,
    lastClipTime: Option<real>,
    startTime: Option<real>)

  /** What the `defaultdict` creates for an unseen key. */
  const Blank := Participant([], [], None, None, None)

  /** The first tick sets `start_time` and `last_clip_time` together; no path unsets them. */
  predicate Consistent(p: Participant) {
    p.startTime.Some? <==> p.lastClipTime.Some?
  }

  /** The media of one speaker detached by a tick. */
  datatype Clip = Clip(frames: seq<Frame>, audio: seq<Byte>)

  /** What a tick hands to the encoding worker: the speakers' clips and the window `[start, end]`. */
  datatype ClipBatch = ClipBatch(clips: map<string, Clip>, start: real, end: real)

  // ---------------------------------------------------------------- keys

  /** `participant.get("name") or f"ID-{participant.get('id')}"`; `id` is the rendered id, `None` if absent. */
  function SpeakerOf(name: Option<string>, id: Option<string>): (speaker: string)
    ensures speaker != ""
    ensures name.Some? && name.value != "" ==> speaker == name.value
    ensures name.None? || name.value == "" ==> StartsWith(speaker, "ID-")
  {
    if name.Some? && name.value != "" then name.value else "ID-" + id.GetOr("None")
  }

  function Prefix(sessionId: string): string {
    sessionId + "_"
  }

  /** `f"{session_id}_{speaker}"` */
  function KeyOf(sessionId: string, speaker: string): string {
    Prefix(sessionId) + speaker
  }

  /** `key[len(session_prefix):]` */
  function SpeakerOfKey(sessionId: string, key: string): string
    requires StartsWith(key, Prefix(sessionId))
  {
    key[|Prefix(sessionId)|..]
  }

  /** A key belongs to the session, and splitting it gives the speaker back; keys of one session are injective. */
  lemma KeyRoundTrip(sessionId: string, speaker: string, key: string)
    ensures StartsWith(KeyOf(sessionId, speaker), Prefix(sessionId))
    ensures SpeakerOfKey(sessionId, KeyOf(sessionId, speaker)) == speaker
    ensures StartsWith(key, Prefix(sessionId)) ==> KeyOf(sessionId, SpeakerOfKey(sessionId, key)) == key
  {
    assert KeyOf(sessionId, speaker)[..|Prefix(sessionId)|] == Prefix(sessionId);
    if StartsWith(key, Prefix(sessionId)) {
      assert key == key[..|Prefix(sessionId)|] + key[|Prefix(sessionId)|..];
    }
  }

  /** Session ids of equal length (such as UUIDs) never see each other's keys. */
  lemma EqualLengthSessionsIsolated(sessionId: string, other: string, speaker: string)
    requires |sessionId| == |other| && sessionId != other
    ensures !StartsWith(KeyOf(other, speaker), Prefix(sessionId))
  {
    var k := KeyOf(other, speaker);
    assert k[..|sessionId|] == other;
    assert Prefix(sessionId)[..|sessionId|] == sessionId;
    assert |k| > |sessionId| ==> k[..|sessionId| + 1][..|sessionId|] == k[..|sessionId|];
  }

  /** With ids of different lengths the prefix test is not isolation: one key is shared by two sessions. */
  lemma PrefixCollision()
    ensures KeyOf("a", "b_c") == KeyOf("a_b", "c")
    ensures StartsWith(KeyOf("a_b", "c"), Prefix("a"))
  {
  }

  // ---------------------------------------------------------------- audio gap fill

  /** Python's `int(x)` on a float: truncation toward zero. */
  function Trunc(r: real): int {
    if r >= 0.0 then r.Floor else -((-r).Floor)
  }

  /** Silence samples inserted before a chunk of `pcmLen` bytes arriving at relative time `rel`. */
  function PadSamples(last: Option<real>, rel: real, pcmLen: nat): nat {
    if last.None? then 0
    else
      var gap := Trunc((rel - last.value) * AudioRate as real) - pcmLen / SampleWidth;
      if gap > 0 then gap else 0
  }

  function Zeros(n: nat): (z: seq<Byte>)
    ensures |z| == n && forall i :: 0 <= i < n ==> z[i] == 0
  {
    seq(n, _ => 0)
  }

  /** An accepted audio chunk: silence for the gap, then the chunk; the chunk's time becomes the last seen. */
  function WithAudio(p: Participant, pcm: seq<Byte>, rel: real): Participant {
    p.(audio := p.audio + Zeros(SampleWidth * PadSamples(p.lastAudioTs, rel, |pcm|)) + pcm,
       lastAudioTs := Some(rel))
  }

  /**
   * The buffer only grows: the old audio stays as a prefix, then exactly
   * `2 * max(0, trunc((rel - last) * 16000) - len(pcm) // 2)` zero bytes (none for a first chunk),
   * then the chunk; nothing but the audio and `last_audio_ts` changes.
   */
  lemma AudioChunkAppends(p: Participant, pcm: seq<Byte>, rel: real)
    ensures var q := WithAudio(p, pcm, rel);
      var pad := |q.audio| - |p.audio| - |pcm|;
      && pad >= 0
      && q.audio[..|p.audio|] == p.audio
      && q.audio[|q.audio| - |pcm|..] == pcm
      && (forall i :: |p.audio| <= i < |p.audio| + pad ==> q.audio[i] == 0)
      && (p.lastAudioTs.None? ==> pad == 0)
      && (p.lastAudioTs.Some? ==>
            pad == 2 * (var gap := Trunc((rel - p.lastAudioTs.value) * 16000.0) - |pcm| / 2;
                        if gap > 0 then gap else 0))
      && q.lastAudioTs == Some(rel)
      && q.frames == p.frames && q.lastClipTime == p.lastClipTime && q.startTime == p.startTime
  {
    var z := Zeros(SampleWidth * PadSamples(p.lastAudioTs, rel, |pcm|));
    var q := WithAudio(p, pcm, rel);
    assert q.audio == p.audio + z + pcm;
    assert q.audio[..|p.audio|] == p.audio;
    assert q.audio[|q.audio| - |pcm|..] == pcm;
    forall i | |p.audio| <= i < |p.audio| + |z|
      ensures q.audio[i] == 0
    {
      assert q.audio[i] == z[i - |p.audio|];
    }
  }

  /** Gap compensation keeps pace: a chunk of whole samples adds at least the elapsed relative time in samples. */
  lemma AudioKeepsPace(p: Participant, pcm: seq<Byte>, rel: real)
    requires p.lastAudioTs.Some? && |pcm| % 2 == 0
    ensures (|WithAudio(p, pcm, rel).audio| - |p.audio|) / 2
            >= Trunc((rel - p.lastAudioTs.value) * 16000.0)
  {
  }

  /**
   * Three chunks at relative times 0.0, 1.0 and 2.3 s of 16000, 16000 and 20800 bytes, over exact
   * reals: the second is preceded by 16000 and the third by 20800 bytes of silence, because the gap
   * is measured against the arriving chunk's own length, giving 89600 bytes. In IEEE doubles
   * `(2.3 - 1.0) * 16000` is 20799.999999999996, which `int()` truncates to 20799, so with Python
   * floats the third gap is one sample shorter and the buffer ends at 89598 bytes.
   */
  lemma ThreeChunkScenario(a: seq<Byte>, b: seq<Byte>, c: seq<Byte>)
    requires |a| == 16000 && |b| == 16000 && |c| == 20800
    ensures |WithAudio(WithAudio(WithAudio(Blank, a, 0.0), b, 1.0), c, 2.3).audio| == 89600
  {
    assert (1.0 - 0.0) * 16000.0 == 16000.0;
    assert (2.3 - 1.0) * 16000.0 == 20800.0;
    assert Trunc(16000.0) == 16000;
    assert Trunc(20800.0) == 20800;
  }

  // ---------------------------------------------------------------- window flush

  /** One frame, kept or not by the window filter. */
  function Keep(f: Frame, start: real, end: real): seq<Frame> {
    if start <= f.time <= end then [f] else []
  }

  /** `[(f, t) for f, t in frames if start <= t <= end]` */
  function InWindow(frames: seq<Frame>, start: real, end: real): seq<Frame> {
    if frames == [] then [] else Keep(frames[0], start, end) + InWindow(frames[1..], start, end)
  }

  /** The window keeps exactly the frames whose time lies in `[start, end]`... */
  lemma {:induction false} InWindowMembers(frames: seq<Frame>, start: real, end: real)
    ensures forall f :: f in InWindow(frames, start, end) <==> f in frames && start <= f.time <= end
  {
    if frames != [] {
      InWindowMembers(frames[1..], start, end);
      assert frames == [frames[0]] + frames[1..];
    }
  }

  /** ...in their arrival order: filtering distributes over concatenation. */
  lemma {:induction false} InWindowAppend(a: seq<Frame>, b: seq<Frame>, start: real, end: real)
    ensures InWindow(a + b, start, end) == InWindow(a, start, end) + InWindow(b, start, end)
  {
    if a == [] {
      assert a + b == b;
    } else {
      assert (a + b)[0] == a[0];
      assert (a + b)[1..] == a[1..] + b;
      InWindowAppend(a[1..], b, start, end);
      assert InWindow(a + b, start, end)
          == Keep(a[0], start, end) + (InWindow(a[1..], start, end) + InWindow(b, start, end));
    }
  }

  /** Filtering a window by a second window is filtering by their intersection. */
  lemma {:induction false} InWindowNested(frames: seq<Frame>, s1: real, e1: real, s2: real, e2: real)
    ensures InWindow(InWindow(frames, s1, e1), s2, e2)
         == InWindow(frames, if s1 < s2 then s2 else s1, if e1 < e2 then e1 else e2)
  {
    if frames != [] {
      var head := Keep(frames[0], s1, e1);
      InWindowAppend(head, InWindow(frames[1..], s1, e1), s2, e2);
      InWindowNested(frames[1..], s1, e1, s2, e2);
      if head != [] {
        assert head[1..] == [];
      }
    }
  }

  /** One participant's part of `check_and_create_clips`: the new entry and the clip queued, if any. */
  function TickEntry(p: Participant, now: real): (r: (Participant, Option<Clip>))
    requires Consistent(p)
    ensures Consistent(r.0)
  {
    if p.startTime.None? then
      (p.(startTime := Some(now), lastClipTime := Some(now)), None)
    else if now - p.lastClipTime.value >= ClipLen then
      var relevant := InWindow(p.frames, p.lastClipTime.value, now);
      var clip := if relevant != [] || p.audio != [] then Some(Clip(relevant, p.audio)) else None;
      (p.(frames := [], audio := [], lastClipTime := Some(now), lastAudioTs := None), clip)
    else
      (p, None)
  }

  /** The first tick of a new entry starts its clock, keeps whatever was buffered and queues nothing. */
  lemma FirstTickStartsClock(p: Participant, now: real)
    requires Consistent(p) && p.startTime.None?
    ensures TickEntry(p, now).1.None?
    ensures var q := TickEntry(p, now).0;
      q.startTime == Some(now) && q.lastClipTime == Some(now)
      && q.frames == p.frames && q.audio == p.audio && q.lastAudioTs == p.lastAudioTs
  {
  }

  /** A tick less than 5 s after the last flush leaves the entry untouched. */
  lemma EarlyTickIsNoop(p: Participant, now: real)
    requires Consistent(p) && p.startTime.Some? && now - p.lastClipTime.value < 5.0
    ensures TickEntry(p, now) == (p, None)
  {
  }

  /**
   * A tick 5 s or more after the last flush always clears frames and audio, moves the flush time to
   * `now` and forgets the last audio timestamp, queued or not; it queues a clip exactly when a frame
   * lies in `[last_clip_time, now]` or audio is buffered, and the clip holds exactly those frames in
   * order and the whole audio buffer.
   */
  lemma DueTickFlushes(p: Participant, now: real)
    requires Consistent(p) && p.startTime.Some? && now - p.lastClipTime.value >= 5.0
    ensures var (q, clip) := TickEntry(p, now);
      var last := p.lastClipTime.value;
      && q.frames == [] && q.audio == [] && q.lastClipTime == Some(now) && q.lastAudioTs == None
      && q.startTime == p.startTime
      && (clip.Some? <==> (exists f :: f in p.frames && last <= f.time <= now) || p.audio != [])
      && (clip.Some? ==> clip.value.audio == p.audio
                         && clip.value.frames == InWindow(p.frames, last, now)
                         && forall f :: f in clip.value.frames <==> f in p.frames && last <= f.time <= now)
  {
    var last := p.lastClipTime.value;
    InWindowMembers(p.frames, last, now);
    var relevant := InWindow(p.frames, last, now);
    if exists f :: f in p.frames && last <= f.time <= now {
      var f :| f in p.frames && last <= f.time <= now;
      assert f in relevant;
    }
    if relevant != [] {
      assert relevant[0] in relevant;
    }
  }

  // ---------------------------------------------------------------- encoding stage

  /** `clean_speaker`: when the name starts with the session prefix, every occurrence of it is removed. */
  function CleanSpeaker(sessionId: string, speaker: string): (clean: string)
    ensures |clean| <= |speaker|
    ensures !StartsWith(speaker, Prefix(sessionId)) ==> clean == speaker
  {
    if StartsWith(speaker, Prefix(sessionId)) then RemoveAll(speaker, Prefix(sessionId)) else speaker
  }

  /** A leading session prefix is stripped (when it does not recur); other names are kept. */
  lemma CleanSpeakerStrips(sessionId: string, rest: string, other: string)
    requires !Contains(rest, Prefix(sessionId))
    ensures CleanSpeaker(sessionId, Prefix(sessionId) + rest) == rest
    ensures !StartsWith(other, Prefix(sessionId)) ==> CleanSpeaker(sessionId, other) == other
  {
    var p := Prefix(sessionId);
    assert (p + rest)[..|p|] == p;
    assert (p + rest)[|p|..] == rest;
    RemoveAllAbsent(rest, p);
  }

  /** The worker's unit of work for one speaker: cleaned name, raw audio, frames inside the window. */
  datatype EncodeJob = EncodeJob(speaker: string, audio: seq<Byte>, frames: seq<Frame>)

  /** `create_clips_for_all_sync` for one speaker, without the encoding itself. */
  function PlanClip(sessionId: string, speaker: string, clip: Clip, start: real, end: real): (job: EncodeJob)
    ensures job.speaker == CleanSpeaker(sessionId, speaker) && job.audio == clip.audio
    ensures forall f :: f in job.frames <==> f in clip.frames && start <= f.time <= end
  {
    InWindowMembers(clip.frames, start, end);
    EncodeJob(CleanSpeaker(sessionId, speaker), clip.audio, InWindow(clip.frames, start, end))
  }

  /**
   * The tick hands the worker the window `[now - 5, now]`, so of the frames detached at a flush the
   * worker writes exactly those at or after `now - 5`: frames from a late tick's first second are dropped.
   */
  lemma EncodedFramesInLastFiveSeconds(sessionId: string, speaker: string, p: Participant, now: real)
    requires Consistent(p) && p.startTime.Some? && now - p.lastClipTime.value >= 5.0
    requires TickEntry(p, now).1.Some?
    ensures PlanClip(sessionId, speaker, TickEntry(p, now).1.value, now - 5.0, now).frames
         == InWindow(p.frames, now - 5.0, now)
  {
    InWindowNested(p.frames, p.lastClipTime.value, now, now - 5.0, now);
  }

  // ---------------------------------------------------------------- the store

  /** The clip a tick of `sessionId` at `now` queues for `speaker`, if any. */
  function Queued(entries: map<string, Participant>, sessionId: string, now: real, speaker: string): Option<Clip>
    requires forall k :: k in entries ==> Consistent(entries[k])
  {
    var key := KeyOf(sessionId, speaker);
    if key in entries then TickEntry(entries[key], now).1 else None
  }

  predicate AllConsistent(entries: map<string, Participant>) {
    forall k :: k in entries ==> Consistent(entries[k])
  }

  /** Part way through a tick: the session's keys outside `todo` are ticked, every other key is as before. */
  ghost predicate EntriesTicked(before: map<string, Participant>, sessionId: string, now: real,
                                todo: set<string>, es: map<string, Participant>)
    requires AllConsistent(before)
  {
    && es.Keys == before.Keys
    && forall k :: k in es ==>
         es[k] == if k !in todo && StartsWith(k, Prefix(sessionId)) then TickEntry(before[k], now).0 else before[k]
  }

  /** Part way through a tick: the clips queued so far are those of the session's keys outside `todo`. */
  ghost predicate ClipsQueued(before: map<string, Participant>, sessionId: string, now: real,
                              todo: set<string>, clips: map<string, Clip>)
    requires AllConsistent(before)
  {
    && (forall s :: s in clips <==> KeyOf(sessionId, s) !in todo && Queued(before, sessionId, now, s).Some?)
    && (forall s :: s in clips ==> clips[s] == Queued(before, sessionId, now, s).value)
  }

  /** The clips after the tick of one more key. */
  function ClipsAfter(before: map<string, Participant>, sessionId: string, now: real, key: string,
                      clips: map<string, Clip>): map<string, Clip>
    requires AllConsistent(before) && key in before
  {
    if StartsWith(key, Prefix(sessionId)) && TickEntry(before[key], now).1.Some?
    then clips[SpeakerOfKey(sessionId, key) := TickEntry(before[key], now).1.value]
    else clips
  }

  lemma EntriesStep(before: map<string, Participant>, sessionId: string, now: real,
                    todo: set<string>, es: map<string, Participant>, key: string)
    requires AllConsistent(before) && key in todo && todo <= before.Keys
    requires EntriesTicked(before, sessionId, now, todo, es)
    ensures EntriesTicked(before, sessionId, now, todo - {key},
                          if StartsWith(key, Prefix(sessionId)) then es[key := TickEntry(before[key], now).0] else es)
  {
  }

  lemma ClipsStep(before: map<string, Participant>, sessionId: string, now: real,
                  todo: set<string>, clips: map<string, Clip>, key: string)
    requires AllConsistent(before) && key in todo && todo <= before.Keys
    requires ClipsQueued(before, sessionId, now, todo, clips)
    ensures ClipsQueued(before, sessionId, now, todo - {key}, ClipsAfter(before, sessionId, now, key, clips))
  {
    if StartsWith(key, Prefix(sessionId)) {
      var speaker := SpeakerOfKey(sessionId, key);
      KeyRoundTrip(sessionId, speaker, key);
      forall s | s != speaker
        ensures KeyOf(sessionId, s) != key
      {
        KeyRoundTrip(sessionId, s, key);
      }
    } else {
      forall s ensures KeyOf(sessionId, s) != key {
        KeyRoundTrip(sessionId, s, key);
      }
    }
  }

  /** `participant_data`: the buffers of every participant of every session. */
  class ParticipantStore {
    var entries: map<string, Participant>

    ghost predicate Valid()
      reads this
    {
      AllConsistent(entries)
    }

    constructor ()
      ensures Valid() && entries == map[]
    {
      entries := map[];
    }

    /** The entry for `key`, as the `defaultdict` would produce it. */
    function Entry(key: string): Participant
      reads this
    {
      if key in entries then entries[key] else Blank
    }

    /** A `video_separate_png.data` event: a non-empty buffer is appended with its arrival time. */
    method OnVideoFrame(sessionId: string, name: Option<string>, id: Option<string>, buffer: string, now: real)
      requires Valid()
      modifies this
      ensures Valid()
      ensures var key := KeyOf(sessionId, SpeakerOf(name, id));
        var p := old(Entry(key));
        entries == if buffer != "" then old(entries)[key := p.(frames := p.frames + [Frame(buffer, now)])]
                   else old(entries)
    {
      var key := KeyOf(sessionId, SpeakerOf(name, id));
      if buffer != "" {
        var p := Entry(key);
        entries := entries[key := p.(frames := p.frames + [Frame(buffer, now)])];
      }
    }

    /**
     * An `audio_separate_raw.data` event: with a non-empty buffer and a relative timestamp the decoded
     * chunk is gap-filled into the speaker's buffer; otherwise nothing changes.
     */
    method OnAudioChunk(sessionId: string, name: Option<string>, id: Option<string>, buffer: string,
                        relative: Option<real>, decode: string -> seq<Byte>)
      requires Valid()
      modifies this
      ensures Valid()
      ensures var key := KeyOf(sessionId, SpeakerOf(name, id));
        entries == if buffer != "" && relative.Some?
                   then old(entries)[key := WithAudio(old(Entry(key)), decode(buffer), relative.value)]
                   else old(entries)
    {
      if buffer != "" && relative.Some? {
        var key := KeyOf(sessionId, SpeakerOf(name, id));
        var pcm := decode(buffer);
        var p := Entry(key);
        var pad := PadSamples(p.lastAudioTs, relative.value, |pcm|);
        entries := entries[key := p.(audio := p.audio + Zeros(SampleWidth * pad) + pcm,
                                     lastAudioTs := Some(relative.value))];
      }
    }

    /**
     * `check_and_create_clips`: every entry of the session is ticked, entries of other sessions are
     * left alone, and the clips queued (if any) are handed on with the window `[now - 5, now]`.
     */
    method Tick(sessionId: string, now: real) returns (batch: Option<ClipBatch>)
      requires Valid()
      modifies this
      ensures Valid()
      ensures entries.Keys == old(entries).Keys
      ensures forall k :: k in entries ==>
        entries[k] == if StartsWith(k, Prefix(sessionId)) then TickEntry(old(entries)[k], now).0
                      else old(entries)[k]
      ensures batch.None? ==> forall s :: Queued(old(entries), sessionId, now, s).None?
      ensures batch.Some? ==>
        && batch.value.start == now - ClipLen && batch.value.end == now
        && batch.value.clips != map[]
        && forall s :: (s in batch.value.clips <==> Queued(old(entries), sessionId, now, s).Some?)
                       && (s in batch.value.clips ==> batch.value.clips[s] == Queued(old(entries), sessionId, now, s).value)
    {
      var prefix := Prefix(sessionId);
      var es := entries;
      var todo := es.Keys;
      var clips: map<string, Clip> := map[];
      while todo != {}
        invariant todo <= old(entries).Keys
        invariant EntriesTicked(old(entries), sessionId, now, todo, es)
        invariant ClipsQueued(old(entries), sessionId, now, todo, clips)
        decreases todo
      {
        var key :| key in todo;
        EntriesStep(old(entries), sessionId, now, todo, es, key);
        ClipsStep(old(entries), sessionId, now, todo, clips, key);
        if StartsWith(key, prefix) {
          var (next, clip) := TickEntry(es[key], now);
          es := es[key := next];
          if clip.Some? {
            clips := clips[SpeakerOfKey(sessionId, key) := clip.value];
          }
        }
        todo := todo - {key};
      }
      entries := es;
      if clips != map[] {
        batch := Some(ClipBatch(clips, now - ClipLen, now));
      } else {
        batch := None;
      }
    }

    /** Disconnect cleanup: every key of the session is deleted and no other key. */
    method Disconnect(sessionId: string)
      requires Valid()
      modifies this
      ensures Valid()
      ensures forall k :: k in entries <==> k in old(entries) && !StartsWith(k, Prefix(sessionId))
      ensures forall k :: k in entries ==> entries[k] == old(entries)[k]
    {
      var prefix := Prefix(sessionId);
      var doomed := set k | k in entries && StartsWith(k, prefix);
      ghost var before := entries;
      while doomed != {}
        invariant doomed <= entries.Keys <= before.Keys
        invariant forall k :: k in before ==> (k in entries <==> !StartsWith(k, prefix) || k in doomed)
        invariant forall k :: k in doomed ==> StartsWith(k, prefix)
        invariant forall k :: k in entries ==> entries[k] == before[k]
        decreases doomed
      {
        var key :| key in doomed;
        entries := entries - {key};
        doomed := doomed - {key};
      }
    }
  }
}

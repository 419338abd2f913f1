/**
 * The coach gate of `process_affina_feedback` (recall/ws_receiver.py): for each speaker of a clip
 * batch the window's top emotions are appended to the speaker's emotion trail and compared with
 * the speaker's last trail state; the coach is called only if some speaker's emotions changed.
 * A trail is the sequence of entries written to `<speaker>_emotions.jsonl`; an entry written by
 * `save_emotion_trail` reads back unchanged.
 */
module CoachTrigger {
  import opened Wrappers
  import opened Storage

  const CoachThreshold: real := 0.1

  /** Reading back a written trail entry. */
  function ReadBack(e: TopEmotions): Option<TopEmotions> {
    Some(e)
  }

  /** `save_emotion_trail`: the speaker's trail gains one last entry. */
  function Saved(trails: map<string, seq<TopEmotions>>, speaker: string, top: TopEmotions): map<string, seq<TopEmotions>> {
    trails[speaker := (if speaker in trails then trails[speaker] else []) + [top]]
  }

  /** The speaker's last trail state as `get_last_emotion_state` returns it (`None` is `{}`). */
  function LastState(trails: map<string, seq<TopEmotions>>, speaker: string): Option<TopEmotions> {
    if speaker in trails && trails[speaker] != [] then Some(trails[speaker][|trails[speaker]| - 1]) else None
  }

  /** Saving moves only the saving speaker's last state, to the entry saved. */
  lemma SavedLastState(trails: map<string, seq<TopEmotions>>, speaker: string, top: TopEmotions)
    ensures forall s :: LastState(Saved(trails, speaker, top), s) == if s == speaker then Some(top) else LastState(trails, s)
    ensures forall s :: s in trails && s != speaker ==> s in Saved(trails, speaker, top) && Saved(trails, speaker, top)[s] == trails[s]
  {
  }

  /** The speakers of a batch are distinct: the batch is a dict keyed by speaker. */
  predicate DistinctSpeakers(batch: seq<(string, TopEmotions)>) {
    forall i, j :: 0 <= i < j < |batch| ==> batch[i].0 != batch[j].0
  }

  /**
   * The loop as written: save first, then read the "last" state and compare. The state read is the
   * entry just saved, so no speaker ever counts as changed and the coach is never called.
   */
  method DecideAsWritten(batch: seq<(string, TopEmotions)>, trails: map<string, seq<TopEmotions>>)
    returns (trigger: bool, after: map<string, seq<TopEmotions>>)
    ensures !trigger
    ensures forall s :: s in after ==> LastState(after, s) == LastState(trails, s)
                                       || exists i :: 0 <= i < |batch| && batch[i].0 == s
  {
    trigger := false;
    after := trails;
    var i := 0;
    while i < |batch|
      invariant 0 <= i <= |batch|
      invariant !trigger
      invariant after.Keys >= trails.Keys
      invariant forall s :: s in after ==> LastState(after, s) == LastState(trails, s)
                                           || exists k :: 0 <= k < i && batch[k].0 == s
    {
      var (speaker, summary) := batch[i];
      after := Saved(after, speaker, summary);
      var last := LastEmotionState(after, speaker, ReadBack);
      UnchangedIsStable(summary, CoachThreshold);
      if HasEmotionChanged(last, summary, CoachThreshold) {
        trigger := true;
      }
      i := i + 1;
    }
  }

  /**
   * The evidently intended gate: read each speaker's last state before saving the new one. The coach
   * is called exactly when some speaker's window differs from that speaker's previous state (a
   * speaker with no trail yet always counts), and every speaker's trail ends with the new entry.
   */
  method Decide(batch: seq<(string, TopEmotions)>, trails: map<string, seq<TopEmotions>>)
    returns (trigger: bool, after: map<string, seq<TopEmotions>>)
    requires DistinctSpeakers(batch)
    ensures trigger <==> exists i :: 0 <= i < |batch|
                           && HasEmotionChanged(LastState(trails, batch[i].0), batch[i].1, CoachThreshold)
    ensures forall i :: 0 <= i < |batch| ==> LastState(after, batch[i].0) == Some(batch[i].1)
    ensures forall s :: s in trails && (forall i :: 0 <= i < |batch| ==> batch[i].0 != s)
                        ==> s in after && after[s] == trails[s]
  {
    trigger := false;
    after := trails;
    var i := 0;
    while i < |batch|
      invariant 0 <= i <= |batch|
      invariant trigger <==> exists k :: 0 <= k < i
                               && HasEmotionChanged(LastState(trails, batch[k].0), batch[k].1, CoachThreshold)
      invariant forall k :: 0 <= k < i ==> LastState(after, batch[k].0) == Some(batch[k].1)
      invariant forall k :: i <= k < |batch| ==> LastState(after, batch[k].0) == LastState(trails, batch[k].0)
      invariant forall s :: s in trails && (forall k :: 0 <= k < i ==> batch[k].0 != s)
                          ==> s in after && after[s] == trails[s]
    {
      var (speaker, summary) := batch[i];
      var last := LastEmotionState(after, speaker, ReadBack);
      assert last == LastState(trails, batch[i].0);
      if HasEmotionChanged(last, summary, CoachThreshold) {
        trigger := true;
      }
      SavedLastState(after, speaker, summary);
      after := Saved(after, speaker, summary);
      i := i + 1;
    }
  }

  /** With the intended order, a speaker seen for the first time always calls the coach. */
  lemma FirstDetectionCallsCoach(batch: seq<(string, TopEmotions)>, trails: map<string, seq<TopEmotions>>, i: int)
    requires 0 <= i < |batch| && batch[i].0 !in trails
    ensures exists k :: 0 <= k < |batch|
              && HasEmotionChanged(LastState(trails, batch[k].0), batch[k].1, CoachThreshold)
  {
    assert HasEmotionChanged(LastState(trails, batch[i].0), batch[i].1, CoachThreshold);
  }
}

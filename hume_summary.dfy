/**
 * `summarize` of hume/hume_summarize.py: normalises a Hume batch-job result into the top three
 * averaged prosody (audio) and face (video) emotions plus the joined speech transcript. Any
 * exception raised on the way is caught and recorded; `failed` stands for the `"error"` key.
 */
module HumeSummary {
  import opened Wrappers
  import opened JsonValue
  import Text

  /** One `(name, average)` pair of `top_emotions`. */
  datatype Ranked = Ranked(name: string, score: real)

  /** `summary["audio"]` or `summary["video"]`: the keys that were set. */
  datatype Modality = Modality(topEmotions: Option<seq<Ranked>>, transcript: Option<string>)

  const Empty: Modality := Modality(None, None)

  datatype Summary = Summary(audio: Modality, video: Modality, failed: bool)

  // ---------------------------------------------------------------------------------------------
  // Ranking: `sorted(avg.items(), key=lambda x: x[1], reverse=True)[:3]`

  /** Index `i` precedes index `j` in Python's stable descending sort by score. */
  predicate Before(items: seq<Ranked>, i: int, j: int)
    requires 0 <= i < |items| && 0 <= j < |items|
  {
    items[i].score > items[j].score || (items[i].score == items[j].score && i < j)
  }

  /** The index below `n` and outside `taken` that the sort puts first; -1 when there is none. */
  function FirstUntaken(items: seq<Ranked>, taken: seq<int>, n: nat): (b: int)
    requires n <= |items|
    ensures b == -1 <==> forall j :: 0 <= j < n ==> j in taken
    ensures b != -1 ==> 0 <= b < n && b !in taken
    ensures b != -1 ==> forall j :: 0 <= j < n && j !in taken && j != b ==> Before(items, b, j)
  {
    if n == 0 then -1
    else
      var b := FirstUntaken(items, taken, n - 1);
      if n - 1 in taken then b
      else if b == -1 || items[n - 1].score > items[b].score then n - 1
      else b
  }

  /** The indices of the first `k` entries of the stable descending sort, in sorted order. */
  function TopIndices(items: seq<Ranked>, k: nat): (r: seq<int>)
    ensures |r| <= k
    ensures forall p :: 0 <= p < |r| ==> 0 <= r[p] < |items|
    ensures forall p, q :: 0 <= p < q < |r| ==> Before(items, r[p], r[q])
    ensures forall j, p :: 0 <= j < |items| && j !in r && 0 <= p < |r| ==> Before(items, r[p], j)
    ensures |r| < k ==> forall j :: 0 <= j < |items| ==> j in r
  {
    if k == 0 then []
    else
      var prev := TopIndices(items, k - 1);
      var b := FirstUntaken(items, prev, |items|);
      if b == -1 then prev else prev + [b]
  }

  /** The `[:3]` of the sorted pairs. */
  function TopThree(items: seq<Ranked>): (r: seq<Ranked>)
    ensures |r| <= 3
    ensures |r| < 3 ==> forall i :: 0 <= i < |items| ==> items[i] in r
    ensures forall p :: 0 <= p < |r| ==> r[p] in items
    ensures forall p, q :: 0 <= p < q < |r| ==> r[p].score >= r[q].score
    ensures forall i, p :: 0 <= i < |items| && items[i] !in r && 0 <= p < |r| ==> items[i].score <= r[p].score
  {
    var idx := TopIndices(items, 3);
    var r := seq(|idx|, p requires 0 <= p < |idx| => items[idx[p]]);
    assert forall i :: 0 <= i < |items| && i in idx ==> items[i] in r by {
      forall i | 0 <= i < |items| && i in idx
        ensures items[i] in r
      {
        var p :| 0 <= p < |idx| && idx[p] == i;
        assert r[p] == items[i];
      }
    }
    r
  }

  predicate DistinctNames(items: seq<Ranked>) {
    forall i, j :: 0 <= i < j < |items| ==> items[i].name != items[j].name
  }

  /**
   * Ties keep their first-seen order: when the later of two equally scored entries is reported,
   * the earlier one is reported too, ahead of it.
   */
  lemma TiesKeepInputOrder(items: seq<Ranked>, i: int, j: int)
    requires DistinctNames(items)
    requires 0 <= i < j < |items| && items[i].score == items[j].score
    requires items[j] in TopThree(items)
    ensures exists p, q :: 0 <= p < q < |TopThree(items)|
              && TopThree(items)[p] == items[i] && TopThree(items)[q] == items[j]
  {
    var idx := TopIndices(items, 3);
    var r := TopThree(items);
    var q :| 0 <= q < |r| && r[q] == items[j];
    assert r[q] == items[idx[q]];
    assert idx[q] == j;
    assert !Before(items, idx[q], i);
    assert i in idx;
    var p :| 0 <= p < |idx| && idx[p] == i;
    assert r[p] == items[i];
    assert !Before(items, idx[q], idx[p]);
  }

  /** Reported names are distinct when the averaged names are. */
  lemma TopThreeDistinct(items: seq<Ranked>)
    requires DistinctNames(items)
    ensures DistinctNames(TopThree(items))
  {
    var idx := TopIndices(items, 3);
    var r := TopThree(items);
    forall p, q | 0 <= p < q < |r|
      ensures r[p].name != r[q].name
    {
      assert Before(items, idx[p], idx[q]);
      assert r[p] == items[idx[p]] && r[q] == items[idx[q]];
    }
  }

  // ---------------------------------------------------------------------------------------------
  // Averaging: `all_emotions.setdefault(name, []).append(score)`, then `sum(scores) / len(scores)`

  /** `all_emotions`: a dict from name to scores; `order` is its key (insertion) order. */
  datatype Tally = Tally(order: seq<string>, scores: map<string, seq<real>>)

  const NoScores: Tally := Tally([], map[])

  predicate WellFormed(t: Tally) {
    (forall n :: n in t.order ==> n in t.scores)
    && (forall n :: n in t.scores ==> n in t.order)
    && (forall p, q :: 0 <= p < q < |t.order| ==> t.order[p] != t.order[q])
    && (forall n :: n in t.scores ==> t.scores[n] != [])
  }

  function AddScore(t: Tally, name: string, score: real): (r: Tally)
    requires WellFormed(t)
    ensures WellFormed(r)
    ensures r.scores.Keys == t.scores.Keys + {name}
  {
    if name in t.scores then Tally(t.order, t.scores[name := t.scores[name] + [score]])
    else Tally(t.order + [name], t.scores[name := [score]])
  }

  function AddAll(t: Tally, obs: seq<(string, real)>): (r: Tally)
    requires WellFormed(t)
    ensures WellFormed(r)
    decreases |obs|
  {
    if obs == [] then t
    else
      var last := obs[|obs| - 1];
      AddScore(AddAll(t, obs[..|obs| - 1]), last.0, last.1)
  }

  lemma {:induction false} AddAllAppend(t: Tally, a: seq<(string, real)>, b: seq<(string, real)>)
    requires WellFormed(t)
    ensures AddAll(t, a + b) == AddAll(AddAll(t, a), b)
    decreases |b|
  {
    if b == [] {
      assert a + b == a;
    } else {
      var b' := b[..|b| - 1];
      assert (a + b)[..|a + b| - 1] == a + b';
      AddAllAppend(t, a, b');
    }
  }

  /** The tally of a whole observation stream. */
  function Group(obs: seq<(string, real)>): (t: Tally)
    ensures WellFormed(t)
  {
    AddAll(NoScores, obs)
  }

  /** Every score observed for `name`, in the order observed. */
  function ScoresFor(obs: seq<(string, real)>, name: string): seq<real>
    decreases |obs|
  {
    if obs == [] then []
    else
      var last := obs[|obs| - 1];
      ScoresFor(obs[..|obs| - 1], name) + (if last.0 == name then [last.1] else [])
  }

  /** The tally holds, for exactly the observed names, every score observed under that name. */
  lemma GroupCollects(obs: seq<(string, real)>)
    ensures forall n :: n in Group(obs).scores <==> exists i :: 0 <= i < |obs| && obs[i].0 == n
    ensures forall n :: n in Group(obs).scores ==> Group(obs).scores[n] == ScoresFor(obs, n)
  {
    forall n
      ensures n in Group(obs).scores <==> exists i :: 0 <= i < |obs| && obs[i].0 == n
      ensures n in Group(obs).scores ==> Group(obs).scores[n] == ScoresFor(obs, n)
    {
      GroupCollectsName(obs, n);
    }
  }

  lemma GroupCollectsName(obs: seq<(string, real)>, n: string)
    ensures n in Group(obs).scores <==> exists i :: 0 <= i < |obs| && obs[i].0 == n
    ensures n in Group(obs).scores ==> Group(obs).scores[n] == ScoresFor(obs, n)
  {
    GroupScoresOf(obs, n);
    ScoresForNonEmpty(obs, n);
  }

  /** The scores the tally holds for `n` (none when `n` is not a key) are those observed for `n`. */
  lemma {:induction false} GroupScoresOf(obs: seq<(string, real)>, n: string)
    ensures (if n in Group(obs).scores then Group(obs).scores[n] else []) == ScoresFor(obs, n)
    decreases |obs|
  {
    if obs != [] {
      var init, last := obs[..|obs| - 1], obs[|obs| - 1];
      GroupScoresOf(init, n);
      var before, after := Group(init), Group(obs);
      assert after == AddScore(before, last.0, last.1);
      assert ScoresFor(obs, n) == ScoresFor(init, n) + (if last.0 == n then [last.1] else []);
      if last.0 != n {
        assert (n in after.scores <==> n in before.scores);
        assert n in after.scores ==> after.scores[n] == before.scores[n];
      }
    }
  }

  lemma {:induction false} ScoresForNonEmpty(obs: seq<(string, real)>, n: string)
    ensures ScoresFor(obs, n) != [] <==> exists i :: 0 <= i < |obs| && obs[i].0 == n
    decreases |obs|
  {
    if obs != [] {
      var init := obs[..|obs| - 1];
      ScoresForNonEmpty(init, n);
      if ScoresFor(init, n) != [] {
        var i :| 0 <= i < |init| && init[i].0 == n;
        assert obs[i].0 == n;
      } else if obs[|obs| - 1].0 != n {
        forall i | 0 <= i < |obs|
          ensures obs[i].0 != n
        {
          if i < |init| {
            assert obs[i] == init[i];
          }
        }
      }
    }
  }

  function Sum(xs: seq<real>): real
    decreases |xs|
  {
    if xs == [] then 0.0 else Sum(xs[..|xs| - 1]) + xs[|xs| - 1]
  }

  /** `sum(scores) / len(scores)`. */
  function Mean(xs: seq<real>): real
    requires xs != []
  {
    Sum(xs) / (|xs| as real)
  }

  /** `avg_emotions.items()`, in key order. */
  function Means(t: Tally): (r: seq<Ranked>)
    requires WellFormed(t)
    ensures |r| == |t.order|
    ensures DistinctNames(r)
    ensures forall i :: 0 <= i < |r| ==> r[i].name in t.scores && r[i].score == Mean(t.scores[r[i].name])
  {
    seq(|t.order|, i requires 0 <= i < |t.order| => Ranked(t.order[i], Mean(t.scores[t.order[i]])))
  }

  /** The `top_emotions` of a branch's observation stream. */
  function Ranking(obs: seq<(string, real)>): seq<Ranked> {
    TopThree(Means(Group(obs)))
  }

  /**
   * Each reported score is the mean of every score observed under that name, and the reported
   * names are distinct.
   */
  lemma RankingReportsMeans(obs: seq<(string, real)>)
    ensures DistinctNames(Ranking(obs))
    ensures forall e :: e in Ranking(obs) ==> ScoresFor(obs, e.name) != [] && e.score == Mean(ScoresFor(obs, e.name))
  {
    GroupCollects(obs);
    TopThreeDistinct(Means(Group(obs)));
  }

  // ---------------------------------------------------------------------------------------------
  // Observations: what the nested `for gp / for pred / for emo` loops encounter

  /** Scores `(name, score)` in encounter order and the truthy `text` values in encounter order. */
  datatype Observed = Observed(scores: seq<(string, real)>, texts: seq<Json>)

  /** `name, score = emo["name"], emo["score"]` with a score `sum` can add; `None` when that raises. */
  function EmotionObs(emo: Json): Option<(string, real)> {
    if emo.JObj? && "name" in emo.fields && "score" in emo.fields
       && emo.fields["name"].JStr? && Number(emo.fields["score"]).Some?
    then Some((emo.fields["name"].s, Number(emo.fields["score"]).value))
    else None
  }

  function EmotionsObs(emos: seq<Json>): Option<seq<(string, real)>>
    decreases |emos|
  {
    if emos == [] then Some([])
    else match EmotionsObs(emos[..|emos| - 1])
      case None => None
      case Some(init) =>
        match EmotionObs(emos[|emos| - 1])
        case None => None
        case Some(x) => Some(init + [x])
  }

  /** One `pred`: its truthy `text` and its `emotions`. */
  function PredObs(pred: Json): Option<Observed> {
    if !pred.JObj? then None
    else
      var text := Get(pred.fields, "text", JNull);
      match Items(Get(pred.fields, "emotions", JArr([])))
      case None => None
      case Some(emos) =>
        match EmotionsObs(emos)
        case None => None
        case Some(s) => Some(Observed(s, if Truthy(text) then [text] else []))
  }

  /** One `gp`: the predictions of `gp.get("predictions", [])`. */
  function GroupObs(gp: Json): Option<Observed> {
    if !gp.JObj? then None
    else match Items(Get(gp.fields, "predictions", JArr([])))
      case None => None
      case Some(preds) => AllObs(preds, PredObs)
  }

  /** The observations of a loop over `xs`, each element observed by `f`; `None` once one raises. */
  function AllObs(xs: seq<Json>, f: Json -> Option<Observed>): Option<Observed>
    decreases |xs|
  {
    if xs == [] then Some(Observed([], []))
    else match AllObs(xs[..|xs| - 1], f)
      case None => None
      case Some(o) =>
        match f(xs[|xs| - 1])
        case None => None
        case Some(x) => Some(Observed(o.scores + x.scores, o.texts + x.texts))
  }

  /** One more emotion of the loop: its observation extends those of the emotions before it. */
  lemma EmotionsObsStep(emos: seq<Json>, i: int, before: seq<(string, real)>, x: (string, real))
    requires 0 <= i < |emos| && EmotionsObs(emos[..i]) == Some(before) && EmotionObs(emos[i]) == Some(x)
    ensures EmotionsObs(emos[..i + 1]) == Some(before + [x])
  {
    assert emos[..i + 1][..i] == emos[..i];
  }

  /** One more element of the loop: its observations extend those of the elements before it. */
  lemma AllObsStep(xs: seq<Json>, f: Json -> Option<Observed>, i: int, o: Observed, x: Observed)
    requires 0 <= i < |xs| && AllObs(xs[..i], f) == Some(o) && f(xs[i]) == Some(x)
    ensures AllObs(xs[..i + 1], f) == Some(Observed(o.scores + x.scores, o.texts + x.texts))
  {
    assert xs[..i + 1][..i] == xs[..i];
  }

  lemma {:induction false} EmotionsObsPrefixFails(emos: seq<Json>, i: int)
    requires 0 <= i <= |emos| && EmotionsObs(emos[..i]).None?
    ensures EmotionsObs(emos).None?
    decreases |emos| - i
  {
    if i < |emos| {
      assert emos[..i + 1][..i] == emos[..i];
      EmotionsObsPrefixFails(emos, i + 1);
    } else {
      assert emos[..i] == emos;
    }
  }

  lemma {:induction false} AllObsPrefixFails(xs: seq<Json>, f: Json -> Option<Observed>, i: int)
    requires 0 <= i <= |xs| && AllObs(xs[..i], f).None?
    ensures AllObs(xs, f).None?
    decreases |xs| - i
  {
    if i < |xs| {
      assert xs[..i + 1][..i] == xs[..i];
      AllObsPrefixFails(xs, f, i + 1);
    } else {
      assert xs[..i] == xs;
    }
  }

  /** Every collected text is truthy, as `if text:` demands. */
  lemma {:induction false} CollectedTextsAreTruthy(xs: seq<Json>)
    requires AllObs(xs, GroupObs).Some?
    ensures forall t :: t in AllObs(xs, GroupObs).value.texts ==> Truthy(t)
    decreases |xs|
  {
    if xs != [] {
      CollectedTextsAreTruthy(xs[..|xs| - 1]);
      var gp := xs[|xs| - 1];
      var preds := Items(Get(gp.fields, "predictions", JArr([]))).value;
      PredTextsAreTruthy(preds);
    }
  }

  lemma {:induction false} PredTextsAreTruthy(preds: seq<Json>)
    requires AllObs(preds, PredObs).Some?
    ensures forall t :: t in AllObs(preds, PredObs).value.texts ==> Truthy(t)
    decreases |preds|
  {
    if preds != [] {
      PredTextsAreTruthy(preds[..|preds| - 1]);
    }
  }

  // ---------------------------------------------------------------------------------------------
  // The shape of the input

  /** `results[0]` for a non-empty list, `results` for a dict; `None` is the `ValueError`. */
  function Selected(results: Json): Option<Json> {
    match results
    case JArr(a) => if |a| > 0 then Some(a[0]) else None
    case JObj(_) => Some(results)
    case _ => None
  }

  /** `result["results"].get("predictions", [])`, else `result["predictions"]`, else `[]`. */
  function PredictionsOf(result: Json): Option<Json> {
    match Membership("results", result)
    case None => None
    case Some(true) =>
      if result.JObj? && result.fields["results"].JObj?
      then Some(Get(result.fields["results"].fields, "predictions", JArr([])))
      else None
    case Some(false) =>
      match Membership("predictions", result)
      case None => None
      case Some(true) => if result.JObj? then Some(result.fields["predictions"]) else None
      case Some(false) => Some(JArr([]))
  }

  /** `predictions[0].get("models", {})` for truthy predictions. */
  function ModelsOf(predictions: Json): Option<Json> {
    if predictions.JArr? && |predictions.items| > 0 && predictions.items[0].JObj?
    then Some(Get(predictions.items[0].fields, "models", JObj(map[])))
    else None
  }

  /**
   * The grouped predictions of one model branch: `None` when the branch raises, `Some(None)` when
   * it is skipped (no such model, or no grouped predictions), `Some(Some(groups))` otherwise.
   */
  function Branch(models: Json, key: string): Option<Option<seq<Json>>> {
    match Membership(key, models)
    case None => None
    case Some(false) => Some(None)
    case Some(true) =>
      if !(models.JObj? && models.fields[key].JObj?) then None
      else
        var grouped := Get(models.fields[key].fields, "grouped_predictions", JArr([]));
        if !Truthy(grouped) then Some(None)
        else match Items(grouped)
          case None => None
          case Some(gs) => Some(Some(gs))
  }

  /** `" ".join(transcripts)` needs every element to be a string. */
  function Strings(texts: seq<Json>): Option<seq<string>>
    decreases |texts|
  {
    if texts == [] then Some([])
    else match Strings(texts[..|texts| - 1])
      case None => None
      case Some(init) =>
        if texts[|texts| - 1].JStr? then Some(init + [texts[|texts| - 1].s]) else None
  }

  /** The audio branch over its groups: the modality as left behind, and whether no exception was raised. */
  function AudioOf(gs: seq<Json>): (Modality, bool) {
    match AllObs(gs, GroupObs)
    case None => (Empty, false)
    case Some(o) =>
      var top := Ranking(o.scores);
      if o.texts == [] then (Modality(Some(top), None), true)
      else match Strings(o.texts)
        case None => (Modality(Some(top), None), false)
        case Some(ts) => (Modality(Some(top), Some(Text.Join(" ", ts))), true)
  }

  /** The video branch: the modality, or `None` when the branch raises. */
  function VideoOf(gs: seq<Json>): Option<Modality> {
    match AllObs(gs, GroupObs)
    case None => None
    case Some(o) => Some(Modality(Some(Ranking(o.scores)), None))
  }

  /** What `summarize(results)` returns. */
  function SummaryOf(results: Json): Summary {
    match Selected(results)
    case None => Summary(Empty, Empty, true)
    case Some(result) =>
      match PredictionsOf(result)
      case None => Summary(Empty, Empty, true)
      case Some(predictions) => FromPredictions(predictions)
  }

  /** The summary once `predictions` has been found. */
  function FromPredictions(predictions: Json): Summary {
    if !Truthy(predictions) then Summary(Empty, Empty, false)
    else match ModelsOf(predictions)
      case None => Summary(Empty, Empty, true)
      case Some(models) => FromModels(models)
  }

  /** The summary once `models` has been read: the prosody branch, then the face branch. */
  function FromModels(models: Json): Summary {
    match Branch(models, "prosody")
    case None => Summary(Empty, Empty, true)
    case Some(prosody) =>
      var (audio, audioOk) := if prosody.None? then (Empty, true) else AudioOf(prosody.value);
      if !audioOk then Summary(audio, Empty, true)
      else match Branch(models, "face")
        case None => Summary(audio, Empty, true)
        case Some(None) => Summary(audio, Empty, false)
        case Some(Some(gs)) =>
          match VideoOf(gs)
          case None => Summary(audio, Empty, true)
          case Some(video) => Summary(audio, video, false)
  }

  // ---------------------------------------------------------------------------------------------
  // The accumulating loops and `summarize` itself

  /** `for emo in emotions: all_emotions.setdefault(name, []).append(score)`. */
  method CollectEmotions(emos: seq<Json>, t: Tally) returns (ok: bool, t': Tally)
    requires WellFormed(t)
    ensures ok <==> EmotionsObs(emos).Some?
    ensures ok ==> WellFormed(t') && t' == AddAll(t, EmotionsObs(emos).value)
  {
    t' := t;
    ghost var before: seq<(string, real)> := [];
    var i := 0;
    while i < |emos|
      invariant 0 <= i <= |emos|
      invariant EmotionsObs(emos[..i]) == Some(before)
      invariant t' == AddAll(t, before)
    {
      var obs := EmotionObs(emos[i]);
      if obs.None? {
        assert emos[..i + 1][..i] == emos[..i];
        EmotionsObsPrefixFails(emos, i + 1);
        return false, t';
      }
      var (name, score) := obs.value;
      EmotionsObsStep(emos, i, before, (name, score));
      AddAllAppend(t, before, [(name, score)]);
      t' := AddScore(t', name, score);
      before := before + [(name, score)];
      i := i + 1;
    }
    assert emos[..i] == emos;
    ok := true;
  }

  /** One `pred`: collect its truthy text, then its emotions. */
  method CollectPrediction(pred: Json, t: Tally, texts: seq<Json>) returns (ok: bool, t': Tally, texts': seq<Json>)
    requires WellFormed(t)
    ensures ok <==> PredObs(pred).Some?
    ensures ok ==> WellFormed(t') && t' == AddAll(t, PredObs(pred).value.scores)
    ensures ok ==> texts' == texts + PredObs(pred).value.texts
  {
    t', texts' := t, texts;
    if !pred.JObj? {
      return false, t', texts';
    }
    var text := Get(pred.fields, "text", JNull);
    if Truthy(text) {
      texts' := texts' + [text];
    }
    var emos := Items(Get(pred.fields, "emotions", JArr([])));
    if emos.None? {
      return false, t', texts';
    }
    ok, t' := CollectEmotions(emos.value, t);
  }

  /** `for pred in gp.get("predictions", [])`. */
  method CollectPredictions(preds: seq<Json>, t: Tally, texts: seq<Json>) returns (ok: bool, t': Tally, texts': seq<Json>)
    requires WellFormed(t)
    ensures ok <==> AllObs(preds, PredObs).Some?
    ensures ok ==> WellFormed(t') && t' == AddAll(t, AllObs(preds, PredObs).value.scores)
    ensures ok ==> texts' == texts + AllObs(preds, PredObs).value.texts
  {
    t', texts' := t, texts;
    ghost var o := Observed([], []);
    var i := 0;
    while i < |preds|
      invariant 0 <= i <= |preds|
      invariant AllObs(preds[..i], PredObs) == Some(o)
      invariant t' == AddAll(t, o.scores) && texts' == texts + o.texts
    {
      var predOk, t'', textsNow := CollectPrediction(preds[i], t', texts');
      if !predOk {
        assert preds[..i + 1][..i] == preds[..i];
        AllObsPrefixFails(preds, PredObs, i + 1);
        return false, t'', textsNow;
      }
      ghost var x := PredObs(preds[i]).value;
      AllObsStep(preds, PredObs, i, o, x);
      AddAllAppend(t, o.scores, x.scores);
      o := Observed(o.scores + x.scores, o.texts + x.texts);
      t', texts' := t'', textsNow;
      i := i + 1;
    }
    assert preds[..i] == preds;
    ok := true;
  }

  /** `for gp in grouped_preds`, starting from an empty `all_emotions` and `transcripts`. */
  method CollectGroups(gs: seq<Json>) returns (ok: bool, t: Tally, texts: seq<Json>)
    ensures ok <==> AllObs(gs, GroupObs).Some?
    ensures ok ==> t == Group(AllObs(gs, GroupObs).value.scores)
    ensures ok ==> texts == AllObs(gs, GroupObs).value.texts
  {
    t, texts := NoScores, [];
    var i := 0;
    while i < |gs|
      invariant 0 <= i <= |gs|
      invariant AllObs(gs[..i], GroupObs).Some?
      invariant WellFormed(t) && t == Group(AllObs(gs[..i], GroupObs).value.scores)
      invariant texts == AllObs(gs[..i], GroupObs).value.texts
    {
      assert gs[..i + 1][..i] == gs[..i];
      var gp := gs[i];
      if !gp.JObj? {
        AllObsPrefixFails(gs, GroupObs, i + 1);
        return false, t, texts;
      }
      var preds := Items(Get(gp.fields, "predictions", JArr([])));
      if preds.None? {
        AllObsPrefixFails(gs, GroupObs, i + 1);
        return false, t, texts;
      }
      var predOk, t', texts' := CollectPredictions(preds.value, t, texts);
      if !predOk {
        AllObsPrefixFails(gs, GroupObs, i + 1);
        return false, t', texts';
      }
      AddAllAppend(NoScores, AllObs(gs[..i], GroupObs).value.scores, AllObs(preds.value, PredObs).value.scores);
      t, texts := t', texts';
      i := i + 1;
    }
    assert gs[..i] == gs;
    ok := true;
  }

  /** The prosody block over its grouped predictions: the audio part left behind, and whether it completed. */
  method AudioBranch(gs: seq<Json>) returns (audio: Modality, ok: bool)
    ensures (audio, ok) == AudioOf(gs)
  {
    audio := Empty;
    var collected, t, texts := CollectGroups(gs);
    if !collected {
      return audio, false;
    }
    audio := audio.(topEmotions := Some(TopThree(Means(t))));
    if texts != [] {
      var joined := Strings(texts);
      if joined.None? {
        return audio, false;
      }
      audio := audio.(transcript := Some(Text.Join(" ", joined.value)));
    }
    ok := true;
  }

  /** The face block over its grouped predictions: the video part, or `None` when it raises. */
  method VideoBranch(gs: seq<Json>) returns (video: Option<Modality>)
    ensures video == VideoOf(gs)
  {
    var collected, t, _ := CollectGroups(gs);
    if !collected {
      return None;
    }
    video := Some(Empty.(topEmotions := Some(TopThree(Means(t)))));
  }

  /** Everything after `models` is read: the prosody block, then the face block. */
  method SummarizeModels(models: Json) returns (s: Summary)
    ensures s == FromModels(models)
  {
    s := Summary(Empty, Empty, false);
    var prosody := Branch(models, "prosody");
    if prosody.None? {
      return s.(failed := true);
    }
    if prosody.value.Some? {
      var audio, ok := AudioBranch(prosody.value.value);
      s := s.(audio := audio);
      if !ok {
        return s.(failed := true);
      }
    }
    var face := Branch(models, "face");
    if face.None? {
      return s.(failed := true);
    }
    if face.value.Some? {
      var video := VideoBranch(face.value.value);
      if video.None? {
        return s.(failed := true);
      }
      s := s.(video := video.value);
    }
  }

  /** `summarize(results)`: fills `summary` branch by branch and records the first exception. */
  method Summarize(results: Json) returns (s: Summary)
    ensures s == SummaryOf(results)
  {
    s := Summary(Empty, Empty, false);
    var result := Selected(results);
    if result.None? {
      return s.(failed := true);
    }
    var predictions := PredictionsOf(result.value);
    if predictions.None? {
      return s.(failed := true);
    }
    if !Truthy(predictions.value) {
      return s;
    }
    var models := ModelsOf(predictions.value);
    if models.None? {
      return s.(failed := true);
    }
    s := SummarizeModels(models.value);
  }

  // ---------------------------------------------------------------------------------------------
  // Properties of `summarize`

  /** Input that is neither a list nor a dict, or an empty list, yields empty modalities and an error. */
  lemma UnexpectedShapeFails(results: Json)
    requires !results.JObj? && !(results.JArr? && results.items != [])
    ensures SummaryOf(results) == Summary(Empty, Empty, true)
  {
  }

  /** A list input is summarised by its first element alone. */
  lemma ListUsesFirstElement(first: Json, rest: seq<Json>)
    ensures SummaryOf(JArr([first] + rest)) == SummaryOf(JArr([first]))
    ensures first.JObj? ==> SummaryOf(JArr([first] + rest)) == SummaryOf(first)
  {
  }

  /** A dict with neither `results` nor `predictions` has no predictions: empty modalities, no error. */
  lemma NoPredictionsIsEmpty(fields: map<string, Json>)
    requires "results" !in fields && "predictions" !in fields
    ensures SummaryOf(JObj(fields)) == Summary(Empty, Empty, false)
  {
  }

  /** Empty predictions under `results` also give empty modalities and no error. */
  lemma EmptyNestedPredictionsIsEmpty(fields: map<string, Json>, inner: map<string, Json>)
    requires "results" in fields && fields["results"] == JObj(inner)
    requires "predictions" !in inner || !Truthy(inner["predictions"])
    ensures SummaryOf(JObj(fields)) == Summary(Empty, Empty, false)
  {
  }

  /** Only the first prediction's `models` is read. */
  lemma OnlyFirstPredictionRead(fields: map<string, Json>, first: Json, rest: seq<Json>)
    requires "results" !in fields
    ensures SummaryOf(JObj(fields["predictions" := JArr([first] + rest)]))
         == SummaryOf(JObj(fields["predictions" := JArr([first])]))
  {
    var m1 := fields["predictions" := JArr([first] + rest)];
    var m2 := fields["predictions" := JArr([first])];
    assert PredictionsOf(JObj(m1)) == Some(JArr([first] + rest));
    assert PredictionsOf(JObj(m2)) == Some(JArr([first]));
    assert ModelsOf(JArr([first] + rest)) == ModelsOf(JArr([first]));
  }

  /** A model key that is absent leaves that modality empty. */
  lemma AbsentModelIsEmpty(results: Json)
    requires Selected(results).Some? && PredictionsOf(Selected(results).value).Some?
    requires ModelsOf(PredictionsOf(Selected(results).value).value).Some?
    requires ModelsOf(PredictionsOf(Selected(results).value).value).value.JObj?
    ensures "prosody" !in ModelsOf(PredictionsOf(Selected(results).value).value).value.fields
            ==> SummaryOf(results).audio == Empty
    ensures "face" !in ModelsOf(PredictionsOf(Selected(results).value).value).value.fields
            ==> SummaryOf(results).video == Empty
  {
  }

  /**
   * A completed audio branch reports the top three averages; the transcript is present exactly
   * when some prediction had a truthy text, and then it is those texts joined by single spaces.
   */
  lemma AudioBranchReports(gs: seq<Json>, o: Observed, texts: seq<string>)
    requires AllObs(gs, GroupObs) == Some(o)
    requires Strings(o.texts) == Some(texts)
    ensures AudioOf(gs).1
    ensures AudioOf(gs).0.topEmotions == Some(Ranking(o.scores))
    ensures AudioOf(gs).0.transcript.Some? <==> o.texts != []
    ensures o.texts != [] ==> AudioOf(gs).0.transcript == Some(Text.Join(" ", texts))
    ensures forall t :: t in o.texts ==> Truthy(t)
  {
    CollectedTextsAreTruthy(gs);
  }
}

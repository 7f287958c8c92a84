/**
 * `getAIAnalysis`: the zero-shot classification call and the turning of its
 * `{labels, scores}` reply into an analysis. The network call itself is a
 * parameter (the reply it produced); everything after it is modelled.
 */
module Classifier {
  import opened Wrappers
  import opened Model

  const HighFactuality: string := "high factuality"
  const Political: string := "political"
  const Opinion: string := "opinion"

  const FailedText: string := "AI Failed"
  const FailedTooltip: string := "AI analysis could not be completed."

  /**
   * What the call produced. `NoReply`: the fetch was rejected or the body was not
   * JSON. `Reply`: the parsed body. Its `labels` or `scores` is `None` when that
   * property is `null` or `undefined`, where reading it throws; a `null` body is a
   * reply with neither. A non-null `labels` that is not an array has an `undefined`
   * length, so the loop does not run: it reads as `Some([])`. A number, a boolean or an
   * object without index keys as `scores` yields `undefined` at every index: it reads as
   * `Some([])` too. An object with index keys, or a string, is not modelled.
   */
  datatype AiReply =
    | NoReply
    | Reply(labels: Option<seq<string>>, scores: Option<seq<Score>>)

  /** The `scores` object the label loop fills in; a field never assigned stays `undefined`. */
  datatype LabelScores = LabelScores(factuality: Option<Score>, politicalness: Option<Score>, editorialBias: Option<Score>)

  /** The last index at which `wanted` occurs in `labels`. */
  function LastIndex(labels: seq<string>, wanted: string): (r: Option<nat>)
    ensures r.Some? ==> r.value < |labels| && labels[r.value] == wanted
    ensures r.Some? ==> forall j :: r.value < j < |labels| ==> labels[j] != wanted
    ensures r.None? <==> wanted !in labels
  {
    if |labels| == 0 then None
    else if labels[|labels| - 1] == wanted then Some(|labels| - 1)
    else
      var r := LastIndex(labels[..|labels| - 1], wanted);
      assert labels == labels[..|labels| - 1] + [labels[|labels| - 1]];
      r
  }

  /** `result.scores[i]`: the score at `i`, `undefined` past the end of the array. */
  function ScoreAt(scores: Option<seq<Score>>, i: nat): (r: Option<Score>)
    ensures r.Some? <==> scores.Some? && i < |scores.value|
    ensures r.Some? ==> r.value == scores.value[i]
  {
    if scores.Some? && i < |scores.value| then Some(scores.value[i]) else None
  }

  /** The value the loop leaves in the field for `wanted`: the score at its last occurrence. */
  function ScoreFor(labels: seq<string>, scores: Option<seq<Score>>, wanted: string): Option<Score> {
    match LastIndex(labels, wanted)
    case None => None
    case Some(k) => ScoreAt(scores, k)
  }

  /**
   * The loop over `result.labels`. It stops with an exception (`None`) when there
   * is a label to read but `result.scores` is `null` or `undefined`; otherwise each of the
   * three fields holds the score found at the last index of its label, and every
   * other label is skipped.
   */
  method ScanLabels(labels: seq<string>, scores: Option<seq<Score>>) returns (r: Option<LabelScores>)
    ensures r.None? <==> scores.None? && |labels| > 0
    ensures r.Some? ==> r.value == LabelScores(ScoreFor(labels, scores, HighFactuality),
                                               ScoreFor(labels, scores, Political),
                                               ScoreFor(labels, scores, Opinion))
  {
    var factuality, politicalness, editorialBias := None, None, None;
    var i := 0;
    while i < |labels|
      invariant 0 <= i <= |labels|
      invariant scores.None? ==> i == 0
      invariant factuality == ScoreFor(labels[..i], scores, HighFactuality)
      invariant politicalness == ScoreFor(labels[..i], scores, Political)
      invariant editorialBias == ScoreFor(labels[..i], scores, Opinion)
    {
      if scores.None? {
        return None;
      }
      var name := labels[i];
      var score := ScoreAt(scores, i);
      assert labels[..i + 1][..i] == labels[..i];
      if name == HighFactuality { factuality := score; }
      if name == Political { politicalness := score; }
      if name == Opinion { editorialBias := score; }
      i := i + 1;
    }
    assert labels[..i] == labels;
    return Some(LabelScores(factuality, politicalness, editorialBias));
  }

  /** The object returned from the `catch` block. */
  const AiFailed: Analysis :=
    Analysis(Some(0.0), Some(0.0), Some(0.0), Some(Plain(FailedText)), Some(Plain(FailedTooltip)), None)

  /**
   * Whether the call ends in the `catch` block: no reply, `labels` null or undefined,
   * or at least one label while `scores` is null or undefined.
   */
  predicate Fails(reply: AiReply) {
    || reply.NoReply?
    || reply.labels.None?
    || (reply.scores.None? && |reply.labels.value| > 0)
  }

  /** The analysis built from the loop's scores: the text and tooltip are renderings of them. */
  function Scored(s: LabelScores): (r: Analysis)
    ensures r.factuality == s.factuality && r.politicalness == s.politicalness && r.editorialBias == s.editorialBias
    ensures r.text == Some(PercentLabel(s.politicalness))
    ensures r.tooltip == Some(ScoreBreakdown(s.politicalness, s.factuality, s.editorialBias))
    ensures r.politicalLeaning.None?
  {
    Analysis(s.factuality, s.politicalness, s.editorialBias,
             Some(PercentLabel(s.politicalness)),
             Some(ScoreBreakdown(s.politicalness, s.factuality, s.editorialBias)),
             None)
  }

  /**
   * What `getAIAnalysis` returns for a reply. On failure: the fixed object whose text
   * is "AI Failed"; on success: the three scores of the label loop, and never that text.
   * It never has a `political_leaning`.
   */
  function AnalysisOf(reply: AiReply): (r: Analysis)
    ensures r.text == Some(Plain(FailedText)) <==> Fails(reply)
    ensures Fails(reply) ==> r == AiFailed
    ensures !Fails(reply) ==> r.factuality == ScoreFor(reply.labels.value, reply.scores, HighFactuality)
    ensures !Fails(reply) ==> r.politicalness == ScoreFor(reply.labels.value, reply.scores, Political)
    ensures !Fails(reply) ==> r.editorialBias == ScoreFor(reply.labels.value, reply.scores, Opinion)
    ensures !Fails(reply) ==> r.text == Some(PercentLabel(r.politicalness))
    ensures !Fails(reply) ==> r.tooltip == Some(ScoreBreakdown(r.politicalness, r.factuality, r.editorialBias))
    ensures r.politicalLeaning.None?
  {
    if Fails(reply) then AiFailed
    else
      var labels := reply.labels.value;
      Scored(LabelScores(ScoreFor(labels, reply.scores, HighFactuality),
                         ScoreFor(labels, reply.scores, Political),
                         ScoreFor(labels, reply.scores, Opinion)))
  }

  /** `getAIAnalysis(videoData)`, given the reply its request produced. */
  method GetAiAnalysis(reply: AiReply) returns (r: Analysis)
    ensures r == AnalysisOf(reply)
  {
    if reply.NoReply? || reply.labels.None? {
      return AiFailed;
    }
    var scores := ScanLabels(reply.labels.value, reply.scores);
    if scores.None? {
      return AiFailed;
    }
    return Scored(scores.value);
  }

  /** A label other than the three is ignored: appending it leaves every field as it was. */
  lemma OtherLabelsIgnored(labels: seq<string>, scores: Option<seq<Score>>, extra: string, wanted: string)
    requires extra != wanted
    ensures ScoreFor(labels + [extra], scores, wanted) == ScoreFor(labels, scores, wanted)
  {
  }

  /** A later occurrence of a label overrides an earlier one. */
  lemma LastOccurrenceWins(labels: seq<string>, scores: seq<Score>, wanted: string)
    requires |labels| <= |scores|
    ensures ScoreFor(labels + [wanted], Some(scores), wanted) == if |labels| < |scores| then Some(scores[|labels|]) else None
  {
  }
}

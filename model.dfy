/**
 * Values shared by the background service worker and the two page scripts:
 * the analysis object that travels between them and the video record the
 * page scripts extract.
 */
module Model {
  import opened Wrappers

  /** A confidence score as the inference endpoint returns it. Scores are only copied, never computed on. */
  type Score = real

  /**
   * A displayed string. Catalog entries and the fixed failure object carry plain
   * strings; the strings the classifier renders from its scores (a percentage
   * with `toFixed`) are kept as the scores they are rendered from.
   */
  datatype Text =
    | Plain(s: string)
      /** `${(politicalness * 100).toFixed(0)}% Pol` */
    | PercentLabel(politicalness: Option<Score>)
      /** the three-line "Political / Factuality / Opinion" tooltip */
    | ScoreBreakdown(political: Option<Score>, factuality: Option<Score>, opinion: Option<Score>)

  /**
   * The analysis object. Every field may be missing (`undefined` in the source):
   * a classifier result has no `political_leaning`, a channel-level result has
   * no scores, and a catalog entry has whatever its JSON document gives it.
   */
  datatype Analysis = Analysis(
    factuality: Option<Score>,
    politicalness: Option<Score>,
    editorialBias: Option<Score>,
    text: Option<Text>,
    tooltip: Option<Text>,
    politicalLeaning: Option<string>)

  /** What a page script sends to the background for one video: `{id, channel, title}`. */
  datatype VideoData = VideoData(id: string, channel: string, title: string)
}

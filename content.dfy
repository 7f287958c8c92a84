/**
 * The page script `content.js`: the indicator it puts beside each video's title,
 * the video record it reads from a video element, and the listener that paints
 * an analysis onto the matching elements. DOM elements are values; a page is the
 * sequence of its video elements.
 */
module Content {
  import opened Wrappers
  import opened Model
  import opened JsStrings

  /** The `a#video-title` link: its `href` attribute (`null` when absent) and its text content. */
  datatype TitleLink = TitleLink(href: Option<string>, text: string)

  /**
   * The indicator span: its text content, its `title`, its background colour (unset until
   * painted), and whether it carries the click listener. Only `createInitialIndicator`
   * attaches one; the span `updateIndicator` creates as a fallback has none.
   */
  datatype Indicator = Indicator(text: Option<Text>, title: Option<Text>, background: Option<string>, listening: bool)

  /**
   * A video element: its title link, the text of its channel-name link, and its
   * indicator. Being an `Option`, there is at most one indicator per element.
   */
  datatype VideoElement = VideoElement(titleLink: Option<TitleLink>, channelName: Option<string>, indicator: Option<Indicator>)

  const Magnifier: string := "\U{1F50D}"
  const Hourglass: string := "\U{23F3}"

  /** The indicator as first created: a magnifying glass, "Click to analyze", with the click listener. */
  const InitialIndicator: Indicator := Indicator(Some(Plain(Magnifier)), Some(Plain("Click to analyze")), None, true)

  // ---- parsing the href ----

  /** An occurrence of "v=" starts at `k`. */
  predicate MarkerAt(s: string, k: int) {
    0 <= k && k + 1 < |s| && s[k] == 'v' && s[k + 1] == '='
  }

  /** The first occurrence of "v=" at or after `from`. */
  function FindMarker(s: string, from: nat): (r: Option<nat>)
    ensures r.Some? ==> from <= r.value && MarkerAt(s, r.value)
    ensures r.Some? ==> forall k :: from <= k < r.value ==> !MarkerAt(s, k)
    ensures r.None? ==> forall k :: from <= k ==> !MarkerAt(s, k)
    decreases |s| - from
  {
    if from + 1 >= |s| then None
    else if MarkerAt(s, from) then Some(from)
    else FindMarker(s, from + 1)
  }

  /**
   * `href.split('v=')[1]` for an href containing "v=": the text from just after the
   * first "v=" up to the second (the search for it resumes after the first) or the end.
   */
  function SecondPiece(s: string, first: nat): (r: string)
    requires FindMarker(s, 0) == Some(first)
    ensures first + 2 + |r| <= |s| && r == s[first + 2..first + 2 + |r|]
    ensures first + 2 + |r| == |s| || MarkerAt(s, first + 2 + |r|)
    ensures forall k :: first + 2 <= k < first + 2 + |r| ==> !MarkerAt(s, k)
  {
    match FindMarker(s, first + 2)
    case Some(second) => s[first + 2..second]
    case None => s[first + 2..]
  }

  /** The video id `getVideoData` extracts from an href; `None` when the href is absent or has no "v=". */
  function ExtractVideoId(href: Option<string>): (r: Option<string>)
    ensures r.None? <==> href.None? || forall k :: !MarkerAt(href.value, k)
    ensures r.Some? ==> '&' !in r.value && |r.value| + 2 <= |href.value|
  {
    if href.None? then None
    else match FindMarker(href.value, 0)
    case None => None
    case Some(first) => Some(TakeUntil(SecondPiece(href.value, first), '&'))
  }

  /** A slice of `s` over which `s` has no "v=" has none itself. */
  lemma NoMarkerInSlice(s: string, start: nat, t: string)
    requires start + |t| <= |s| && t == s[start..start + |t|]
    requires forall k :: start <= k < start + |t| ==> !MarkerAt(s, k)
    ensures forall k :: !MarkerAt(t, k)
  {
    forall k ensures !MarkerAt(t, k) {
      if 0 <= k && k + 1 < |t| {
        assert t[k] == s[start + k] && t[k + 1] == s[start + k + 1];
        assert !MarkerAt(s, start + k);
      }
    }
  }

  /**
   * What the extracted id is: `None` exactly when the href is absent or holds no "v=";
   * otherwise the text right after the first "v=", containing neither "&" nor "v=", and
   * followed in the href by "&", by another "v=", or by the end.
   */
  lemma {:induction false} ExtractVideoIdSpec(href: Option<string>)
    ensures ExtractVideoId(href).None? <==> href.None? || forall k :: !MarkerAt(href.value, k)
    ensures ExtractVideoId(href).Some? ==>
              var s, id := href.value, ExtractVideoId(href).value;
              var first := FindMarker(s, 0).value;
              && MarkerAt(s, first) && (forall k :: 0 <= k < first ==> !MarkerAt(s, k))
              && first + 2 + |id| <= |s| && s[first + 2..first + 2 + |id|] == id
              && '&' !in id
              && (forall k :: !MarkerAt(id, k))
              && (first + 2 + |id| == |s| || s[first + 2 + |id|] == '&' || MarkerAt(s, first + 2 + |id|))
  {
    if href.Some? {
      var s := href.value;
      match FindMarker(s, 0)
      case None =>
      case Some(first) =>
        var piece := SecondPiece(s, first);
        var id := TakeUntil(piece, '&');
        assert s[first + 2..first + 2 + |id|] == id by {
          assert piece[..|id|] == s[first + 2..first + 2 + |id|];
        }
        NoMarkerInSlice(s, first + 2, id);
        if |id| < |piece| {
          assert s[first + 2 + |id|] == piece[|id|];
        }
    }
  }

  // ---- getVideoData ----

  /**
   * `getVideoData(videoElement)`: a record exactly when both links are there, an id is
   * extracted and is non-empty, and the trimmed channel name and title are non-empty;
   * the record carries that id and the trimmed texts.
   */
  function GetVideoData(e: VideoElement): (r: Option<VideoData>)
    ensures r.Some? <==>
              && e.titleLink.Some? && e.channelName.Some?
              && ExtractVideoId(e.titleLink.value.href).Some? && ExtractVideoId(e.titleLink.value.href).value != []
              && !AllWhitespace(e.channelName.value) && !AllWhitespace(e.titleLink.value.text)
    ensures r.Some? ==> r.value == VideoData(ExtractVideoId(e.titleLink.value.href).value,
                                             Trim(e.channelName.value), Trim(e.titleLink.value.text))
  {
    if e.titleLink.None? || e.channelName.None? then None
    else
      var videoId := ExtractVideoId(e.titleLink.value.href);
      var channelName := Trim(e.channelName.value);
      var videoTitle := Trim(e.titleLink.value.text);
      if videoId.Some? && videoId.value != [] && channelName != [] && videoTitle != [] then
        Some(VideoData(videoId.value, channelName, videoTitle))
      else None
  }

  /** A returned record has a non-empty id free of "&" and "v=", and a channel and title without surrounding whitespace. */
  lemma GetVideoDataWellFormed(e: VideoElement)
    requires GetVideoData(e).Some?
    ensures var d := GetVideoData(e).value;
            && d.id != [] && '&' !in d.id && (forall k :: !MarkerAt(d.id, k))
            && d.channel != [] && Trim(d.channel) == d.channel
            && d.title != [] && Trim(d.title) == d.title
  {
    ExtractVideoIdSpec(e.titleLink.value.href);
    TrimIdempotent(e.channelName.value);
    TrimIdempotent(e.titleLink.value.text);
  }

  // ---- colour ----

  const Blue: string := "#3498db"
  const Red: string := "#e74c3c"
  const Green: string := "#2ecc71"
  const Grey: string := "#bdc3c7"

  /** `getIndicatorColor(leaning)`: a colour for every leaning, `undefined` included; grey for all but the three known ones. */
  function IndicatorColor(leaning: Option<string>): (r: string)
    ensures leaning == Some("Left") ==> r == Blue
    ensures leaning == Some("Right") ==> r == Red
    ensures leaning == Some("Non-Political") ==> r == Green
    ensures r == Grey <==> leaning !in {Some("Left"), Some("Right"), Some("Non-Political")}
  {
    if leaning == Some("Left") then Blue
    else if leaning == Some("Right") then Red
    else if leaning == Some("Non-Political") then Green
    else Grey
  }

  // ---- indicator updates ----

  /**
   * `createInitialIndicator(videoElement)`: an element that already has an indicator
   * is left as it is; otherwise it gets the initial indicator when it has a title link
   * to insert it after, and stays without one when it has not.
   */
  function CreateInitialIndicator(e: VideoElement): (r: VideoElement)
    ensures e.indicator.Some? ==> r == e
    ensures e.indicator.None? ==> r.indicator == if e.titleLink.Some? then Some(InitialIndicator) else None
    ensures r.titleLink == e.titleLink && r.channelName == e.channelName
  {
    if e.indicator.Some? then e
    else if e.titleLink.Some? then e.(indicator := Some(InitialIndicator))
    else e
  }

  /** Creating the indicator twice is creating it once. */
  lemma CreateInitialIndicatorIdempotent(e: VideoElement)
    ensures CreateInitialIndicator(CreateInitialIndicator(e)) == CreateInitialIndicator(e)
  {
  }

  /**
   * `updateIndicator(videoElement, analysis)`: the indicator (created first when missing
   * and there is a title link) shows the analysis text and tooltip on the colour of its
   * leaning; an element with neither indicator nor title link is left as it is. An
   * existing indicator keeps its listener; a newly created one has none.
   */
  function UpdateIndicator(e: VideoElement, analysis: Analysis): (r: VideoElement)
    ensures e.indicator.None? && e.titleLink.None? ==> r == e
    ensures e.indicator.Some? || e.titleLink.Some? ==>
              && r.indicator.Some?
              && r.indicator.value.text == analysis.text && r.indicator.value.title == analysis.tooltip
              && r.indicator.value.background == Some(IndicatorColor(analysis.politicalLeaning))
    ensures e.indicator.Some? ==> r.indicator.value.listening == e.indicator.value.listening
    ensures e.indicator.None? && e.titleLink.Some? ==> !r.indicator.value.listening
    ensures r.titleLink == e.titleLink && r.channelName == e.channelName
  {
    if e.indicator.None? && e.titleLink.None? then e
    else
      var listening := e.indicator.Some? && e.indicator.value.listening;
      e.(indicator := Some(Indicator(analysis.text, analysis.tooltip, Some(IndicatorColor(analysis.politicalLeaning)), listening)))
  }

  /** Whether the `analysis_result` listener updates `e` for `videoId`. */
  predicate Matches(e: VideoElement, videoId: string) {
    GetVideoData(e).Some? && GetVideoData(e).value.id == videoId
  }

  /** What the `analysis_result` listener does to one element. */
  function ApplyResult(e: VideoElement, videoId: string, analysis: Analysis): (r: VideoElement)
    ensures Matches(e, videoId) ==> r == UpdateIndicator(e, analysis)
    ensures !Matches(e, videoId) ==> r == e
  {
    if Matches(e, videoId) then UpdateIndicator(e, analysis) else e
  }

  /**
   * Painting changes only the indicator, so the element still matches the same id and
   * painting it again with the same analysis changes nothing more.
   */
  lemma ApplyResultIdempotent(e: VideoElement, videoId: string, analysis: Analysis)
    ensures GetVideoData(ApplyResult(e, videoId, analysis)) == GetVideoData(e)
    ensures ApplyResult(ApplyResult(e, videoId, analysis), videoId, analysis) == ApplyResult(e, videoId, analysis)
  {
  }

  /**
   * A click on the element's indicator. An indicator without the listener ignores it.
   * With the listener: when the element yields a record, that record is sent and the
   * indicator turns into an hourglass; otherwise nothing happens.
   */
  function Click(e: VideoElement): (r: (VideoElement, Option<VideoData>))
    requires e.indicator.Some?
    ensures !e.indicator.value.listening ==> r == (e, None)
    ensures e.indicator.value.listening ==> r.1 == GetVideoData(e)
    ensures r.1.None? ==> r.0 == e
    ensures r.1.Some? ==> r.0 == e.(indicator := Some(e.indicator.value.(text := Some(Plain(Hourglass)))))
  {
    var videoData := GetVideoData(e);
    if e.indicator.value.listening && videoData.Some? then
      (e.(indicator := Some(e.indicator.value.(text := Some(Plain(Hourglass))))), videoData)
    else (e, None)
  }

  /**
   * The listener survives painting: an element given the initial indicator and then an
   * analysis still sends its record when clicked, while the fallback indicator that
   * painting creates on an element without one never sends anything.
   */
  lemma PaintedIndicatorListensIffInitial(e: VideoElement, analysis: Analysis)
    requires e.indicator.None? && e.titleLink.Some?
    ensures Click(UpdateIndicator(CreateInitialIndicator(e), analysis)).1 == GetVideoData(e)
    ensures Click(UpdateIndicator(e, analysis)) == (UpdateIndicator(e, analysis), None)
  {
    ApplyResultIdempotent(CreateInitialIndicator(e), [], analysis);
  }

  /** The video elements of the page, which the script updates in place. */
  class VideoPage {
    var elements: seq<VideoElement>

    constructor (elements: seq<VideoElement>)
      ensures this.elements == elements
    {
      this.elements := elements;
    }

    /** `processVideos()`: `createInitialIndicator` on every element, in order. */
    method ProcessVideos()
      modifies this
      ensures |elements| == |old(elements)|
      ensures forall i :: 0 <= i < |elements| ==> elements[i] == CreateInitialIndicator(old(elements)[i])
    {
      var i := 0;
      while i < |elements|
        invariant |elements| == |old(elements)| && 0 <= i <= |elements|
        invariant forall j :: 0 <= j < i ==> elements[j] == CreateInitialIndicator(old(elements)[j])
        invariant forall j :: i <= j < |elements| ==> elements[j] == old(elements)[j]
      {
        elements := elements[i := CreateInitialIndicator(elements[i])];
        i := i + 1;
      }
    }

    /**
     * The `analysis_result` listener: every element whose extracted id equals `videoId`
     * is painted with `analysis`; every other element is untouched.
     */
    method OnAnalysisResult(videoId: string, analysis: Analysis)
      modifies this
      ensures |elements| == |old(elements)|
      ensures forall i :: 0 <= i < |elements| ==> elements[i] == ApplyResult(old(elements)[i], videoId, analysis)
    {
      var i := 0;
      while i < |elements|
        invariant |elements| == |old(elements)| && 0 <= i <= |elements|
        invariant forall j :: 0 <= j < i ==> elements[j] == ApplyResult(old(elements)[j], videoId, analysis)
        invariant forall j :: i <= j < |elements| ==> elements[j] == old(elements)[j]
      {
        elements := elements[i := ApplyResult(elements[i], videoId, analysis)];
        i := i + 1;
      }
    }

    /** A click on the indicator of element `k`: returns the record sent, if any. */
    method ClickIndicator(k: nat) returns (sent: Option<VideoData>)
      requires k < |elements| && elements[k].indicator.Some?
      modifies this
      ensures old(elements)[k].indicator.value.listening ==> sent == GetVideoData(old(elements)[k])
      ensures !old(elements)[k].indicator.value.listening ==> sent.None? && elements == old(elements)
      ensures elements == old(elements)[k := Click(old(elements)[k]).0]
    {
      var e := elements[k];
      if !e.indicator.value.listening {
        return None;
      }
      sent := GetVideoData(e);
      if sent.Some? {
        elements := elements[k := e.(indicator := Some(e.indicator.value.(text := Some(Plain(Hourglass)))))];
      }
    }
  }
}

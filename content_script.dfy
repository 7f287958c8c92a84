/**
 * The page script `content_script.js`: for each video card it reads the id with
 * the regular expression `/v=([^&]+)/`, asks the background for an analysis when
 * there is an id and a channel name, and injects a label from the answer.
 */
module ContentScript {
  import opened Wrappers
  import opened Model
  import opened JsStrings

  /**
   * A video card: the `href` of its `a#video-title` (always a string when the link
   * exists), the text content of its `#video-title`, whether that title element has a
   * parent, the text of its channel-name link, and the label injected so far.
   */
  datatype VideoCard = VideoCard(
    titleHref: Option<string>,
    titleText: Option<string>,
    titleHasParent: bool,
    channelName: Option<string>,
    injected: Option<Label>)

  /** An injected label; its text and colour are renderings of the politicalness score. */
  datatype Label = Label(politicalness: Option<Score>, tooltip: Option<Text>)

  /** The `videoData` sent for the card at index `card`. */
  datatype AnalyzeRequest = AnalyzeRequest(id: string, channel: string, title: Option<string>, card: nat)

  // ---- the regular expression ----

  /** The pattern `v=[^&]` matches at `k`. */
  predicate MatchAt(s: string, k: int) {
    0 <= k && k + 2 < |s| && s[k] == 'v' && s[k + 1] == '=' && s[k + 2] != '&'
  }

  /** The leftmost position at or after `from` where the pattern can start. */
  function FindMatch(s: string, from: nat): (r: Option<nat>)
    ensures r.Some? ==> from <= r.value && MatchAt(s, r.value)
    ensures r.Some? ==> forall k :: from <= k < r.value ==> !MatchAt(s, k)
    ensures r.None? ==> forall k :: from <= k ==> !MatchAt(s, k)
    decreases |s| - from
  {
    if from + 2 >= |s| then None
    else if MatchAt(s, from) then Some(from)
    else FindMatch(s, from + 1)
  }

  /**
   * `href.match(/v=([^&]+)/)?.[1]`: the group of the leftmost match. The search moves
   * on past a "v=" followed by "&" or by the end; the group is greedy, so it runs
   * to the next "&" or the end.
   */
  function MatchVideoId(href: string): (r: Option<string>)
    ensures r.None? <==> forall k :: !MatchAt(href, k)
    ensures r.Some? ==> r.value != [] && '&' !in r.value
    ensures r.Some? ==>
              var k := FindMatch(href, 0).value;
              && MatchAt(href, k) && (forall j :: 0 <= j < k ==> !MatchAt(href, j))
              && k + 2 + |r.value| <= |href| && href[k + 2..k + 2 + |r.value|] == r.value
              && (k + 2 + |r.value| == |href| || href[k + 2 + |r.value|] == '&')
  {
    match FindMatch(href, 0)
    case None => None
    case Some(k) =>
      var group := TakeUntil(href[k + 2..], '&');
      assert group != [] by { assert href[k + 2..][0] == href[k + 2]; }
      assert href[k + 2..][..|group|] == href[k + 2..k + 2 + |group|];
      assert k + 2 + |group| < |href| ==> href[k + 2..][|group|] == href[k + 2 + |group|];
      Some(group)
  }

  // ---- processPage ----

  /**
   * The request `processPage` sends for the card at index `k`: none without a
   * channel-name link; otherwise one exactly when the regular expression yields an id
   * and the trimmed channel name is non-empty.
   */
  function RequestFor(c: VideoCard, k: nat): (r: Option<AnalyzeRequest>)
    ensures r.Some? <==>
              && c.channelName.Some? && !AllWhitespace(c.channelName.value)
              && c.titleHref.Some? && MatchVideoId(c.titleHref.value).Some?
    ensures r.Some? ==> r.value.card == k && r.value.id == MatchVideoId(c.titleHref.value).value
    ensures r.Some? ==> r.value.channel == Trim(c.channelName.value)
    ensures r.Some? ==> r.value.title == if c.titleText.Some? then Some(Trim(c.titleText.value)) else None
  {
    if c.channelName.None? then None
    else
      var channelName := Trim(c.channelName.value);
      var id := if c.titleHref.Some? then MatchVideoId(c.titleHref.value) else None;
      var title := if c.titleText.Some? then Some(Trim(c.titleText.value)) else None;
      if id.Some? && id.value != [] && channelName != [] then Some(AnalyzeRequest(id.value, channelName, title, k))
      else None
  }

  /** The request each card would give rise to, card by card. */
  function Candidates(cards: seq<VideoCard>): (r: seq<Option<AnalyzeRequest>>)
    ensures |r| == |cards|
    ensures forall k :: 0 <= k < |r| ==> r[k] == RequestFor(cards[k], k)
  {
    seq(|cards|, k requires 0 <= k < |cards| => RequestFor(cards[k], k))
  }

  /** The requests actually sent: the candidates that exist, in card order. */
  function Sent(candidates: seq<Option<AnalyzeRequest>>): (r: seq<AnalyzeRequest>)
    ensures |r| <= |candidates|
    ensures forall x :: x in r ==> Some(x) in candidates
  {
    if candidates == [] then []
    else
      var last := candidates[|candidates| - 1];
      Sent(candidates[..|candidates| - 1]) + if last.Some? then [last.value] else []
  }

  /** Each candidate is tagged with the index of its card. */
  ghost predicate TaggedByCard(candidates: seq<Option<AnalyzeRequest>>) {
    forall k :: 0 <= k < |candidates| && candidates[k].Some? ==> candidates[k].value.card == k
  }

  /** Every request sent is the candidate of the card it names. */
  lemma {:induction false} SentSound(candidates: seq<Option<AnalyzeRequest>>)
    requires TaggedByCard(candidates)
    ensures forall r :: r in Sent(candidates) ==> r.card < |candidates| && candidates[r.card] == Some(r)
  {
    if candidates != [] {
      SentSound(candidates[..|candidates| - 1]);
    }
  }

  /** Every candidate that exists is sent. */
  lemma {:induction false} SentComplete(candidates: seq<Option<AnalyzeRequest>>)
    ensures forall k :: 0 <= k < |candidates| && candidates[k].Some? ==> candidates[k].value in Sent(candidates)
  {
    if candidates != [] {
      var prefix := candidates[..|candidates| - 1];
      SentComplete(prefix);
      assert forall k :: 0 <= k < |prefix| ==> prefix[k] == candidates[k];
    }
  }

  /** Requests go out in card order, so no card is asked about twice. */
  lemma {:induction false} SentOrdered(candidates: seq<Option<AnalyzeRequest>>)
    requires TaggedByCard(candidates)
    ensures forall i, j :: 0 <= i < j < |Sent(candidates)| ==> Sent(candidates)[i].card < Sent(candidates)[j].card
  {
    if candidates != [] {
      var prefix := candidates[..|candidates| - 1];
      SentOrdered(prefix);
      SentSound(prefix);
      assert forall i :: 0 <= i < |Sent(prefix)| ==> Sent(prefix)[i] in Sent(prefix);
    }
  }

  /**
   * What `processPage` sends for a page of cards: exactly the requests of the cards
   * that qualify, one per such card, in card order, each with a non-empty id free of
   * "&" and a non-empty, trimmed channel name.
   */
  lemma PageRequests(cards: seq<VideoCard>)
    ensures var sent := Sent(Candidates(cards));
            && (forall r :: r in sent ==> r.card < |cards| && RequestFor(cards[r.card], r.card) == Some(r))
            && (forall r :: r in sent ==> r.id != [] && '&' !in r.id && r.channel != [] && Trim(r.channel) == r.channel)
            && (forall k :: 0 <= k < |cards| && RequestFor(cards[k], k).Some? ==> RequestFor(cards[k], k).value in sent)
            && (forall i, j :: 0 <= i < j < |sent| ==> sent[i].card < sent[j].card)
  {
    var candidates := Candidates(cards);
    SentSound(candidates);
    SentComplete(candidates);
    SentOrdered(candidates);
    forall r | r in Sent(candidates) ensures Trim(r.channel) == r.channel {
      TrimIdempotent(cards[r.card].channelName.value);
    }
  }

  // ---- injectLabel ----

  /**
   * `injectLabel(video, analysis)`: nothing without a title element or when a label is
   * already there; otherwise a label from the analysis, attached when the title has a
   * parent to append it to.
   */
  function WithLabel(c: VideoCard, analysis: Analysis): (r: VideoCard)
    ensures c.injected.Some? ==> r == c
    ensures r.injected.Some? <==> c.injected.Some? || (c.titleText.Some? && c.titleHasParent)
    ensures c.injected.None? && r.injected.Some? ==> r.injected == Some(Label(analysis.politicalness, analysis.tooltip))
    ensures r.(injected := c.injected) == c
  {
    if c.titleText.None? || c.injected.Some? then c
    else if c.titleHasParent then c.(injected := Some(Label(analysis.politicalness, analysis.tooltip)))
    else c
  }

  /** Injection is idempotent per card: the first label stays, whatever a later answer says. */
  lemma InjectionKeepsFirstLabel(c: VideoCard, first: Analysis, later: Analysis)
    ensures WithLabel(WithLabel(c, first), later) == WithLabel(c, first)
  {
  }

  /** The cards of the page; injecting a label updates one in place. */
  class ScriptPage {
    var cards: seq<VideoCard>

    constructor (cards: seq<VideoCard>)
      ensures this.cards == cards
    {
      this.cards := cards;
    }

    /** `processPage()`: the requests sent, one per qualifying card, in card order. */
    method ProcessPage() returns (sent: seq<AnalyzeRequest>)
      ensures sent == Sent(Candidates(cards))
    {
      sent := [];
      var i := 0;
      while i < |cards|
        invariant 0 <= i <= |cards|
        invariant sent == Sent(Candidates(cards)[..i])
      {
        var request := RequestFor(cards[i], i);
        assert Candidates(cards)[..i + 1][..i] == Candidates(cards)[..i];
        if request.Some? {
          sent := sent + [request.value];
        }
        i := i + 1;
      }
      assert Candidates(cards)[..i] == Candidates(cards);
    }

    /** The reply callback for card `k`: a label is injected when the response carries an analysis. */
    method OnResponse(k: nat, response: Option<Analysis>)
      requires k < |cards|
      modifies this
      ensures cards == if response.Some? then old(cards)[k := WithLabel(old(cards)[k], response.value)] else old(cards)
    {
      if response.Some? {
        var c := cards[k];
        if c.titleText.Some? && c.injected.None? && c.titleHasParent {
          cards := cards[k := c.(injected := Some(Label(response.value.politicalness, response.value.tooltip)))];
        }
      }
    }
  }
}

/** How `TrackFactory.getVideoData` turns the extraction tool's JSON answer
    into the metadata of one track (src/music/Track.ts). The call to the tool
    itself is not modelled: its outcome is an input. */
module Track {
  import opened Wrappers

  /** The part of the tool's JSON answer that is read: an optional list of
      search entries (each an answer of the same shape) and the optional
      `webpage_url`, `url` and `title` fields. */
  datatype Info = Info(
    entries: Option<seq<Info>>,
    webpageUrl: Option<string>,
    url: Option<string>,
    title: Option<string>)

  /** The metadata handed to the play command. `title` is whatever the
      chosen item carried, possibly undefined; `streamUrl` is never filled in. */
  datatype TrackData = TrackData(url: string, title: Option<string>, streamUrl: Option<string>)

  /** The item the answer describes: the first search entry when there are
      some, nothing when the search came back empty, and the answer itself
      when it is not a search. */
  function ChosenItem(output: Info): (r: Option<Info>)
    ensures output.entries.Some? && |output.entries.value| > 0 ==> r == Some(output.entries.value[0])
    ensures output.entries.Some? && |output.entries.value| == 0 ==> r == None
    ensures output.entries.None? ==> r == Some(output)
  {
    match output.entries
    case Some(es) => if |es| > 0 then Some(es[0]) else None
    case None => Some(output)
  }

  /** The value of `webpage_url || url`: the page URL when it is truthy,
      otherwise whatever `url` holds (possibly undefined or empty). */
  function UrlField(item: Info): (r: Option<string>)
    ensures Truthy(r) <==> Truthy(item.webpageUrl) || Truthy(item.url)
    ensures Truthy(item.webpageUrl) ==> r == item.webpageUrl
    ensures !Truthy(item.webpageUrl) ==> r == item.url
  {
    if Truthy(item.webpageUrl) then item.webpageUrl else item.url
  }

  /** The track metadata of an answer, or None when there is nothing to play. */
  function SelectVideoData(output: Info): (r: Option<TrackData>)
    ensures output.entries == Some([]) ==> r == None
    ensures r.Some? <==> ChosenItem(output).Some? && Truthy(UrlField(ChosenItem(output).value))
    ensures r.Some? ==> r.value.url != ""
    ensures r.Some? ==> r.value.title == ChosenItem(output).value.title
    ensures r.Some? ==> r.value.streamUrl == None
    ensures r.Some? ==> Some(r.value.url) == UrlField(ChosenItem(output).value)
  {
    match ChosenItem(output)
    case None => None
    case Some(item) =>
      var url := UrlField(item);
      if !Truthy(url) then None
      else Some(TrackData(url.value, item.title, None))
  }

  /** `getVideoData` on the outcome of the tool call: a throw is passed on
      unchanged, an answer goes through `SelectVideoData`. */
  function GetVideoData(call: Result<Info, string>): (r: Result<Option<TrackData>, string>)
    ensures call.Failure? <==> r.Failure?
    ensures call.Failure? ==> r.error == call.error
    ensures call.Success? ==> r.value == SelectVideoData(call.value)
  {
    match call
    case Failure(e) => Failure(e)
    case Success(output) => Success(SelectVideoData(output))
  }

  /** How the title appears inside a template literal: an undefined title
      is printed as the text "undefined". */
  function TitleText(title: Option<string>): (r: string)
    ensures title.Some? ==> r == title.value
    ensures title.None? ==> r == "undefined"
  {
    match title
    case Some(t) => t
    case None => "undefined"
  }

  /** A single (non-search) answer whose only fields are those of `d`. */
  function AnswerOf(d: TrackData): Info
  {
    Info(None, Some(d.url), None, d.title)
  }

  // ----- Properties of the selection -----

  /** With a non-empty list of entries, only the first entry matters: the
      top-level fields and the later entries are ignored. */
  lemma FirstEntryDecides(output: Info, other: Info)
    requires output.entries.Some? && |output.entries.value| > 0
    requires other.entries.Some? && |other.entries.value| > 0
    requires output.entries.value[0] == other.entries.value[0]
    ensures SelectVideoData(output) == SelectVideoData(other)
    ensures SelectVideoData(output) == SelectVideoData(output.entries.value[0].(entries := None))
  {
  }

  /** Without an `entries` field the answer is itself the item. */
  lemma PlainAnswerIsItem(output: Info)
    requires output.entries.None?
    ensures SelectVideoData(output).Some? <==> Truthy(output.webpageUrl) || Truthy(output.url)
    ensures Truthy(output.webpageUrl) ==> SelectVideoData(output) == Some(TrackData(output.webpageUrl.value, output.title, None))
    ensures !Truthy(output.webpageUrl) && Truthy(output.url) ==> SelectVideoData(output) == Some(TrackData(output.url.value, output.title, None))
  {
  }

  /** Round trip: metadata with a non-empty URL and no stream URL is
      recovered from a plain answer carrying it, and from a search whose
      first entry carries it. */
  lemma SelectAnswerOf(d: TrackData, rest: seq<Info>, top: Info)
    requires d.url != "" && d.streamUrl == None
    ensures SelectVideoData(AnswerOf(d)) == Some(d)
    ensures SelectVideoData(top.(entries := Some([AnswerOf(d)] + rest))) == Some(d)
  {
  }
}

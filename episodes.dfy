/** Episode records as the data endpoint supplies them, and the outcome of
    loading them. */
module Episodes {

  import opened Wrappers

  /** One `[platform, url]` pair of a record's `links` object, in the order
      `Object.entries` yields it; `url` is `None` for `null`/`undefined`.
      A sequence of them may repeat a platform, which a parsed object
      cannot; nothing here relies on distinct platforms. */
  datatype LinkEntry = LinkEntry(platform: string, url: Option<string>)

  /** One episode record; missing optional fields are `None`. */
  datatype Episode = Episode(
    episode: int,
    title: string,
    description: Option<string>,
    icon: Option<string>,
    links: Option<seq<LinkEntry>>)

  /** The parsed body of the response: `data.episodes`, if present. */
  datatype Body = Malformed | Json(episodes: Option<seq<Episode>>)

  /** What loading the episode document can end in. */
  datatype FetchOutcome = NetworkFailure | Response(status: int, body: Body)

  /** `response.ok` */
  predicate IsOk(status: int) {
    200 <= status <= 299
  }

  /** The effect of `fetchEpisodes`: every failure (network, non-success
      status, undecodable body, missing `episodes`) degrades to the empty
      list; a successful load yields the document's list unchanged. */
  function FetchedEpisodes(o: FetchOutcome): (r: seq<Episode>)
    ensures r != [] ==> o.Response? && IsOk(o.status) && o.body == Json(Some(r))
    ensures o.Response? && IsOk(o.status) && o.body.Json? && o.body.episodes.Some? ==> r == o.body.episodes.value
  {
    match o
    case NetworkFailure => []
    case Response(status, body) =>
      if !IsOk(status) then []
      else match body
        case Malformed => []
        case Json(None) => []
        case Json(Some(es)) => es
  }
}

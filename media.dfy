/** Tracks, queue items and the media extractor, seen from the playback scheduler.
    The extractor itself is a foreign library; here it is an oracle: a total
    function from a query (a search string or a URL) to the information it
    returns, or None when it returns nothing. */
module Media {

  datatype Option<+T> = None | Some(value: T)

  /** A video id as the extractor reports it. */
  type VideoId = string

  /** Identity of one chat group (one voice session). */
  type GuildId = int

  /** A resolved, playable item: the fields the player reads from the extractor's answer. */
  datatype Track = Track(
    id: VideoId,
    title: string,
    url: string,
    thumbnail: Option<string>,
    uploader: Option<string>)

  /** What the extractor answers for one query: a single video, with the ids of
      the videos it lists as related, or a list of entries (a search result or a playlist). */
  datatype Info =
    | Video(track: Track, related: seq<VideoId>)
    | Entries(entries: seq<Track>)

  /** The extractor, as an oracle: the answer it gives to each query. */
  type Extractor = string -> Option<Info>

  /** Outcome of turning a query into a track. */
  datatype Resolution =
    | Found(track: Track)
    | NotFound               // the extractor answered nothing
    | Failed(reason: string) // resolution raised an exception

  /** A pending playback request: already resolved, or a raw query still to resolve. */
  datatype QueueItem = Ready(track: Track) | Request(query: string)

  /** The watch page of a video, the query used to look a video up by id. */
  function WatchUrl(id: VideoId): string {
    "https://www.youtube.com/watch?v=" + id
  }

  /** Building a playable source from the extractor's answer: nothing gives no
      track, a list gives its first entry (an empty list fails on the index),
      and a single video gives itself. */
  function CreateSource(data: Option<Info>): (r: Resolution)
    ensures r.Found? <==> data.Some? && (data.value.Video? || data.value.entries != [])
    ensures r.Failed? <==> data == Some(Entries([]))
    ensures r.Found? && data.value.Entries? ==> r.track == data.value.entries[0]
    ensures r.Found? && data.value.Video? ==> r.track == data.value.track
  {
    match data
    case None => NotFound
    case Some(Video(t, _)) => Found(t)
    case Some(Entries(es)) => if es == [] then Failed("list index out of range") else Found(es[0])
  }

  /** Resolution of a queue item: a resolved item is used as it is, a raw query
      goes through CreateSource. */
  function Resolve(item: QueueItem, extract: Extractor): Resolution {
    match item
    case Ready(t) => Found(t)
    case Request(q) => CreateSource(extract(q))
  }

  /** The track an answer describes when it is read as a single video. */
  function TrackOf(data: Option<Info>): Option<Track> {
    match data
    case Some(Video(t, _)) => Some(t)
    case _ => None
  }
}

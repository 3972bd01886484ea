/** Autoplay candidate selection: given the play history and the extractor's
    answers, the next track to queue when the queue has drained, or None.
    The random pick among the surviving candidates is the parameter `choice`:
    every candidate is picked for some choice, and nothing else ever is. */
module Autoplay {
  import opened Media

  /** The generic search used when no related video survives the filter. */
  const FallbackQuery: string := "ytsearch:popular music"

  /** The items of xs whose id is not in the history, in their original order. */
  function Unplayed<T(!new)>(xs: seq<T>, key: T -> VideoId, history: seq<VideoId>): (r: seq<T>)
    ensures forall x :: x in r <==> x in xs && key(x) !in history
    ensures r == [] <==> forall x :: x in xs ==> key(x) in history
    ensures |r| <= |xs|
  {
    if xs == [] then []
    else
      var rest := Unplayed(xs[1..], key, history);
      assert forall x :: x in xs <==> x == xs[0] || x in xs[1..];
      if key(xs[0]) in history then rest else [xs[0]] + rest
  }

  /** The id of a related video, which the extractor lists by id. */
  function RelatedId(id: VideoId): VideoId { id }

  /** The id of a search entry. */
  function EntryId(t: Track): VideoId { t.id }

  /** A pick among the candidates, decided by `choice` (the random source). */
  function Choose<T>(xs: seq<T>, choice: nat): (r: T)
    requires xs != []
    ensures r in xs
  {
    xs[choice % |xs|]
  }

  /** Every candidate is the pick of some choice. */
  lemma EveryCandidateCanBeChosen<T>(xs: seq<T>, x: T)
    requires x in xs
    ensures exists choice: nat :: Choose(xs, choice) == x
  {
    var i :| 0 <= i < |xs| && xs[i] == x;
    assert i % |xs| == i;
    assert Choose(xs, i) == x;
  }

  /** The related-video ids listed in an answer; a list answer lists none. */
  function RelatedIds(data: Info): seq<VideoId> {
    match data
    case Video(_, related) => related
    case Entries(_) => []
  }

  /** The fallback path: a search answer with entries gives a random entry
      whose id is not in the history; anything else gives None. */
  function FallbackSong(history: seq<VideoId>, data: Option<Info>, choice: nat): (r: Option<Track>)
    ensures r.Some? ==> data.Some? && data.value.Entries? && r.value in data.value.entries
    ensures r.Some? ==> r.value.id !in history
  {
    match data
    case Some(Entries(entries)) =>
      var potential := Unplayed(entries, EntryId, history);
      if potential != [] then Some(Choose(potential, choice)) else None
    case _ => None
  }

  /** The autoplay lookup: None on an empty history; otherwise the related
      videos of the most recent id, without those already played; a random one
      of them, resolved through its watch page; and only when none survives,
      the fallback search, filtered the same way. */
  function NextSong(history: seq<VideoId>, extract: Extractor, choice: nat): (r: Option<Track>)
    ensures history == [] ==> r == None
  {
    if history == [] then None
    else
      match extract(WatchUrl(history[|history| - 1]))
      case None => None
      case Some(data) =>
        var potential := Unplayed(RelatedIds(data), RelatedId, history);
        if potential != [] then TrackOf(extract(WatchUrl(Choose(potential, choice))))
        else FallbackSong(history, extract(FallbackQuery), choice)
  }

  /** What the fallback search may yield: an unplayed entry of the search
      answer when it has one, else nothing. */
  ghost predicate FallbackAllows(history: seq<VideoId>, data: Option<Info>, r: Option<Track>) {
    match data
    case Some(Entries(entries)) =>
      if exists e :: e in entries && e.id !in history then
        r.Some? && r.value in entries && r.value.id !in history
      else
        r == None
    case _ => r == None
  }

  /** The outcomes autoplay may produce, stated without filters or indices:
      nothing without history or without an answer for the most recent id;
      the answer for the watch page of some unplayed related id when there is
      one; otherwise whatever the fallback search allows. */
  ghost predicate AutoplayAllows(history: seq<VideoId>, extract: Extractor, r: Option<Track>) {
    if history == [] then r == None
    else
      match extract(WatchUrl(history[|history| - 1]))
      case None => r == None
      case Some(data) =>
        if exists id :: id in RelatedIds(data) && id !in history then
          exists id :: id in RelatedIds(data) && id !in history && r == TrackOf(extract(WatchUrl(id)))
        else
          FallbackAllows(history, extract(FallbackQuery), r)
  }

  /** The extractor answers a watch page with the video of that id (or not as a video at all). */
  ghost predicate AnswersById(extract: Extractor) {
    forall id :: TrackOf(extract(WatchUrl(id))).Some? ==> TrackOf(extract(WatchUrl(id))).value.id == id
  }

  lemma FallbackSongAllowed(history: seq<VideoId>, data: Option<Info>, choice: nat)
    ensures FallbackAllows(history, data, FallbackSong(history, data, choice))
  {
    match data
    case Some(Entries(entries)) =>
      var potential := Unplayed(entries, EntryId, history);
      if potential == [] {
        assert forall e :: e in entries ==> e.id in history by {
          forall e | e in entries ensures e.id in history {
            assert e !in potential;
          }
        }
      } else {
        var r := Choose(potential, choice);
        assert r in entries && r.id !in history;
      }
    case _ =>
  }

  /** Every pick autoplay makes is one the specification allows. */
  lemma NextSongAllowed(history: seq<VideoId>, extract: Extractor, choice: nat)
    ensures AutoplayAllows(history, extract, NextSong(history, extract, choice))
  {
    if history != [] {
      match extract(WatchUrl(history[|history| - 1]))
      case None =>
      case Some(data) =>
        var potential := Unplayed(RelatedIds(data), RelatedId, history);
        if potential != [] {
          var id := Choose(potential, choice);
          assert id in RelatedIds(data) && id !in history;
        } else {
          forall id | id in RelatedIds(data) ensures id in history {
            assert id !in potential;
          }
          FallbackSongAllowed(history, extract(FallbackQuery), choice);
        }
    }
  }

  lemma FallbackSongCovers(history: seq<VideoId>, data: Option<Info>, r: Option<Track>)
    requires FallbackAllows(history, data, r)
    ensures exists choice: nat :: FallbackSong(history, data, choice) == r
  {
    match data
    case Some(Entries(entries)) =>
      var potential := Unplayed(entries, EntryId, history);
      if exists e :: e in entries && e.id !in history {
        assert r.value in potential;
        EveryCandidateCanBeChosen(potential, r.value);
        var choice: nat :| Choose(potential, choice) == r.value;
        assert FallbackSong(history, data, choice) == r;
      } else {
        assert FallbackSong(history, data, 0) == r;
      }
    case _ =>
      assert FallbackSong(history, data, 0) == r;
  }

  /** Conversely, every outcome the specification allows is the pick of some choice. */
  lemma NextSongCoversAllowed(history: seq<VideoId>, extract: Extractor, r: Option<Track>)
    requires AutoplayAllows(history, extract, r)
    ensures exists choice: nat :: NextSong(history, extract, choice) == r
  {
    if history == [] {
      assert NextSong(history, extract, 0) == r;
    } else {
      match extract(WatchUrl(history[|history| - 1]))
      case None =>
        assert NextSong(history, extract, 0) == r;
      case Some(data) =>
        var potential := Unplayed(RelatedIds(data), RelatedId, history);
        if exists id :: id in RelatedIds(data) && id !in history {
          var id :| id in RelatedIds(data) && id !in history && r == TrackOf(extract(WatchUrl(id)));
          assert id in potential;
          EveryCandidateCanBeChosen(potential, id);
          var choice: nat :| Choose(potential, choice) == id;
          assert NextSong(history, extract, choice) == r;
        } else {
            FallbackSongCovers(history, extract(FallbackQuery), r);
          var choice: nat :| FallbackSong(history, extract(FallbackQuery), choice) == r;
          assert NextSong(history, extract, choice) == r;
        }
    }
  }

  /** With an extractor that answers a watch page with that video, autoplay
      never picks a track whose id is already in the history, on either path. */
  lemma NextSongNeverRepeats(history: seq<VideoId>, extract: Extractor, choice: nat)
    requires AnswersById(extract)
    ensures NextSong(history, extract, choice).Some? ==> NextSong(history, extract, choice).value.id !in history
  {
    var r := NextSong(history, extract, choice);
    if history != [] && r.Some? {
      match extract(WatchUrl(history[|history| - 1]))
      case None =>
      case Some(data) =>
        var potential := Unplayed(RelatedIds(data), RelatedId, history);
        if potential != [] {
          var id := Choose(potential, choice);
          assert r == TrackOf(extract(WatchUrl(id)));
          assert r.value.id == id;
        }
    }
  }

  /** The answers autoplay depends on are those for the most recent id's watch
      page, for the watch pages of its unplayed related videos, and for the
      fallback search: two extractors that agree on those give the same pick. */
  lemma NextSongQueriesOnly(history: seq<VideoId>, e1: Extractor, e2: Extractor, choice: nat)
    requires history != []
    requires e1(WatchUrl(history[|history| - 1])) == e2(WatchUrl(history[|history| - 1]))
    requires e1(FallbackQuery) == e2(FallbackQuery)
    requires e1(WatchUrl(history[|history| - 1])).Some? ==>
      forall id :: id in RelatedIds(e1(WatchUrl(history[|history| - 1])).value) && id !in history ==>
        e1(WatchUrl(id)) == e2(WatchUrl(id))
    ensures NextSong(history, e1, choice) == NextSong(history, e2, choice)
  {
    match e1(WatchUrl(history[|history| - 1]))
    case None =>
    case Some(data) =>
      var potential := Unplayed(RelatedIds(data), RelatedId, history);
      if potential != [] {
        var id := Choose(potential, choice);
        assert id in RelatedIds(data) && id !in history;
      }
  }

  /** The last track played was x, whose related videos are x and y, and y
      was not played: whatever the random pick, autoplay takes y's watch page. */
  lemma RelatedScenario(history: seq<VideoId>, extract: Extractor, x: VideoId, y: VideoId, t: Track, choice: nat)
    requires history != [] && history[|history| - 1] == x && y !in history
    requires extract(WatchUrl(x)) == Some(Video(t, [x, y]))
    ensures NextSong(history, extract, choice) == TrackOf(extract(WatchUrl(y)))
  {
    var related := [x, y];
    assert related[1..] == [y] && [y][1..] == [];
    assert Unplayed(related, RelatedId, history) == [y];
  }
}

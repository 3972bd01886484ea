/** The per-session player: its queue of pending items, the track now playing,
    the volume (an integer percent), the autoplay flag and the play history,
    and the player loop split at its suspension points. Advance is the loop
    from the wait on the queue up to handing a track to the sink; Complete is
    the loop after the sink has signalled that the track ended. */
module Player {
  import opened Media
  import opened History
  import opened Autoplay

  /** The volume a new session starts with, in percent. */
  const DefaultVolume: int := 50

  /** The volumes the volume command accepts. */
  predicate InVolumeRange(v: int) {
    1 <= v <= 100
  }

  /** The track handed to the sink, with the volume applied to it. */
  datatype Playing = Playing(track: Track, volume: int)

  /** Everything a session holds, as one value. */
  datatype Session = Session(
    queue: seq<QueueItem>,
    current: Option<Playing>,
    volume: int,
    autoplay: bool,
    history: seq<VideoId>)

  /** The state of a newly created session. */
  const FreshSession: Session := Session([], None, DefaultVolume, false, [])

  datatype SkipReason = ErrorProcessing(reason: string) | Unplayable

  /** What one pass of the loop up to the sink did. */
  datatype StepOutcome =
    | TimedOut            // the queue stayed empty for the whole wait
    | Skipped(why: SkipReason)
    | Started(track: Track)
    | Halted(track: Track) // no voice connection: handing the track to the sink raised, and the loop is over

  /** How the loop treats the resolution of the item it took: an exception is
      reported as an error processing the song; nothing found is reported as
      unplayable; either failure skips the item. A track starts when the group
      has a voice connection; without one the call into the sink raises, which
      nothing catches, and the loop ends. */
  function LoopOutcome(res: Resolution, connected: bool): StepOutcome {
    match res
    case Found(t) => if connected then Started(t) else Halted(t)
    case NotFound => Skipped(Unplayable)
    case Failed(msg) => Skipped(ErrorProcessing(msg))
  }

  /** The outcomes after which the taken track is the current one and recorded. */
  predicate Took(outcome: StepOutcome) {
    outcome.Started? || outcome.Halted?
  }

  /** The tracks a queue yields when the loop plays it through on a voice
      connection: every item in order, except those that do not resolve. */
  function Playable(queue: seq<QueueItem>, extract: Extractor): (r: seq<Track>)
    ensures |r| <= |queue|
  {
    if queue == [] then [] else Yield(queue[0], extract) + Playable(queue[1..], extract)
  }

  /** The track one item yields when the loop takes it: none if it does not resolve. */
  function Yield(item: QueueItem, extract: Extractor): seq<Track> {
    match LoopOutcome(Resolve(item, extract), true)
    case Started(t) => [t]
    case _ => []
  }

  /** Enqueuing a resolved track makes it the last one the queue plays:
      playback order is enqueue order. */
  lemma {:induction false} PlayableEnqueue(queue: seq<QueueItem>, t: Track, extract: Extractor)
    ensures Playable(queue + [Ready(t)], extract) == Playable(queue, extract) + [t]
  {
    if queue == [] {
      assert queue + [Ready(t)] == [Ready(t)];
      assert Playable([Ready(t)], extract) == [t] + Playable([], extract);
    } else {
      var q := queue + [Ready(t)];
      assert q[0] == queue[0] && q[1..] == queue[1..] + [Ready(t)];
      PlayableEnqueue(queue[1..], t, extract);
      calc {
        Playable(q, extract);
        Yield(queue[0], extract) + Playable(queue[1..] + [Ready(t)], extract);
        Yield(queue[0], extract) + (Playable(queue[1..], extract) + [t]);
        (Yield(queue[0], extract) + Playable(queue[1..], extract)) + [t];
      }
    }
  }

  /** Taking the front item of the queue moves what it yields from the queue's
      tracks to those already played. */
  lemma PlayableStep(queue: seq<QueueItem>, played: seq<Track>, extract: Extractor)
    requires queue != []
    ensures played + Playable(queue, extract) == (played + Yield(queue[0], extract)) + Playable(queue[1..], extract)
  {
    var y, rest := Yield(queue[0], extract), Playable(queue[1..], extract);
    assert Playable(queue, extract) == y + rest;
    assert played + (y + rest) == (played + y) + rest;
  }

  /** The ids of a list of tracks, in order. */
  function Ids(ts: seq<Track>): seq<VideoId> {
    seq(|ts|, i requires 0 <= i < |ts| => ts[i].id)
  }

  /** Starting one more track records its id after those already recorded. */
  lemma HistoryOneMore(history: seq<VideoId>, played: seq<Track>, t: Track)
    ensures PushAll(history, Ids(played + [t])) == Push(PushAll(history, Ids(played)), t.id)
  {
    var ids := Ids(played + [t]);
    assert ids[..|ids| - 1] == Ids(played);
  }

  class MusicPlayer {
    const guild: GuildId
    var queue: seq<QueueItem>
    var current: Option<Playing>
    var volume: int
    var autoplay: bool
    var playedSongIds: seq<VideoId>

    ghost predicate Valid()
      reads this
    {
      && |playedSongIds| <= MaxHistory
      && InVolumeRange(volume)
      && (current.Some? ==> InVolumeRange(current.value.volume))
    }

    ghost function State(): Session
      reads this
    {
      Session(queue, current, volume, autoplay, playedSongIds)
    }

    constructor (guild: GuildId)
      ensures Valid()
      ensures this.guild == guild && State() == FreshSession
    {
      this.guild := guild;
      queue := [];
      current := None;
      volume := DefaultVolume;
      autoplay := false;
      playedSongIds := [];
    }

    /** Putting an item at the back of the queue. */
    method Enqueue(item: QueueItem)
      requires Valid()
      modifies this`queue
      ensures Valid()
      ensures queue == old(queue) + [item]
    {
      queue := queue + [item];
    }

    /** Discarding every pending item; the track now playing is not touched. */
    method ClearQueue()
      requires Valid()
      modifies this`queue
      ensures Valid()
      ensures queue == []
    {
      queue := [];
    }

    method ToggleAutoplay()
      requires Valid()
      modifies this`autoplay
      ensures Valid()
      ensures autoplay == !old(autoplay)
    {
      autoplay := !autoplay;
    }

    /** Setting the volume used for the next tracks and for the one now playing. */
    method SetVolume(v: int)
      requires Valid() && InVolumeRange(v)
      modifies this`volume, this`current
      ensures Valid()
      ensures volume == v
      ensures current == if old(current).Some? then Some(old(current).value.(volume := v)) else None
    {
      volume := v;
      if current.Some? {
        current := Some(current.value.(volume := v));
      }
    }

    /** Recording a started track: append its id and drop the oldest past the cap. */
    method RecordPlayed(id: VideoId)
      requires Valid()
      modifies this`playedSongIds
      ensures Valid()
      ensures playedSongIds == Push(old(playedSongIds), id)
    {
      playedSongIds := playedSongIds + [id];
      if |playedSongIds| > MaxHistory {
        playedSongIds := playedSongIds[1..];
      }
    }

    /** The loop from the wait on the queue up to the sink; it runs only once
        the previous track has completed. An empty queue here means nothing
        was enqueued during the whole 300 s wait: the loop times out.
        Otherwise the front item is taken; if it does not resolve it is skipped
        with nothing else changed; if it does, it becomes the current track at
        the session volume and its id is recorded in the history, and then it
        is handed to the sink, which without a voice connection ends the loop
        with the track left current. */
    method Advance(extract: Extractor, connected: bool) returns (outcome: StepOutcome)
      requires Valid() && current == None
      modifies this`queue, this`current, this`playedSongIds
      ensures Valid()
      ensures old(queue) == [] ==> outcome == TimedOut && State() == old(State())
      ensures old(queue) != [] ==> queue == old(queue)[1..] && outcome == LoopOutcome(Resolve(old(queue)[0], extract), connected)
      ensures Took(outcome) ==>
        current == Some(Playing(outcome.track, volume)) && playedSongIds == Push(old(playedSongIds), outcome.track.id)
      ensures !Took(outcome) ==> current == old(current) && playedSongIds == old(playedSongIds)
    {
      if queue == [] {
        return TimedOut;
      }
      var item := queue[0];
      queue := queue[1..];
      match Resolve(item, extract)
      case Failed(msg) =>
        outcome := Skipped(ErrorProcessing(msg));
      case NotFound =>
        outcome := Skipped(Unplayable);
      case Found(t) =>
        current := Some(Playing(t, volume));
        RecordPlayed(t.id);
        outcome := if connected then Started(t) else Halted(t);
    }

    /** The loop after the sink signalled the end of the track (a playback
        error is only logged): nothing is current any more, and when autoplay
        is on and the queue is empty, the autoplay pick (if any) is queued. */
    method Complete(extract: Extractor, choice: nat) returns (queued: Option<Track>)
      requires Valid()
      modifies this`current, this`queue
      ensures Valid()
      ensures current == None
      ensures queued == if autoplay && old(queue) == [] then NextSong(playedSongIds, extract, choice) else None
      ensures queue == old(queue) + if queued.Some? then [Ready(queued.value)] else []
    {
      current := None;
      queued := None;
      if autoplay && queue == [] {
        queued := NextSong(playedSongIds, extract, choice);
        if queued.Some? {
          Enqueue(Ready(queued.value));
        }
      }
    }

    /** The loop run on a voice connection with a sink that ends each track at
        once and autoplay off, until the queue is empty (the next wait then
        times out): the tracks started are exactly the resolvable items of the queue, in queue order,
        and the history records them in that order. */
    method Drain(extract: Extractor) returns (played: seq<Track>)
      requires Valid() && !autoplay && current == None
      modifies this`queue, this`current, this`playedSongIds
      ensures Valid() && queue == [] && current == None
      ensures played == Playable(old(queue), extract)
      ensures playedSongIds == PushAll(old(playedSongIds), Ids(played))
    {
      played := [];
      assert [] + Playable(queue, extract) == Playable(queue, extract);
      while queue != []
        invariant Valid() && !autoplay && current == None
        invariant played + Playable(queue, extract) == Playable(old(queue), extract)
        invariant playedSongIds == PushAll(old(playedSongIds), Ids(played))
        decreases |queue|
      {
        ghost var before, recorded := queue, playedSongIds;
        var outcome := Advance(extract, true);
        PlayableStep(before, played, extract);
        assert Yield(before[0], extract) == if outcome.Started? then [outcome.track] else [];
        if outcome.Started? {
          var queued := Complete(extract, 0);
          assert queue == before[1..] && playedSongIds == Push(recorded, outcome.track.id);
          HistoryOneMore(old(playedSongIds), played, outcome.track);
          played := played + [outcome.track];
        } else {
          assert played + [] == played;
        }
      }
      assert played + Playable([], extract) == played;
    }
  }
}

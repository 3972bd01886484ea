/** The session registry and the chat commands that act on a session. The
    registry maps each chat group to its player; a player is created the first
    time a command needs one and removed on leave or on the idle timeout.
    The voice connection is not modelled: whether one exists and whether the
    sink is playing are parameters, and a command that stops the sink says so
    in its result (the sink then signals completion, which is Complete). */
module Registry {
  import opened Media
  import opened Player
  import opened Autoplay
  import opened History

  datatype EnqueueReply = Added(track: Track) | NoSongFound | ErrorOccurred(reason: string)

  datatype VolumeReply = NotConnected | OutOfRange | VolumeSet(percent: int)

  datatype SkipReply = SkipNotConnected | SongSkipped | NothingPlaying

  /** The reply to play and playnow for a resolution of the user's query. */
  function EnqueueReplyFor(res: Resolution): (r: EnqueueReply)
    ensures r.Added? <==> res.Found?
    ensures r.Added? ==> r.track == res.track
  {
    match res
    case Found(t) => Added(t)
    case NotFound => NoSongFound
    case Failed(msg) => ErrorOccurred(msg)
  }

  /** The checks of the volume command, in their order: a connection first,
      then the range 1..100. */
  function VolumeCheck(connected: bool, v: int): (r: VolumeReply)
    ensures r.VolumeSet? <==> connected && 1 <= v <= 100
    ensures r.VolumeSet? ==> r.percent == v
    ensures r == OutOfRange <==> connected && (v < 1 || v > 100)
  {
    if !connected then NotConnected
    else if v < 1 || v > 100 then OutOfRange
    else VolumeSet(v)
  }

  /** The skip command: it stops the sink exactly when connected and playing. */
  function SkipCommand(connected: bool, playing: bool): (r: SkipReply)
    ensures r == SongSkipped <==> connected && playing
    ensures r == SkipNotConnected <==> !connected
  {
    if !connected then SkipNotConnected
    else if playing then SongSkipped
    else NothingPlaying
  }

  class Music {
    var players: map<GuildId, MusicPlayer>

    /** Every registered player is consistent and registered under its own
        group, so no player serves two groups. */
    ghost predicate Valid()
      reads this, players.Values
    {
      forall g :: g in players ==> players[g].Valid() && players[g].guild == g
    }

    /** The session of a group: its player's state, or a fresh session's
        state when the group has none yet. */
    ghost function SessionOf(g: GuildId): Session
      reads this, players.Values
    {
      if g in players then players[g].State() else FreshSession
    }

    /** The player objects a command for group g may change. */
    function Owned(g: GuildId): set<MusicPlayer>
      reads this
    {
      if g in players then {players[g]} else {}
    }

    constructor ()
      ensures Valid() && players == map[]
    {
      players := map[];
    }

    /** Teardown: the entry of the group is removed; an absent entry is no error. */
    method Cleanup(g: GuildId)
      requires Valid()
      modifies this`players
      ensures Valid()
      ensures players == old(players) - {g}
      ensures g !in old(players) ==> players == old(players)
    {
      if g in players {
        players := players - {g};
      }
    }

    /** The player of a group, created and registered only when absent. */
    method GetPlayer(g: GuildId) returns (p: MusicPlayer)
      requires Valid()
      modifies this`players
      ensures Valid()
      ensures g in players && p == players[g]
      ensures g in old(players) ==> players == old(players)
      ensures g !in old(players) ==> fresh(p) && players == old(players)[g := p] && p.State() == FreshSession
    {
      if g in players {
        p := players[g];
      } else {
        p := new MusicPlayer(g);
        players := players[g := p];
      }
    }

    /** play: the player is fetched or created first; a resolved query is put
        at the back of the queue, and a failed one changes nothing. */
    method Play(g: GuildId, res: Resolution) returns (reply: EnqueueReply)
      requires Valid()
      modifies this`players, Owned(g)
      ensures Valid()
      ensures players.Keys == old(players).Keys + {g}
      ensures forall h :: h in old(players) ==> players[h] == old(players)[h]
      ensures g !in old(players) ==> fresh(players[g])
      ensures reply == EnqueueReplyFor(res)
      ensures SessionOf(g) == old(SessionOf(g)).(queue := old(SessionOf(g)).queue + if res.Found? then [Ready(res.track)] else [])
      ensures forall h :: h != g ==> SessionOf(h) == old(SessionOf(h))
    {
      var p := GetPlayer(g);
      reply := EnqueueReplyFor(res);
      if res.Found? {
        p.Enqueue(Ready(res.track));
      }
    }

    /** playnow: a resolved query empties the queue, stops the sink if it is
        playing (its completion follows) and becomes the only pending item. */
    method PlayNow(g: GuildId, res: Resolution, playing: bool) returns (reply: EnqueueReply, stopSink: bool)
      requires Valid()
      modifies this`players, Owned(g)
      ensures Valid()
      ensures players.Keys == old(players).Keys + {g}
      ensures forall h :: h in old(players) ==> players[h] == old(players)[h]
      ensures g !in old(players) ==> fresh(players[g])
      ensures reply == EnqueueReplyFor(res)
      ensures stopSink <==> res.Found? && playing
      ensures SessionOf(g) == old(SessionOf(g)).(queue := if res.Found? then [Ready(res.track)] else old(SessionOf(g)).queue)
      ensures forall h :: h != g ==> SessionOf(h) == old(SessionOf(h))
    {
      var p := GetPlayer(g);
      reply := EnqueueReplyFor(res);
      stopSink := false;
      if res.Found? {
        p.ClearQueue();
        stopSink := playing;
        p.Enqueue(Ready(res.track));
        assert p.State() == old(SessionOf(g)).(queue := [Ready(res.track)]);
      }
    }

    /** stop: the queue is emptied and, when connected, the sink is stopped. */
    method Stop(g: GuildId, connected: bool) returns (stopSink: bool)
      requires Valid()
      modifies this`players, Owned(g)
      ensures Valid()
      ensures players.Keys == old(players).Keys + {g}
      ensures forall h :: h in old(players) ==> players[h] == old(players)[h]
      ensures g !in old(players) ==> fresh(players[g])
      ensures stopSink == connected
      ensures SessionOf(g) == old(SessionOf(g)).(queue := [])
      ensures forall h :: h != g ==> SessionOf(h) == old(SessionOf(h))
    {
      var p := GetPlayer(g);
      p.ClearQueue();
      stopSink := connected;
    }

    /** autoplay: the flag is flipped; the reply is its new value. */
    method ToggleAutoplay(g: GuildId) returns (enabled: bool)
      requires Valid()
      modifies this`players, Owned(g)
      ensures Valid()
      ensures players.Keys == old(players).Keys + {g}
      ensures forall h :: h in old(players) ==> players[h] == old(players)[h]
      ensures g !in old(players) ==> fresh(players[g])
      ensures SessionOf(g) == old(SessionOf(g)).(autoplay := !old(SessionOf(g)).autoplay)
      ensures enabled == SessionOf(g).autoplay
      ensures forall h :: h != g ==> SessionOf(h) == old(SessionOf(h))
    {
      var p := GetPlayer(g);
      p.ToggleAutoplay();
      enabled := p.autoplay;
    }

    /** queue: the player is fetched or created and its pending items are
        listed; no session changes, but a group without a player gets one. */
    method QueueInfo(g: GuildId) returns (pending: seq<QueueItem>)
      requires Valid()
      modifies this`players
      ensures Valid()
      ensures players.Keys == old(players).Keys + {g}
      ensures forall h :: h in old(players) ==> players[h] == old(players)[h]
      ensures g !in old(players) ==> fresh(players[g])
      ensures pending == old(SessionOf(g)).queue
      ensures forall h :: SessionOf(h) == old(SessionOf(h))
    {
      var p := GetPlayer(g);
      pending := p.queue;
    }

    /** nowplaying: the player is fetched or created and its current track
        shown; no session changes, but a group without a player gets one. */
    method NowPlaying(g: GuildId) returns (current: Option<Playing>)
      requires Valid()
      modifies this`players
      ensures Valid()
      ensures players.Keys == old(players).Keys + {g}
      ensures forall h :: h in old(players) ==> players[h] == old(players)[h]
      ensures g !in old(players) ==> fresh(players[g])
      ensures current == old(SessionOf(g)).current
      ensures forall h :: SessionOf(h) == old(SessionOf(h))
    {
      var p := GetPlayer(g);
      current := p.current;
    }

    /** vol: without a connection or outside 1..100 nothing changes (not even
        the registry); otherwise the player is fetched or created, and the
        volume is set for the next tracks and for the one now playing. */
    method SetVolume(g: GuildId, connected: bool, v: int) returns (reply: VolumeReply)
      requires Valid()
      modifies this`players, Owned(g)
      ensures Valid()
      ensures reply == VolumeCheck(connected, v)
      ensures !reply.VolumeSet? ==> players == old(players) && SessionOf(g) == old(SessionOf(g))
      ensures reply.VolumeSet? ==> players.Keys == old(players).Keys + {g}
      ensures reply.VolumeSet? && g !in old(players) ==> fresh(players[g])
      ensures forall h :: h in old(players) ==> h in players && players[h] == old(players)[h]
      ensures reply.VolumeSet? ==>
        var was := old(SessionOf(g));
        SessionOf(g) == was.(volume := v, current := if was.current.Some? then Some(was.current.value.(volume := v)) else None)
      ensures forall h :: h != g ==> SessionOf(h) == old(SessionOf(h))
    {
      reply := VolumeCheck(connected, v);
      if reply.VolumeSet? {
        var p := GetPlayer(g);
        p.SetVolume(v);
      }
    }

    /** One pass of the loop of player p up to the sink, as Advance states it
        for p. When the wait times out, the session tears itself down: it is
        removed from the registry, but only if the registry still holds p for
        p's group; a newer session registered for the same group is left
        alone. */
    method LoopStep(p: MusicPlayer, extract: Extractor, connected: bool) returns (outcome: StepOutcome)
      requires Valid() && p.Valid() && p.current == None
      modifies this`players, p`queue, p`current, p`playedSongIds
      ensures Valid() && p.Valid()
      ensures old(p.queue) == [] ==> outcome == TimedOut && p.State() == old(p.State())
      ensures old(p.queue) != [] ==>
        p.queue == old(p.queue)[1..] && outcome == LoopOutcome(Resolve(old(p.queue)[0], extract), connected)
      ensures Took(outcome) ==>
        p.current == Some(Playing(outcome.track, p.volume)) && p.playedSongIds == Push(old(p.playedSongIds), outcome.track.id)
      ensures !Took(outcome) ==> p.current == old(p.current) && p.playedSongIds == old(p.playedSongIds)
      ensures outcome.TimedOut? && p.guild in old(players) && old(players)[p.guild] == p ==>
        players == old(players) - {p.guild}
      ensures !(outcome.TimedOut? && p.guild in old(players) && old(players)[p.guild] == p) ==>
        players == old(players)
      ensures forall h :: h in old(players) && old(players)[h] != p ==> h in players && players[h] == old(players)[h]
    {
      outcome := p.Advance(extract, connected);
      if outcome.TimedOut? && p.guild in players && players[p.guild] == p {
        Cleanup(p.guild);
      }
    }

    /** The same pass as the source writes it: on the timeout the entry of p's
        group is removed whichever player it holds. */
    method LoopStepAsWritten(p: MusicPlayer, extract: Extractor, connected: bool) returns (outcome: StepOutcome)
      requires Valid() && p.Valid() && p.current == None
      modifies this`players, p`queue, p`current, p`playedSongIds
      ensures Valid() && p.Valid()
      ensures old(p.queue) == [] ==> outcome == TimedOut && p.State() == old(p.State())
      ensures old(p.queue) != [] ==>
        p.queue == old(p.queue)[1..] && outcome == LoopOutcome(Resolve(old(p.queue)[0], extract), connected)
      ensures Took(outcome) ==>
        p.current == Some(Playing(outcome.track, p.volume)) && p.playedSongIds == Push(old(p.playedSongIds), outcome.track.id)
      ensures !Took(outcome) ==> p.current == old(p.current) && p.playedSongIds == old(p.playedSongIds)
      ensures outcome.TimedOut? ==> players == old(players) - {p.guild}
      ensures !outcome.TimedOut? ==> players == old(players)
    {
      outcome := p.Advance(extract, connected);
      if outcome.TimedOut? {
        Cleanup(p.guild);
      }
    }
  }

  /** A session idles, the user makes the bot leave (its loop keeps waiting),
      and within the 300 s wait plays track t, which creates a new session
      whose own loop takes t and starts it. When the old loop's wait then
      times out, the step as written unregisters the new session while its
      loop is still running with t current; the teardown also disconnects the
      group's voice client (not modelled), which cuts t off. */
  method LeaveThenPlayAsWritten(g: GuildId, t: Track, extract: Extractor)
    returns (newCurrent: Option<Playing>, registered: bool)
    ensures newCurrent == Some(Playing(t, DefaultVolume)) && !registered
  {
    var music := new Music();
    var first := music.GetPlayer(g);
    music.Cleanup(g);
    var reply := music.Play(g, Found(t));
    var second := music.players[g];
    var started := music.LoopStep(second, extract, true);
    var outcome := music.LoopStepAsWritten(first, extract, true);
    newCurrent := second.current;
    registered := g in music.players;
  }

  /** The same sequence with the corrected step: the new session, playing t,
      stays registered. */
  method LeaveThenPlay(g: GuildId, t: Track, extract: Extractor)
    returns (newCurrent: Option<Playing>, registered: bool)
    ensures newCurrent == Some(Playing(t, DefaultVolume)) && registered
  {
    var music := new Music();
    var first := music.GetPlayer(g);
    music.Cleanup(g);
    var reply := music.Play(g, Found(t));
    var second := music.players[g];
    var started := music.LoopStep(second, extract, true);
    var outcome := music.LoopStep(first, extract, true);
    registered := g in music.players && music.players[g] == second;
    newCurrent := second.current;
  }

  /** play X without a voice connection (join only replies): X is queued, the
      loop takes X, makes it current and records it, and then the call into
      the sink raises and ends the loop. The session stays registered with X
      current and no loop left to play what is queued next or to time out. */
  method PlayWithoutConnection(g: GuildId, x: Track, y: Track, extract: Extractor)
    returns (outcome: StepOutcome, current: Option<Playing>, history: seq<VideoId>, pending: seq<QueueItem>, registered: bool)
    ensures outcome == Halted(x) && current == Some(Playing(x, DefaultVolume))
    ensures history == [x.id]
    ensures pending == [Ready(y)] && registered
  {
    var music := new Music();
    var r1 := music.Play(g, Found(x));
    var p := music.players[g];
    outcome := music.LoopStep(p, extract, false);
    var r2 := music.Play(g, Found(y));
    current := p.current;
    history := p.playedSongIds;
    pending := p.queue;
    registered := g in music.players && music.players[g] == p;
  }

  /** Two tracks queued with play start in that order, one after the other,
      with no further command. */
  method PlayTwoInOrder(g: GuildId, a: Track, b: Track, extract: Extractor)
    returns (played: seq<Track>)
    ensures played == [a, b]
  {
    var music := new Music();
    var r1 := music.Play(g, Found(a));
    var r2 := music.Play(g, Found(b));
    var p := music.players[g];
    PlayableEnqueue([Ready(a)], b, extract);
    assert Playable([Ready(a)], extract) == [a] by {
      assert Playable([Ready(a)], extract) == [a] + Playable([], extract);
    }
    assert [Ready(a)] + [Ready(b)] == [Ready(a), Ready(b)];
    played := p.Drain(extract);
  }

  /** playnow C while A plays and B waits: the sink is stopped, the queue
      becomes [C], and after A's completion C is the next track to start. */
  method PlayNowWhilePlaying(g: GuildId, a: Track, b: Track, c: Track, extract: Extractor)
    returns (stopSink: bool, pending: seq<QueueItem>, next: StepOutcome)
    ensures stopSink && pending == [Ready(c)] && next == Started(c)
  {
    var music := new Music();
    var r1 := music.Play(g, Found(a));
    var r2 := music.Play(g, Found(b));
    var p := music.players[g];
    var first := p.Advance(extract, true);
    var reply;
    reply, stopSink := music.PlayNow(g, Found(c), true);
    pending := p.queue;
    var queued := p.Complete(extract, 0);
    next := p.Advance(extract, true);
  }

  /** After a single track a whose only related video is b, autoplay picks b. */
  lemma OnlyRelatedIsNext(a: Track, b: Track, extract: Extractor)
    requires a.id != b.id
    requires extract(WatchUrl(a.id)) == Some(Video(a, [b.id]))
    requires extract(WatchUrl(b.id)) == Some(Video(b, []))
    ensures NextSong([a.id], extract, 0) == Some(b)
  {
    assert [b.id][1..] == [];
    assert Unplayed([b.id], RelatedId, [a.id]) == [b.id];
  }

  /** With autoplay on, stop empties the queue and stops the sink; the sink's
      completion then runs the autoplay lookup on the empty queue, so a
      related track is queued again after the stop. */
  method StopWithAutoplayOn(g: GuildId, a: Track, b: Track, extract: Extractor)
    returns (queued: Option<Track>, pending: seq<QueueItem>)
    requires a.id != b.id
    requires extract(WatchUrl(a.id)) == Some(Video(a, [b.id]))
    requires extract(WatchUrl(b.id)) == Some(Video(b, []))
    ensures queued == Some(b) && pending == [Ready(b)]
  {
    var music := new Music();
    var enabled := music.ToggleAutoplay(g);
    var reply := music.Play(g, Found(a));
    var p := music.players[g];
    var started := p.Advance(extract, true);
    assert p.playedSongIds == [a.id];
    var stopSink := music.Stop(g, true);
    OnlyRelatedIsNext(a, b, extract);
    queued := p.Complete(extract, 0);
    pending := p.queue;
  }
}

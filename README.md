# Music session scheduler, modelled in Dafny

This project models the playback bookkeeping of a chat-group music bot. The
bot is the single file `Music_Master_v1.74.py`. Each chat group ("guild") has
one session player. A player holds:

- a FIFO queue of pending items;
- the track now playing;
- a volume;
- an autoplay flag;
- a history of the last 100 video ids it started.

The player loop takes the front item, hands the track to the audio sink and
waits for the sink to signal the end. If autoplay is on and the queue has
drained, it then queues a related video that has not been played yet. A
registry maps each group to its player. The chat commands play, playnow,
stop, autoplay, vol, queue and nowplaying fetch the group's player through it,
creating one when the group has none. skip only tests the voice connection
and the sink, and touches no session.

Modules:

- `media.dfy` (`Media`): tracks, queue items, and the extractor as an oracle
  (`Extractor = string -> Option<Info>`). Also the source-building rule: a
  list answer gives its first entry.
- `history.dfy` (`History`): the capped play history and what it keeps after
  any number of plays.
- `autoplay.dfy` (`Autoplay`): the autoplay lookup as a pure function.
  `random.choice` becomes an index parameter `choice`. The lookup is proved
  equal to a relational specification, `AutoplayAllows`, written without
  filters or indices. Every outcome the lookup gives is allowed, and every
  allowed outcome is given for some choice.
- `player.dfy` (`Player`): the class `MusicPlayer`. The loop is split at its
  suspension points:
  - `Advance` runs from the wait on the queue up to the sink;
  - `Complete` runs after the sink signals the end of a track;
  - `Drain` runs the loop with a sink that ends each track at once.
- `registry.dfy` (`Registry`): the class `Music`, holding the `players` map,
  get-or-create and teardown, the commands, and the loop step whose timeout
  tears the session down. It also holds scenarios of the player's behaviour
  as methods.

Modelling choices:

- Asynchronous suspension is replaced by explicit steps. When the loop
  reaches its wait and the queue is empty, nothing was enqueued during the
  300 s wait, so `Advance` returns `TimedOut`. Commands issued meanwhile are
  separate method calls made before the step.
- The sink's completion callback is the call to `Complete`. A command that
  stops the sink (playnow, stop, skip) says so in its result.
- Whether a voice connection exists, and whether the sink is playing, are
  parameters of the commands that test them and of the loop step. The loop
  hands a started track to the sink outside any error handling. Without a
  connection that call raises and ends the loop. The step then reports
  `Halted`, with the track left current and recorded.
- The volume is an integer percent in 1..100. The default is 50; the source
  stores 0.5.

The model follows the code where its behaviour is easy to misread:

- The commands resolve a query through the extractor before queueing it, and
  autoplay queues a resolved track, so every queued item is a ready track
  (`Ready`). The loop resolves an item itself only when it is a raw query
  (`Request`), which no command produces. Its error and not-found skips
  (`Music_Master_v1.74.py:144-153`) are modelled but unreachable from the
  commands.
- When the extractor answers nothing for the last played id, `get_next_song`
  returns nothing at once. It does not fall back to the generic search
  (`Music_Master_v1.74.py:93-94`).
- When the picked related video does not resolve, the lookup also returns
  nothing. It does not fall back either (`:106-107`).
- Fallback search entries are queued as returned, without a second
  resolution (`:124-128`).
- With autoplay on, `stop` does not end playback. It empties the queue and
  stops the sink. The completion then runs the lookup on the empty queue and
  queues a related track again (`Registry.StopWithAutoplayOn`).

## Model

| member | source | states |
|---|---|---|
| `Media.CreateSource` | Music_Master_v1.74.py:51-62 | An answer gives a track exactly when it is a video or a non-empty list. A list gives its first entry. An empty list fails (index error). No answer gives NotFound. |
| `History.Push` | Music_Master_v1.74.py:158-161 | A history of at most 100 ids stays at most 100 long. The new id is last. Below 100 it is a plain append. At 100 the oldest id is dropped and the other 99 keep their order. |
| `History.PushAll` | Music_Master_v1.74.py:158-161 | Recording any number of plays keeps the history at most 100 long. The last id played is last. |
| `History.PushKeepsRecent` | Music_Master_v1.74.py:158-161 | One push on the kept suffix of a sequence equals the kept suffix of the sequence with the id appended. |
| `History.PushAllKeepsMostRecent` | Music_Master_v1.74.py:158-161 | After any plays, the history is exactly the most recent 100 ids of the old history followed by the new ids, in order. |
| `History.HistoryAfterManyPlays` | Music_Master_v1.74.py:158-161 | After at least 100 plays, the history is exactly the last 100 ids played, in order. An older id that was not replayed is absent. |
| `Autoplay.Unplayed` | Music_Master_v1.74.py:97-99 | The filter keeps exactly the items whose id is not in the history. It is empty exactly when every id was played. The same filter serves the search entries at :119-122. |
| `Autoplay.Choose` | Music_Master_v1.74.py:101-102 | The random pick is always a member of the filtered list. |
| `Autoplay.EveryCandidateCanBeChosen` | Music_Master_v1.74.py:101-102 | Every member of the filtered list is the pick for some random choice. |
| `Autoplay.FallbackSong` | Music_Master_v1.74.py:112-129 | The fallback gives a track only from a search answer with entries. The track is one of those entries, and its id is not in the history. |
| `Autoplay.NextSong` | Music_Master_v1.74.py:84-85 | An empty history gives no candidate. |
| `Autoplay.FallbackSongAllowed` | Music_Master_v1.74.py:118-129 | The fallback gives an unplayed entry whenever the search answer has one, and nothing otherwise. |
| `Autoplay.FallbackSongCovers` | Music_Master_v1.74.py:118-129 | Every outcome the fallback specification allows is produced by some random choice. |
| `Autoplay.NextSongAllowed` | Music_Master_v1.74.py:82-129 | Soundness of every pick. No history or no answer for the last id gives nothing. If some related id is unplayed, the result is the watch-page answer for one such id. The fallback search is consulted only when no related id survives the filter, and it gives an unplayed entry or nothing. |
| `Autoplay.NextSongCoversAllowed` | Music_Master_v1.74.py:82-129 | Every outcome the specification allows is the lookup's result for some random choice. This is the converse of NextSongAllowed. |
| `Autoplay.NextSongNeverRepeats` | Music_Master_v1.74.py:96-122 | If the extractor answers each watch page with that video, no autoplay pick has an id already in the history, on either path. |
| `Autoplay.NextSongQueriesOnly` | Music_Master_v1.74.py:87-91 | The lookup depends only on three kinds of answer: the last id's watch page, the watch pages of its unplayed related ids, and the fallback search. |
| `Autoplay.RelatedScenario` | Music_Master_v1.74.py:96-105 | Say the last id is X, its related ids are [X, Y], and Y is unplayed. Then every pick resolves Y. |
| `Player.Playable` | Music_Master_v1.74.py:134-153 | The loop yields at most one track per queue item. |
| `Player.PlayableEnqueue` | Music_Master_v1.74.py:252 | Enqueuing a track makes it the last track the queue plays. Playback order is enqueue order. |
| `Player.HistoryOneMore` | Music_Master_v1.74.py:158-161 | Starting one more track records its id after all earlier ones. |
| `Player.MusicPlayer.constructor` | Music_Master_v1.74.py:65-80 | A new player has an empty queue, no current track, volume 50, autoplay off and an empty history. |
| `Player.MusicPlayer.Enqueue` | Music_Master_v1.74.py:252 | The item is appended at the back and the existing order is kept. |
| `Player.MusicPlayer.ClearQueue` | Music_Master_v1.74.py:288 | The queue is empty afterwards. The current track is untouched. |
| `Player.MusicPlayer.ToggleAutoplay` | Music_Master_v1.74.py:281 | The flag is negated. |
| `Player.MusicPlayer.SetVolume` | Music_Master_v1.74.py:318-320 | The session volume is set, and so is the volume of the track now playing, if any. |
| `Player.MusicPlayer.RecordPlayed` | Music_Master_v1.74.py:159-161 | Append then pop(0) leaves the history equal to `Push` of the old one. The 100 bound is kept. |
| `Player.MusicPlayer.Advance` | Music_Master_v1.74.py:134-163 | Runs only once nothing is current. An empty queue times out with nothing changed. Otherwise the front item is removed. A resolution failure skips it, reported as an error or as unplayable, with history and current track unchanged. A resolved track becomes current at the session volume and its id is recorded. It then starts, or, without a voice connection, the loop halts with it current. |
| `Player.MusicPlayer.Complete` | Music_Master_v1.74.py:177-189 | After the sink's completion nothing is current. An autoplay pick is appended exactly when autoplay is on and the queue is empty. Otherwise the queue is untouched. |
| `Player.MusicPlayer.Drain` | Music_Master_v1.74.py:131-189 | With autoplay off and a sink that ends each track at once, the loop starts exactly the resolvable queue items in queue order, leaves the queue empty, and records their ids in that order. |
| `Registry.EnqueueReplyFor` | Music_Master_v1.74.py:244-253 | play and playnow report the added track exactly when the query resolved. |
| `Registry.VolumeCheck` | Music_Master_v1.74.py:311-315 | A volume is accepted exactly when connected and within 1..100, so 1 and 100 are accepted. Out-of-range values are rejected only when connected. |
| `Registry.SkipCommand` | Music_Master_v1.74.py:298-307 | skip stops the sink exactly when connected and playing. It reports "not connected" exactly when there is no connection. |
| `Registry.Music.constructor` | Music_Master_v1.74.py:200-202 | The registry starts empty. |
| `Registry.Music.Cleanup` | Music_Master_v1.74.py:204-213 | Teardown removes the group's entry and nothing else. It is a no-op when the group is absent. |
| `Registry.Music.GetPlayer` | Music_Master_v1.74.py:215-222 | Returns the registered player when there is one, with the map unchanged. Otherwise it registers a fresh player under that key only. |
| `Registry.Music.Play` | Music_Master_v1.74.py:236-253 | The player is fetched or created. A resolved query is appended to the group's queue and a failed one changes no session. Other groups are untouched. |
| `Registry.Music.PlayNow` | Music_Master_v1.74.py:255-276 | A resolved query leaves the group's queue equal to exactly [it] and stops the sink if it was playing. A failed one changes no session. Other groups are untouched. |
| `Registry.Music.Stop` | Music_Master_v1.74.py:285-291 | The group's queue is empty afterwards. The sink is stopped when connected. Other groups are untouched. |
| `Registry.Music.ToggleAutoplay` | Music_Master_v1.74.py:278-283 | The group's autoplay flag is negated. The reply is the new value. Other groups are untouched. |
| `Registry.Music.QueueInfo` | Music_Master_v1.74.py:339-357 | The player is fetched or created, so the registry gains the group if it had none. The pending items listed are the group's queue. No session changes. |
| `Registry.Music.NowPlaying` | Music_Master_v1.74.py:359-370 | The player is fetched or created, so the registry gains the group if it had none. The track shown is the group's current one. No session changes. |
| `Registry.Music.SetVolume` | Music_Master_v1.74.py:309-321 | Without a connection or outside 1..100, neither the registry nor any session changes. Otherwise the group's volume and its current track's volume become the value. |
| `Registry.Music.LoopStep` | Music_Master_v1.74.py:134-163 | The player's own step is the one `Advance` states: timeout with the player unchanged, or the front item taken, with the current track and history as the outcome says. The timeout removes the group's entry only if the entry still holds this player. No other session is ever removed. |
| `Registry.Music.LoopStepAsWritten` | Music_Master_v1.74.py:134-163 | The player's own step is the one `Advance` states. As written, a timeout removes the entry of the player's group, whatever player that entry holds. |
| `Registry.LeaveThenPlayAsWritten` | Music_Master_v1.74.py:196-213 | After leave, then play within the wait, the new session's loop starts the track. The as-written timeout of the old loop then unregisters the new session while its track is current. |
| `Registry.LeaveThenPlay` | Music_Master_v1.74.py:196-213 | With the corrected step, the new session stays registered with its track current. |
| `Registry.PlayWithoutConnection` | Music_Master_v1.74.py:236-252 | play without a voice connection still queues the track. The loop takes it, makes it current, records its id as the whole history, and halts. The session stays registered with that track current and the next one queued behind it. |
| `Registry.PlayTwoInOrder` | Music_Master_v1.74.py:131-189 | Two tracks queued with play start in that order, with no further command. |
| `Registry.PlayNowWhilePlaying` | Music_Master_v1.74.py:271-276 | Say A plays and B waits, then playnow C is issued. The sink is stopped, the queue becomes [C], and C starts after A's completion. |
| `Registry.StopWithAutoplayOn` | Music_Master_v1.74.py:183-189 | With autoplay on, stop followed by the sink's completion queues the related track again. |

## Left out

- The chat platform: messages, embeds, `join`/`leave`'s voice moves and disconnects, `pause`, `resume`, `help`, `on_ready` and `bot.run`. These are SDK calls with no state logic. `leave` is `Cleanup` plus a disconnect.
- The displays of `queue` and `nowplaying`: they are `GetPlayer` followed by display only (`Registry.Music.QueueInfo`, `Registry.Music.NowPlaying`).
- The voice connection and the sink. Connection and "is playing" are parameters, of the commands and of the loop step. A stopped sink shows up as the `Complete` step that follows. The disconnect done by teardown is not modelled.
- The extractor and FFmpeg. The extractor is an oracle function, and FFmpeg is not modelled.
- Uncaught failures inside the autoplay lookup:
  - an extractor exception;
  - a list answer for the picked watch page, which raises on its missing `url` key;
  - a related video without an `id` that survives the filter, which raises at `:103`.
  In the source these escape and end the player loop. The model treats the list answer as no candidate and assumes every related video has an id.
- A fallback search entry without an `id`: it passes the filter at `:121`, because its missing id is not in the history, and is queued. When it plays, the source records `None` in the history. The model gives every entry an id.
- `Autoplay.Choose`: models `random.choice` as an arbitrary index. It states which picks are possible, not that they are uniform.
- Concurrency:
  - commands that run while the lookup or a resolution is suspended;
  - `playnow`/`stop` racing an in-flight resolution;
  - the event handoff from the audio thread.
  Each step here is atomic.
- `Player.MusicPlayer.Drain`: requires autoplay off, because with autoplay on the loop need not end.
- `Registry.Music.PlayNow`: assumes a connection once `join` was invoked. If `join` fails, the source raises at `:273` after clearing the queue.
- Floating-point volume. The percent is kept as an integer.
- `source.cleanup()` and other resource release.
- The playback error passed to `play_next`, which is only logged.

## Findings

| source | as written | input that shows it | evidently intended | confidence | as-written member | corrected member |
|---|---|---|---|---|---|---|
| Music_Master_v1.74.py:139-142 | On the 300 s timeout, the loop calls `destroy(guild)`. That deletes `players[guild.id]` and disconnects the group's voice client, whichever player the entry holds. | A session idles, then `!leave` removes it while its loop keeps waiting. Then `!play X` within 300 s registers a new player, whose own loop takes X and starts it. The old loop then times out. Its teardown disconnects the group's voice client, cutting X off, and unregisters the new player while that player's loop is still running. | The idle timeout tears down only the session whose loop timed out. | medium, not executed | `Registry.Music.LoopStepAsWritten` (shown by `Registry.LeaveThenPlayAsWritten`) | `Registry.Music.LoopStep` (shown by `Registry.LeaveThenPlay`) |

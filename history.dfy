/** The play history of a session: the ids of the tracks it started, most
    recent last, capped at MaxHistory entries with the oldest evicted first. */
module History {
  import opened Media

  const MaxHistory: nat := 100

  /** The last n elements of s (all of s when it is shorter): the reference
      definition of what a capped history keeps. */
  function Recent(s: seq<VideoId>, n: nat): seq<VideoId> {
    if |s| <= n then s else s[|s| - n..]
  }

  /** Recording one started track: append its id, then drop the oldest entry
      when the history has grown past the cap. */
  function Push(history: seq<VideoId>, id: VideoId): (r: seq<VideoId>)
    ensures |history| <= MaxHistory ==> |r| <= MaxHistory
    ensures r != [] && r[|r| - 1] == id
    ensures |history| < MaxHistory ==> r == history + [id]
    ensures |history| == MaxHistory ==> r == history[1..] + [id]
  {
    var appended := history + [id];
    if |appended| > MaxHistory then appended[1..] else appended
  }

  /** Recording several started tracks, in the order they started. */
  function PushAll(history: seq<VideoId>, ids: seq<VideoId>): (r: seq<VideoId>)
    ensures |history| <= MaxHistory ==> |r| <= MaxHistory
    ensures ids != [] ==> r != [] && r[|r| - 1] == ids[|ids| - 1]
    decreases |ids|
  {
    if ids == [] then history
    else Push(PushAll(history, ids[..|ids| - 1]), ids[|ids| - 1])
  }

  /** Pushing onto the kept suffix of s keeps the same suffix of s + [id]. */
  lemma PushKeepsRecent(s: seq<VideoId>, id: VideoId)
    ensures Push(Recent(s, MaxHistory), id) == Recent(s + [id], MaxHistory)
  {
    if |s| > MaxHistory {
      var k := |s| - MaxHistory;
      assert Recent(s, MaxHistory) == s[k..];
      assert (s[k..] + [id])[1..] == s[k + 1..] + [id];
      assert (s + [id])[k + 1..] == s[k + 1..] + [id];
    } else if |s| == MaxHistory {
      assert (s + [id])[1..] == s[1..] + [id];
    }
  }

  /** However many tracks start, the history is exactly the most recent
      MaxHistory ids of the old history followed by the new ids, in order. */
  lemma {:induction false} PushAllKeepsMostRecent(history: seq<VideoId>, ids: seq<VideoId>)
    requires |history| <= MaxHistory
    ensures PushAll(history, ids) == Recent(history + ids, MaxHistory)
    decreases |ids|
  {
    if ids == [] {
      assert history + ids == history;
    } else {
      var init, last := ids[..|ids| - 1], ids[|ids| - 1];
      PushAllKeepsMostRecent(history, init);
      PushKeepsRecent(history + init, last);
      assert history + init + [last] == history + ids;
    }
  }

  /** After at least MaxHistory plays the history holds exactly the last
      MaxHistory ids played, in order: everything older is gone. */
  lemma HistoryAfterManyPlays(history: seq<VideoId>, ids: seq<VideoId>)
    requires |history| <= MaxHistory && |ids| >= MaxHistory
    ensures PushAll(history, ids) == ids[|ids| - MaxHistory..]
    ensures forall j :: 0 <= j < |ids| - MaxHistory && ids[j] !in ids[|ids| - MaxHistory..] ==> ids[j] !in PushAll(history, ids)
  {
    PushAllKeepsMostRecent(history, ids);
    var all := history + ids;
    assert all[|all| - MaxHistory..] == ids[|ids| - MaxHistory..];
  }
}

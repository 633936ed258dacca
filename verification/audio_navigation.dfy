/** The audio player's navigation (audiocontroller.js): which track plays,
    whether it plays, and the history of tracks played before, as moved by
    `play`, `playNext`, `playPrevious` and `stop`.

    The audio element itself is not modelled: `hasAudio` records whether the
    player holds one. The playlist is represented by its length `n`; a
    track object is always truthy, so `audioData[index]` exists exactly when
    `0 <= index < n`. The clock reading of `playNext` and the value of
    `Math.random()` are parameters. */
module AudioNavigation {
  import opened JsValues
  import opened Modes

  /** Most history entries kept. */
  const HistoryLimit: nat := 50
  /** Milliseconds within which a second `playNext` is refused. */
  const BreakerWindow: int := 1000
  /** `currentIndex` when no track is selected. */
  const NoTrack: int := -1

  datatype Player = Player(
    currentIndex: int,
    isPlaying: bool,
    playHistory: seq<int>,
    hasAudio: bool,
    lastPlayNext: int,
    playMode: PlayMode,
    sortMode: SortMode)

  /** The state the constructor sets up. */
  function Initial(): (p: Player)
    ensures Valid(p)
  {
    Player(NoTrack, false, [], false, 0, Sequential, Nobo)
  }

  /** From the initial state the first `play` records nothing, and the first
      `playNext` at any time after the clock's zero is let through. */
  lemma InitialRecordsNothing(index: int, n: nat, now: int)
    ensures Play(Initial(), index, n).playHistory == []
    ensures !Blocked(Initial(), now)
  {
  }

  /** The history stays within its limit and holds only track positions;
      the current index is a position or "no track". */
  predicate Valid(p: Player)
  {
    && |p.playHistory| <= HistoryLimit
    && (forall i :: 0 <= i < |p.playHistory| ==> p.playHistory[i] >= 0)
    && p.currentIndex >= NoTrack
  }

  predicate IsSuffix(s: seq<int>, t: seq<int>)
  {
    |s| <= |t| && s == t[|t| - |s|..]
  }

  // ---------------------------------------------------------------------------
  // play
  // ---------------------------------------------------------------------------

  /** Whether `play(index)` records the track it leaves. */
  predicate Records(p: Player, index: int)
  {
    p.currentIndex != NoTrack && p.currentIndex != index
  }

  /** The history after `play(index)`: the track being left is pushed, when
      there is one and it is not the one requested, and the oldest entry is
      dropped once there are more than 50. */
  function RecordLeaving(p: Player, index: int): (h: seq<int>)
    ensures !Records(p, index) ==> h == p.playHistory
    ensures Records(p, index) ==>
      && |h| > 0 && h[|h| - 1] == p.currentIndex
      && IsSuffix(h, p.playHistory + [p.currentIndex])
      && (|p.playHistory| < HistoryLimit ==> |h| == |p.playHistory| + 1)
      && (|p.playHistory| >= HistoryLimit ==> |h| == |p.playHistory|)
  {
    if Records(p, index) then
      var pushed := p.playHistory + [p.currentIndex];
      if |pushed| > HistoryLimit then pushed[1..] else pushed
    else p.playHistory
  }

  /** `play(index, audioData)`: the old audio is dropped; with no track at
      `index` nothing else changes; otherwise the track being left is
      recorded and the requested one becomes current and playing. */
  function Play(p: Player, index: int, n: nat): (r: Player)
    ensures !(0 <= index < n) ==> r == p.(hasAudio := false)
    ensures 0 <= index < n ==> r.currentIndex == index && r.isPlaying && r.hasAudio
    ensures 0 <= index < n ==> r.playHistory == RecordLeaving(p, index)
    ensures r.lastPlayNext == p.lastPlayNext && r.playMode == p.playMode && r.sortMode == p.sortMode
    ensures Valid(p) ==> Valid(r)
  {
    if !(0 <= index < n) then p.(hasAudio := false)
    else p.(playHistory := RecordLeaving(p, index), currentIndex := index, isPlaying := true, hasAudio := true)
  }

  /** `mapController.playAudio(index)`: a request for a missing track is
      refused before the player is touched. */
  function PlayAudio(p: Player, index: int, n: nat): (r: Player)
    ensures !(0 <= index < n) ==> r == p
    ensures 0 <= index < n ==> r == Play(p, index, n)
    ensures Valid(p) ==> Valid(r)
  {
    if 0 <= index < n then Play(p, index, n) else p
  }

  /** Replaying the current track leaves the history as it is. */
  lemma ReplayRecordsNothing(p: Player, n: nat)
    requires 0 <= p.currentIndex < n
    ensures Play(p, p.currentIndex, n).playHistory == p.playHistory
  {
  }

  // ---------------------------------------------------------------------------
  // Sequential navigation
  // ---------------------------------------------------------------------------

  /** The next position in sequential mode: down the list (higher index) in
      date and southbound order, up the list in northbound order, wrapping
      around at either end. */
  function NextIndex(mode: SortMode, current: int, n: nat): (r: int)
    ensures n > 0 && NoTrack <= current < n ==> 0 <= r < n
    ensures mode != Nobo && 0 <= current < n - 1 ==> r == current + 1
    ensures mode == Nobo && 0 < current < n ==> r == current - 1
  {
    if mode == Nobo then
      var next := current - 1;
      if next < 0 then n - 1 else next
    else
      var next := current + 1;
      if next >= n then 0 else next
  }

  /** The previous position in sequential mode: the opposite direction. */
  function PrevIndex(mode: SortMode, current: int, n: nat): (r: int)
    ensures n > 0 && NoTrack <= current < n ==> 0 <= r < n
    ensures mode == Nobo && 0 <= current < n - 1 ==> r == current + 1
    ensures mode != Nobo && 0 < current < n ==> r == current - 1
  {
    if mode == Nobo then
      var prev := current + 1;
      if prev >= n then 0 else prev
    else
      var prev := current - 1;
      if prev < 0 then n - 1 else prev
  }

  /** "Previous" undoes "next" and "next" undoes "previous", in every sort
      order, wrap-around included. */
  lemma NextAndPrevAreInverse(mode: SortMode, i: int, n: nat)
    requires 0 <= i < n
    ensures PrevIndex(mode, NextIndex(mode, i, n), n) == i
    ensures NextIndex(mode, PrevIndex(mode, i, n), n) == i
  {
  }

  /** Sequential "next" steps through the list one position at a time,
      wrapping around: `k` steps from `i` land on `i + k` (or `i - k`
      northbound) modulo the list length. */
  lemma {:induction false} NextCyclesThroughAll(mode: SortMode, i: int, n: nat, k: nat)
    requires 0 <= i < n
    ensures Iterate(mode, i, n, k) == (if mode == Nobo then (i - k) % n else (i + k) % n)
    decreases k
  {
    if k > 0 {
      NextCyclesThroughAll(mode, i, n, k - 1);
      if mode == Nobo {
        StepDown(i - (k - 1), n);
      } else {
        StepUp(i + (k - 1), n);
      }
    }
  }

  lemma StepUp(j: int, n: nat)
    requires n > 0
    ensures (if j % n + 1 >= n then 0 else j % n + 1) == (j + 1) % n
  {
    var q, r := j / n, j % n;
    if r + 1 >= n {
      ModUnique(j + 1, n, q + 1, 0);
    } else {
      ModUnique(j + 1, n, q, r + 1);
    }
  }

  lemma StepDown(j: int, n: nat)
    requires n > 0
    ensures (if j % n - 1 < 0 then n - 1 else j % n - 1) == (j - 1) % n
  {
    var q, r := j / n, j % n;
    if r - 1 < 0 {
      ModUnique(j - 1, n, q - 1, n - 1);
    } else {
      ModUnique(j - 1, n, q, r - 1);
    }
  }

  /** Division with remainder has one answer. */
  lemma ModUnique(x: int, n: nat, q: int, r: int)
    requires n > 0 && 0 <= r < n && x == q * n + r
    ensures x % n == r
  {
    var d := q - x / n;
    assert d * n == x % n - r;
  }

  /** `k` sequential "next" steps from position `i`. */
  function Iterate(mode: SortMode, i: int, n: nat, k: nat): int
    decreases k
  {
    if k == 0 then i else NextIndex(mode, Iterate(mode, i, n, k - 1), n)
  }

  // ---------------------------------------------------------------------------
  // playNext
  // ---------------------------------------------------------------------------

  /** `Math.floor(Math.random() * audioData.length)`, with the random draw `rnd` in [0, 1). */
  function RandomIndex(rnd: real, n: nat): (r: int)
    requires 0.0 <= rnd < 1.0
    ensures n > 0 ==> 0 <= r < n
    ensures n == 0 ==> r == 0
  {
    DrawIsBelowCount(rnd, n);
    Floor(rnd * n as real)
  }

  lemma DrawIsBelowCount(rnd: real, n: nat)
    requires 0.0 <= rnd < 1.0
    ensures 0.0 <= rnd * n as real
    ensures n > 0 ==> rnd * n as real < n as real
  {
    if n > 0 {
      assert (1.0 - rnd) * n as real > 0.0;
    }
  }

  /** The circuit breaker: an earlier accepted call (a non-zero time stamp)
      less than a second ago. */
  predicate Blocked(p: Player, now: int)
  {
    p.lastPlayNext != 0 && now - p.lastPlayNext < BreakerWindow
  }

  /** The index `playNext` computes. */
  function ChosenNext(p: Player, n: nat, rnd: real): int
    requires 0.0 <= rnd < 1.0
  {
    if p.playMode == Random then RandomIndex(rnd, n)
    else NextIndex(p.sortMode, p.currentIndex, n)
  }

  /** `playNext(audioData)` at time `now` with random draw `rnd`. */
  function PlayNext(p: Player, n: nat, now: int, rnd: real): (r: Player)
    requires 0.0 <= rnd < 1.0
    ensures Blocked(p, now) ==> r == p
    ensures !Blocked(p, now) ==> r.lastPlayNext == now
    ensures !Blocked(p, now) && ChosenNext(p, n, rnd) == p.currentIndex ==> r == p.(lastPlayNext := now)
    ensures !Blocked(p, now) && n > 0 && NoTrack <= p.currentIndex < n && ChosenNext(p, n, rnd) != p.currentIndex ==>
      r.currentIndex == ChosenNext(p, n, rnd) && r.isPlaying
    ensures Valid(p) ==> Valid(r)
  {
    if Blocked(p, now) then p
    else
      var q := p.(lastPlayNext := now);
      var next := ChosenNext(p, n, rnd);
      if next != p.currentIndex then PlayAudio(q, next, n) else q
  }

  /** Two calls less than a second apart: the second is refused. */
  lemma RapidSecondCallIsRefused(p: Player, n: nat, t1: int, t2: int, rnd: real)
    requires 0.0 <= rnd < 1.0
    requires t1 != 0 && t1 <= t2 < t1 + BreakerWindow
    ensures var q := PlayNext(p, n, t1, rnd);
            !Blocked(p, t1) ==> PlayNext(q, n, t2, rnd) == q
  {
  }

  // ---------------------------------------------------------------------------
  // playPrevious
  // ---------------------------------------------------------------------------

  /** `playPrevious(audioData)` as written. In random mode it pops the most
      recent history entry and plays it through `playAudio`, whose `play`
      records the track being left: that track goes straight back onto the
      history. */
  function PlayPreviousAsWritten(p: Player, n: nat): (r: Player)
    ensures p.playMode == Random && |p.playHistory| == 0 ==> r == p
    ensures p.playMode == Random && |p.playHistory| > 0 ==>
      var h, last := p.playHistory, p.playHistory[|p.playHistory| - 1];
      && (0 <= last < n ==> r.currentIndex == last && r.isPlaying && r.hasAudio)
      && (0 <= last < n && |h| <= HistoryLimit && Records(p, last) ==>
            r.playHistory == h[..|h| - 1] + [p.currentIndex])
      && (0 <= last < n && !Records(p, last) ==> r.playHistory == h[..|h| - 1])
      && (!(0 <= last < n) ==> r == p.(playHistory := h[..|h| - 1]))
    ensures p.playMode == Sequential ==> r == PlayAudio(p, PrevIndex(p.sortMode, p.currentIndex, n), n)
    ensures Valid(p) ==> Valid(r)
  {
    if p.playMode == Random then
      if |p.playHistory| == 0 then p
      else
        var h := p.playHistory;
        PlayAudio(p.(playHistory := h[..|h| - 1]), h[|h| - 1], n)
    else PlayAudio(p, PrevIndex(p.sortMode, p.currentIndex, n), n)
  }

  /** Two presses of "previous" in random mode, as written, come back to the
      track and history they started from: the player bounces between the
      current track and the last one in the history instead of walking back. */
  lemma PreviousTwiceReturnsAsWritten(p: Player, n: nat)
    requires p.playMode == Random && |p.playHistory| > 0 && Valid(p)
    requires 0 <= p.currentIndex < n
    requires 0 <= p.playHistory[|p.playHistory| - 1] < n
    requires p.playHistory[|p.playHistory| - 1] != p.currentIndex
    ensures PlayPreviousAsWritten(PlayPreviousAsWritten(p, n), n).currentIndex == p.currentIndex
    ensures PlayPreviousAsWritten(PlayPreviousAsWritten(p, n), n).playHistory == p.playHistory
  {
    var h := p.playHistory;
    var q := PlayPreviousAsWritten(p, n);
    assert q.playHistory == h[..|h| - 1] + [p.currentIndex];
    assert q.playHistory[..|q.playHistory| - 1] == h[..|h| - 1];
    assert h[..|h| - 1] + [h[|h| - 1]] == h;
  }

  /** The concrete case: history [0, 1] while track 2 plays. */
  lemma RandomPreviousOscillates()
    ensures var p := Player(2, true, [0, 1], true, 0, Random, Nobo);
            var once := PlayPreviousAsWritten(p, 3);
            var twice := PlayPreviousAsWritten(once, 3);
            once.currentIndex == 1 && twice.currentIndex == 2 && twice.playHistory == [0, 1]
  {
    var p := Player(2, true, [0, 1], true, 0, Random, Nobo);
    PreviousTwiceReturnsAsWritten(p, 3);
  }

  /** `playPrevious(audioData)` with history navigation corrected: in random
      mode the popped entry becomes current without the track being left
      going back onto the history. Sequential mode is unchanged. */
  function PlayPrevious(p: Player, n: nat): (r: Player)
    ensures p.playMode == Random && |p.playHistory| == 0 ==> r == p
    ensures p.playMode == Random && |p.playHistory| > 0 ==>
      r.playHistory == p.playHistory[..|p.playHistory| - 1]
    ensures p.playMode == Random && |p.playHistory| > 0 && 0 <= p.playHistory[|p.playHistory| - 1] < n ==>
      r.currentIndex == p.playHistory[|p.playHistory| - 1] && r.isPlaying
    ensures p.playMode == Sequential ==> r == PlayPreviousAsWritten(p, n)
    ensures Valid(p) ==> Valid(r)
  {
    if p.playMode == Random then
      if |p.playHistory| == 0 then p
      else
        var h := p.playHistory;
        var prev := h[|h| - 1];
        var popped := p.(playHistory := h[..|h| - 1]);
        if 0 <= prev < n then popped.(currentIndex := prev, isPlaying := true, hasAudio := true)
        else popped
    else PlayAudio(p, PrevIndex(p.sortMode, p.currentIndex, n), n)
  }

  /** `k` presses of the corrected "previous". */
  function PreviousSteps(p: Player, n: nat, k: nat): Player
    decreases k
  {
    if k == 0 then p else PlayPrevious(PreviousSteps(p, n, k - 1), n)
  }

  predicate AllPositions(h: seq<int>, n: nat)
  {
    forall i :: 0 <= i < |h| ==> 0 <= h[i] < n
  }

  /** With the correction, `k` presses walk back through the last `k`
      history entries, most recent first, and consume them. */
  lemma {:induction false} PreviousWalksBack(p: Player, n: nat, k: nat)
    requires p.playMode == Random && k <= |p.playHistory|
    requires AllPositions(p.playHistory, n)
    ensures PreviousSteps(p, n, k).playMode == Random
    ensures PreviousSteps(p, n, k).playHistory == p.playHistory[..|p.playHistory| - k]
    ensures k > 0 ==> PreviousSteps(p, n, k).currentIndex == p.playHistory[|p.playHistory| - k]
  {
    if k > 0 {
      PreviousWalksBack(p, n, k - 1);
      var h := p.playHistory;
      var q := PreviousSteps(p, n, k - 1);
      assert q.playHistory == h[..|h| - (k - 1)];
      assert q.playHistory[|q.playHistory| - 1] == h[|h| - k];
      assert q.playHistory[..|q.playHistory| - 1] == h[..|h| - k];
    }
  }

  // ---------------------------------------------------------------------------
  // togglePlayPause
  // ---------------------------------------------------------------------------

  /** `togglePlayPause()`, where `paused` is the audio element's own paused
      flag: without audio nothing happens; otherwise a paused element is
      resumed and a playing one paused, and `isPlaying` follows. Nothing
      else about the player changes. */
  function TogglePlayPause(p: Player, paused: bool): (r: Player)
    ensures !p.hasAudio ==> r == p
    ensures p.hasAudio ==> (r.isPlaying <==> paused)
    ensures r.(isPlaying := p.isPlaying) == p
    ensures Valid(p) ==> Valid(r)
  {
    if !p.hasAudio then p
    else if paused then p.(isPlaying := true)
    else p.(isPlaying := false)
  }

  /** A second toggle, with the element now in the state the first one put
      it in, restores `isPlaying` to what the element showed before. */
  lemma ToggleTwiceRestores(p: Player, paused: bool)
    requires p.hasAudio
    ensures TogglePlayPause(TogglePlayPause(p, paused), !paused) == p.(isPlaying := !paused)
  {
  }

  // ---------------------------------------------------------------------------
  // stop
  // ---------------------------------------------------------------------------

  /** `stop()`: no track, not playing, no audio; the history is kept. */
  function Stop(p: Player): (r: Player)
    ensures r.currentIndex == NoTrack && !r.isPlaying && !r.hasAudio
    ensures r.playHistory == p.playHistory && r.playMode == p.playMode && r.sortMode == p.sortMode
    ensures Valid(p) ==> Valid(r)
  {
    p.(currentIndex := NoTrack, isPlaying := false, hasAudio := false)
  }

  /** After `stop`, the next `play` records nothing: there is no track to leave. */
  lemma StopThenPlayRecordsNothing(p: Player, index: int, n: nat)
    ensures Play(Stop(p), index, n).playHistory == p.playHistory
  {
  }

  /** Sequential "previous" right after an accepted sequential "next" comes
      back to the track that was playing. */
  lemma NextThenPreviousReturns(p: Player, n: nat, now: int, rnd: real)
    requires 0.0 <= rnd < 1.0
    requires p.playMode == Sequential && !Blocked(p, now)
    requires 0 <= p.currentIndex < n
    ensures PlayPrevious(PlayNext(p, n, now, rnd), n).currentIndex == p.currentIndex
  {
    NextAndPrevAreInverse(p.sortMode, p.currentIndex, n);
  }
}

/** The playback half of the component's state, as a value, and the transitions
    that `togglePlay`, `changeSong`, `nextSong`, `prevSong`, `clearQueue` and the
    player's callbacks apply to it. A transition that looks at the queue gets the
    stream URLs of the queue's entries, position by position. */
module Playback {
  import opened Media

  /** `Sound.status`: the component only ever sets PLAYING and STOPPED. */
  datatype PlayStatus = Playing | Paused | Stopped

  /** `playStatus`, `currentSongNumber`, `currentSongUrl`, `currentSongPosition`,
      `currentSongDuration`, `seekFromPosition` and `songStreamLoading`. */
  datatype Player = Player(
    status: PlayStatus,
    songNumber: nat,
    songUrl: Option<string>,
    position: real,
    duration: real,
    seekFrom: real,
    streamLoading: bool)

  /** The values the component's constructor starts with. */
  const Initial: Player := Player(Stopped, 0, Some(""), 0.0, 0.0, 0.0, false)

  /** `togglePlay`, given the stream URL of the current entry: stop when
      playing; otherwise play that stream from the last reported position. */
  function Toggled(p: Player, currentUrl: Option<string>): Player
  {
    if p.status == Playing then p.(status := Stopped)
    else p.(status := Playing, songUrl := currentUrl, seekFrom := p.position)
  }

  /** `changeSong(num)`, by the net effect of its two state updates. */
  function SongChanged(p: Player, num: nat, urls: seq<Option<string>>): Player
    requires num < |urls|
  {
    p.(songNumber := num, songUrl := urls[num])
  }

  /** The index `nextSong` asks for: one further, but never past the last entry. */
  function NextTarget(cur: nat, length: nat): nat
    requires length > 0
  {
    if cur + 1 < length - 1 then cur + 1 else length - 1
  }

  /** The index `prevSong` asks for: one back, but never before the first entry. */
  function PrevTarget(cur: nat): nat
  {
    if cur - 1 > 0 then cur - 1 else 0
  }

  /** `nextSong`. */
  function Next(p: Player, urls: seq<Option<string>>): Player
    requires |urls| > 0
  {
    SongChanged(p, NextTarget(p.songNumber, |urls|), urls)
  }

  /** `prevSong`. */
  function Prev(p: Player, urls: seq<Option<string>>): Player
    requires PrevTarget(p.songNumber) < |urls|
  {
    SongChanged(p, PrevTarget(p.songNumber), urls)
  }

  /** `songFinishedPlayingCallback`: rewind; then stop on the last entry, or go
      on to the next one. */
  function SongFinished(p: Player, urls: seq<Option<string>>): Player
    requires p.songNumber < |urls|
  {
    var rewound := p.(position := 0.0, seekFrom := 0.0);
    if p.songNumber == |urls| - 1 then rewound.(status := Stopped)
    else Next(rewound, urls)
  }

  /** The playback fields `clearQueue` resets; the duration is left as it was. */
  function Cleared(p: Player): Player
  {
    p.(status := Stopped, songNumber := 0, position := 0.0, seekFrom := 0.0, streamLoading := false)
  }

  /** `songLoadingCallback(loading)`. */
  function LoadingReported(p: Player, loaded: bool): Player
  {
    p.(streamLoading := !loaded)
  }

  /** `songPlayingCallback(playing)`, without the rounded percentage. */
  function PlayingReported(p: Player, position: real, duration: real): Player
  {
    p.(position := position, duration := duration, streamLoading := false)
  }

  /** Pausing by toggle and toggling again resumes the same entry where the
      player last reported it to be. */
  lemma ToggleTwiceResumes(p: Player, currentUrl: Option<string>)
    requires p.status == Playing
    ensures Toggled(Toggled(p, currentUrl), currentUrl) ==
            p.(songUrl := currentUrl, seekFrom := p.position)
  {
  }

  /** `k` presses of the next button. */
  function NextTimes(p: Player, urls: seq<Option<string>>, k: nat): Player
    requires |urls| > 0
    decreases k
  {
    if k == 0 then p else NextTimes(Next(p, urls), urls, k - 1)
  }

  /** `k` presses of the previous button. */
  function PrevTimes(p: Player, urls: seq<Option<string>>, k: nat): Player
    requires 0 < |urls| && p.songNumber <= |urls|
    decreases k
  {
    if k == 0 then p else PrevTimes(Prev(p, urls), urls, k - 1)
  }

  /** `k` "finished playing" events in a row. */
  function FinishedTimes(p: Player, urls: seq<Option<string>>, k: nat): Player
    requires p.songNumber < |urls|
    decreases k
  {
    if k == 0 then p
    else
      var q := SongFinished(p, urls);
      assert q.songNumber < |urls|;
      FinishedTimes(q, urls, k - 1)
  }

  /** Next stops at the last entry: after `k` presses the index is
      `min(cur + k, |urls| - 1)`; it never wraps around to the start. */
  lemma {:induction false} NextClamps(p: Player, urls: seq<Option<string>>, k: nat)
    requires |urls| > 0
    ensures var r := NextTimes(p, urls, k);
            && r.songNumber == (if k == 0 then p.songNumber
                                else if p.songNumber + k < |urls| - 1 then p.songNumber + k
                                else |urls| - 1)
            && (k > 0 ==> r.songUrl == urls[r.songNumber])
            && r.status == p.status && r.position == p.position && r.seekFrom == p.seekFrom
    decreases k
  {
    if k > 0 {
      NextClamps(Next(p, urls), urls, k - 1);
    }
  }

  /** Previous stops at the first entry: after `k` presses the index is
      `max(cur - k, 0)`; it never wraps around to the end. */
  lemma {:induction false} PrevClamps(p: Player, urls: seq<Option<string>>, k: nat)
    requires 0 < |urls| && p.songNumber <= |urls|
    ensures var r := PrevTimes(p, urls, k);
            && r.songNumber == (if p.songNumber - k > 0 then p.songNumber - k else 0)
            && (k > 0 ==> r.songUrl == urls[r.songNumber])
            && r.status == p.status && r.position == p.position && r.seekFrom == p.seekFrom
    decreases k
  {
    if k > 0 {
      PrevClamps(Prev(p, urls), urls, k - 1);
    }
  }

  /** Auto-advance plays the rest of the queue in order and then stops: after
      `k` finished events starting at entry `c`, entry `min(c + k, last)` is
      loaded, the status is untouched until the last entry has finished, and
      it is Stopped from then on. */
  lemma {:induction false} PlayThrough(p: Player, urls: seq<Option<string>>, k: nat)
    requires p.songNumber < |urls|
    ensures var r := FinishedTimes(p, urls, k);
            && r.songNumber == (if p.songNumber + k < |urls| - 1 then p.songNumber + k else |urls| - 1)
            && r.status == (if p.songNumber + k < |urls| then p.status else Stopped)
            && (k > 0 ==> r.position == 0.0 && r.seekFrom == 0.0)
            && (k > 0 && p.songNumber < |urls| - 1 ==> r.songUrl == urls[r.songNumber])
            && (p.songNumber == |urls| - 1 ==> r.songUrl == p.songUrl)
    decreases k
  {
    if k > 0 {
      PlayThrough(SongFinished(p, urls), urls, k - 1);
    }
  }
}

/** The `Home` component's state machine: the play queue, the playback fields,
    the download queue, and the methods and callbacks that update them. Each
    `setState` is an immediate assignment; the network, the player and the file
    system are outside, and what they deliver arrives as method arguments. */
module Component {
  import opened Media
  import opened PlayQueue
  import opened Playback
  import opened Downloads

  /** The lookup `addToQueue` leaves running for a song, named after the
      callback that completes it. */
  datatype Request =
    | NoRequest
    | VideoInfoRequest(song: Song, playNow: bool)          // completed by VideoInfoCallback
    | PlaylistRequest(playlist: Song, playNow: bool)       // completed by AddEach
    | VimeoRequest(song: Song, playNow: bool)              // completed by VimeoStreamCallback
    | BandcampTrackRequest(song: Song, playNow: bool)      // completed by BandcampTrackCallback
    | BandcampAlbumRequest(album: Song, playNow: bool)     // completed by BandcampAlbumCallback

  /** The lookup `addToQueue(song, playNow)` starts, by the song's source. */
  function RequestFor(song: Song, playNow: bool): Request
  {
    match song.source
    case Youtube => VideoInfoRequest(song, playNow)
    case YoutubePlaylists => PlaylistRequest(song, playNow)
    case SoundCloud => NoRequest
    case Mp3Monkey => NoRequest
    case Vimeo => VimeoRequest(song, playNow)
    case BandcampTrack => BandcampTrackRequest(song, playNow)
    case BandcampAlbum => BandcampAlbumRequest(song, playNow)
    case Unrecognised(_) => NoRequest
  }

  /** Sources whose songs `addToQueue` appends before any lookup completes. */
  predicate PushedAtOnce(s: Source)
  {
    s == Youtube || s == SoundCloud || s == Mp3Monkey
  }

  /** Sources for which `addToQueue` itself honours `playNow`. */
  predicate PlaysAtOnce(s: Source)
  {
    s == SoundCloud || s == Mp3Monkey
  }

  /** Sources whose songs are marked `streamUrlLoading` until their stream is known. */
  predicate AwaitsStream(s: Source)
  {
    s == Youtube || s == BandcampTrack
  }

  /** The songs of `songs` that `addToQueue` appends at once, in their order. */
  function Immediate(songs: seq<Song>): seq<Song?>
    decreases |songs|
  {
    if songs == [] then []
    else (if PushedAtOnce(songs[0].source) then [songs[0] as Song?] else []) + Immediate(songs[1..])
  }

  /** A playlist of songs that are all appended at once (the YouTube videos of a
      YouTube playlist) is appended whole and in its own order. */
  lemma {:induction false} ImmediateKeepsAll(songs: seq<Song>)
    requires forall i :: 0 <= i < |songs| ==> PushedAtOnce(songs[i].source)
    ensures |Immediate(songs)| == |songs|
    ensures forall i :: 0 <= i < |songs| ==> Immediate(songs)[i] == songs[i]
    decreases |songs|
  {
    if songs != [] {
      ImmediateKeepsAll(songs[1..]);
    }
  }

  /** Entry `i` of the queue exists and is not a padding `undefined`. */
  predicate PlayableAt(q: seq<Song?>, i: nat)
  {
    i < |q| && q[i] != null
  }

  /** The stream URL of entry `i`; None where the entry has none. */
  function UrlAt(q: seq<Song?>, i: nat): Option<string>
    reads q
  {
    if i < |q| && q[i] != null then q[i].streamUrl else None
  }

  /** The stream URLs of all entries, position by position. */
  function StreamUrls(q: seq<Song?>): (r: seq<Option<string>>)
    reads q
  {
    seq(|q|, i requires 0 <= i < |q| reads q => UrlAt(q, i))
  }

  class Home {
    var songQueue: seq<Song?>
    var downloadQueue: seq<DownloadJob>
    var playStatus: PlayStatus
    var currentSongNumber: nat
    var currentSongUrl: Option<string>
    var currentSongPosition: real
    var currentSongDuration: real
    var seekFromPosition: real
    var songStreamLoading: bool

    /** The playback fields as one value. */
    function PlayerState(): Player
      reads this
    {
      Player(playStatus, currentSongNumber, currentSongUrl, currentSongPosition,
             currentSongDuration, seekFromPosition, songStreamLoading)
    }

    twostate predicate QueuesUnchanged()
      reads this
    {
      songQueue == old(songQueue) && downloadQueue == old(downloadQueue)
    }

    constructor ()
      ensures songQueue == [] && downloadQueue == []
      ensures PlayerState() == Initial
    {
      songQueue := [];
      downloadQueue := [];
      playStatus := Stopped;
      currentSongNumber := 0;
      currentSongUrl := Some("");
      currentSongPosition := 0.0;
      currentSongDuration := 0.0;
      seekFromPosition := 0.0;
      songStreamLoading := false;
    }

    /** The player reports whether the stream has loaded. */
    method SongLoadingCallback(loaded: bool)
      modifies this
      ensures QueuesUnchanged()
      ensures PlayerState() == LoadingReported(old(PlayerState()), loaded)
    {
      songStreamLoading := !loaded;
    }

    /** The player reports its position; the rounded percentage is not modelled. */
    method SongPlayingCallback(position: real, duration: real)
      modifies this
      ensures QueuesUnchanged()
      ensures PlayerState() == PlayingReported(old(PlayerState()), position, duration)
    {
      currentSongPosition := position;
      currentSongDuration := duration;
      songStreamLoading := false;
    }

    /** Play/stop. Starting needs a current entry to read the stream URL of;
        stopping reads nothing. Playing is never entered without one. */
    method TogglePlay()
      requires playStatus != Playing ==> PlayableAt(songQueue, currentSongNumber)
      modifies this
      ensures QueuesUnchanged()
      ensures PlayerState() == Toggled(old(PlayerState()), UrlAt(songQueue, currentSongNumber))
      ensures old(playStatus) == Playing ==> playStatus == Stopped
      ensures old(playStatus) != Playing ==>
                && playStatus == Playing
                && currentSongUrl == songQueue[currentSongNumber].streamUrl
                && seekFromPosition == old(currentSongPosition)
      ensures playStatus == Playing ==> PlayableAt(songQueue, currentSongNumber)
    {
      if playStatus == Playing {
        playStatus := Stopped;
      } else {
        playStatus := Playing;
        currentSongUrl := songQueue[currentSongNumber].streamUrl;
        seekFromPosition := currentSongPosition;
      }
    }

    /** Make entry `num` current and load its stream. */
    method ChangeSong(num: nat)
      requires PlayableAt(songQueue, num)
      modifies this
      ensures QueuesUnchanged()
      ensures PlayerState() == SongChanged(old(PlayerState()), num, StreamUrls(songQueue))
      ensures currentSongNumber == num && currentSongUrl == songQueue[num].streamUrl
    {
      currentSongNumber := num;
      currentSongUrl := songQueue[currentSongNumber].streamUrl;
    }

    method NextSong()
      requires |songQueue| > 0 && songQueue[NextTarget(currentSongNumber, |songQueue|)] != null
      modifies this
      ensures QueuesUnchanged()
      ensures PlayerState() == Next(old(PlayerState()), StreamUrls(songQueue))
    {
      ChangeSong(NextTarget(currentSongNumber, |songQueue|));
    }

    method PrevSong()
      requires PlayableAt(songQueue, PrevTarget(currentSongNumber))
      modifies this
      ensures QueuesUnchanged()
      ensures PlayerState() == Prev(old(PlayerState()), StreamUrls(songQueue))
    {
      ChangeSong(PrevTarget(currentSongNumber));
    }

    /** The player finished the current entry (whose title is read for the
        scrobble, so it must exist): rewind, then stop on the last entry or
        advance by exactly one. */
    method SongFinishedPlayingCallback()
      requires PlayableAt(songQueue, currentSongNumber)
      requires currentSongNumber + 1 < |songQueue| ==> songQueue[currentSongNumber + 1] != null
      modifies this
      ensures QueuesUnchanged()
      ensures PlayerState() == SongFinished(old(PlayerState()), StreamUrls(songQueue))
      ensures currentSongPosition == 0.0 && seekFromPosition == 0.0
      ensures old(currentSongNumber) == |songQueue| - 1 ==>
                playStatus == Stopped && currentSongNumber == old(currentSongNumber)
      ensures old(currentSongNumber) < |songQueue| - 1 ==>
                playStatus == old(playStatus) && currentSongNumber == old(currentSongNumber) + 1
    {
      currentSongPosition := 0.0;
      seekFromPosition := 0.0;
      if currentSongNumber == |songQueue| - 1 {
        playStatus := Stopped;
      } else {
        NextSong();
      }
    }

    /** Drag-and-drop reorder. The current number follows the moved entry only
        when the moved entry was the current one; otherwise it stays the same
        number, whatever entry now sits there. */
    method ChangeQueueOrder(oldIndex: nat, newIndex: nat)
      modifies this
      ensures songQueue == Moved(old(songQueue), oldIndex, newIndex, null)
      ensures downloadQueue == old(downloadQueue)
      ensures PlayerState() == old(PlayerState()).(
                songNumber := if oldIndex == old(currentSongNumber) then newIndex else old(currentSongNumber))
      ensures oldIndex == old(currentSongNumber) && oldIndex < |old(songQueue)| ==>
                songQueue[currentSongNumber] == old(songQueue)[oldIndex]
    {
      songQueue := ArrayMove(songQueue, oldIndex, newIndex, null);
      if oldIndex == currentSongNumber {
        currentSongNumber := newIndex;
        if oldIndex < |old(songQueue)| {
          if newIndex < |old(songQueue)| {
            MovedIsMove(old(songQueue), oldIndex, newIndex, null);
          } else {
            MovedPadded(old(songQueue), oldIndex, newIndex, null);
          }
        }
      }
    }

    /** `removeFromQueue(song)`: splice at `indexOf(song)`; the current number
        is left alone. */
    method RemoveFromQueue(song: Song)
      modifies this
      ensures songQueue == Removed(old(songQueue), song)
      ensures downloadQueue == old(downloadQueue) && PlayerState() == old(PlayerState())
      ensures song in old(songQueue) ==>
                multiset(songQueue) == multiset(old(songQueue)) - multiset{song as Song?}
      ensures song !in old(songQueue) && old(songQueue) != [] ==>
                songQueue == old(songQueue)[..|old(songQueue)| - 1]
    {
      RemovedSpec(songQueue, song);
      songQueue := SpliceOne(songQueue, IndexOf(songQueue, song));
    }

    /** The synchronous part of `addToQueue`: what is appended now, which
        songs are marked as loading, which lookup is left running, and the
        immediate play for the sources that need no lookup. */
    method AddToQueue(song: Song, playNow: bool) returns (request: Request)
      requires playNow && PlaysAtOnce(song.source) && playStatus != Playing ==>
                 PlayableAt(songQueue + [song], currentSongNumber)
      modifies this, song
      ensures downloadQueue == old(downloadQueue)
      ensures songQueue == old(songQueue) + (if PushedAtOnce(song.source) then [song as Song?] else [])
      ensures request == RequestFor(song, playNow)
      ensures song.streamUrlLoading == (AwaitsStream(song.source) || old(song.streamUrlLoading))
      ensures song.streamUrl == old(song.streamUrl) && song.streamLength == old(song.streamLength)
      ensures PlayerState() ==
                if playNow && PlaysAtOnce(song.source)
                then Toggled(old(PlayerState()), UrlAt(songQueue, currentSongNumber))
                else old(PlayerState())
    {
      request := RequestFor(song, playNow);
      if song.source == Youtube {
        song.streamUrlLoading := true;
        songQueue := songQueue + [song];
      } else if song.source == YoutubePlaylists {
      } else if song.source == SoundCloud || song.source == Mp3Monkey {
        songQueue := songQueue + [song];
        if playNow {
          TogglePlay();
        }
      } else if song.source == Vimeo {
      } else if song.source == BandcampTrack {
        song.streamUrlLoading := true;
      } else if song.source == BandcampAlbum {
      }
    }

    /** What `AddEach(songs, playNow)` leaves behind. */
    twostate predicate AddedEach(songs: seq<Song>, playNow: bool, new requests: seq<Request>)
      reads this, songs, songQueue
    {
      && downloadQueue == old(downloadQueue)
      && songQueue == old(songQueue) + Immediate(songs)
      && |requests| == |songs|
      && (forall i :: 0 <= i < |songs| ==> requests[i] == RequestFor(songs[i], playNow && i == 0))
      && (forall s :: s in songs ==>
            && s.streamUrl == old(s.streamUrl) && s.streamLength == old(s.streamLength)
            && s.streamUrlLoading == (AwaitsStream(s.source) || old(s.streamUrlLoading)))
      && PlayerState() ==
           if playNow && |songs| > 0 && PlaysAtOnce(songs[0].source)
           then Toggled(old(PlayerState()), UrlAt(songQueue, currentSongNumber))
           else old(PlayerState())
    }

    /** The completion of a playlist or album lookup: `addToQueue` for each
        entry in order, with `playNow` passed on to the first entry only. */
    method AddEach(songs: seq<Song>, playNow: bool) returns (requests: seq<Request>)
      requires playNow && |songs| > 0 && PlaysAtOnce(songs[0].source) && playStatus != Playing ==>
                 PlayableAt(songQueue + [songs[0]], currentSongNumber)
      modifies this, songs
      ensures AddedEach(songs, playNow, requests)
    {
      requests := [];
      var toggled := playNow && |songs| > 0 && PlaysAtOnce(songs[0].source);
      for i := 0 to |songs|
        invariant downloadQueue == old(downloadQueue)
        invariant songQueue == old(songQueue) + Immediate(songs[..i])
        invariant |requests| == i
        invariant forall k :: 0 <= k < i ==> requests[k] == RequestFor(songs[k], playNow && k == 0)
        invariant forall s :: s in songs ==> s.streamUrl == old(s.streamUrl) && s.streamLength == old(s.streamLength)
        invariant forall s :: s in songs ==>
                    s.streamUrlLoading == ((AwaitsStream(s.source) && s in songs[..i]) || old(s.streamUrlLoading))
        invariant i == 0 ==> PlayerState() == old(PlayerState())
        invariant i > 0 ==>
                    PlayerState() == if toggled then Toggled(old(PlayerState()), UrlAt(songQueue, currentSongNumber))
                                     else old(PlayerState())
        invariant i > 0 && toggled && old(playStatus) != Playing ==> currentSongNumber < |songQueue|
      {
        ghost var queueBefore := songQueue;
        ghost var urlBefore := UrlAt(songQueue, currentSongNumber);
        assert songs[..i + 1] == songs[..i] + [songs[i]];
        ImmediateAppend(songs[..i], songs[i]);
        var request := AddToQueue(songs[i], playNow && i == 0);
        requests := requests + [request];
        if i > 0 && toggled && old(playStatus) != Playing {
          assert songQueue[currentSongNumber] == queueBefore[currentSongNumber];
          assert UrlAt(songQueue, currentSongNumber) == urlBefore;
        }
      }
      assert songs[..|songs|] == songs;
    }

    /** The bandcamp album callback: an error adds nothing; otherwise every
        track goes through `addToQueue`, the first with `playNow`. */
    method BandcampAlbumCallback(failed: bool, tracks: seq<Song>, playNow: bool) returns (requests: seq<Request>)
      requires !failed && playNow && |tracks| > 0 && PlaysAtOnce(tracks[0].source) && playStatus != Playing ==>
                 PlayableAt(songQueue + [tracks[0]], currentSongNumber)
      modifies this, tracks
      ensures failed ==> requests == [] && songQueue == old(songQueue) && PlayerState() == old(PlayerState())
      ensures failed ==> downloadQueue == old(downloadQueue) && unchanged(tracks)
      ensures !failed ==> AddedEach(tracks, playNow, requests)
    {
      if failed {
        requests := [];
        return;
      }
      requests := AddEach(tracks, playNow);
    }

    /** The vimeo callback appends the resolved video object itself. */
    method VimeoStreamCallback(video: Song, playNow: bool)
      requires playNow && playStatus != Playing ==> PlayableAt(songQueue + [video], currentSongNumber)
      modifies this
      ensures downloadQueue == old(downloadQueue)
      ensures songQueue == old(songQueue) + [video]
      ensures PlayerState() ==
                if playNow then Toggled(old(PlayerState()), UrlAt(songQueue, currentSongNumber))
                else old(PlayerState())
    {
      songQueue := songQueue + [video];
      if playNow {
        TogglePlay();
      }
    }

    /** The bandcamp track callback fills in the stream URL, then appends. */
    method BandcampTrackCallback(song: Song, streamUrl: string, playNow: bool)
      requires playNow && playStatus != Playing ==> PlayableAt(songQueue + [song], currentSongNumber)
      modifies this, song
      ensures downloadQueue == old(downloadQueue)
      ensures songQueue == old(songQueue) + [song]
      ensures song.streamUrl == Some(streamUrl) && !song.streamUrlLoading
      ensures song.streamLength == old(song.streamLength)
      ensures PlayerState() ==
                if playNow then Toggled(old(PlayerState()), UrlAt(songQueue, currentSongNumber))
                else old(PlayerState())
    {
      song.streamUrl := Some(streamUrl);
      song.streamUrlLoading := false;
      songQueue := songQueue + [song];
      if playNow {
        TogglePlay();
      }
    }

    /** The video-info callback: take the first itag-140 format's URL and length.
        When the lookup brought no such format (or no info at all) the source
        dereferences `undefined` and throws before changing anything; that is
        the FormatUnavailable outcome here. */
    method VideoInfoCallback(song: Song, playNow: bool, info: Option<seq<Format>>) returns (outcome: Outcome)
      requires playNow && playStatus != Playing && info.Some? && SelectFormat(info.value).Some? ==>
                 PlayableAt(songQueue, currentSongNumber)
      modifies this, song
      ensures QueuesUnchanged()
      ensures outcome == (if info.Some? && SelectFormat(info.value).Some? then Done else FormatUnavailable)
      ensures outcome == FormatUnavailable ==> unchanged(song) && PlayerState() == old(PlayerState())
      ensures outcome == Done ==>
                && song.streamUrl == Some(SelectFormat(info.value).value.url)
                && !song.streamUrlLoading
                && song.streamLength == Some(SelectFormat(info.value).value.clen)
                && PlayerState() ==
                     if playNow then Toggled(old(PlayerState()), UrlAt(songQueue, currentSongNumber))
                     else old(PlayerState())
    {
      if info.None? {
        return FormatUnavailable;
      }
      var format := SelectFormat(info.value);
      if format.None? {
        return FormatUnavailable;
      }
      song.streamUrl := Some(format.value.url);
      song.streamUrlLoading := false;
      song.streamLength := Some(format.value.clen);
      outcome := Done;
      if playNow {
        TogglePlay();
      }
    }

    /** Reset the queue and the playback fields. */
    method ClearQueue()
      modifies this
      ensures songQueue == [] && downloadQueue == old(downloadQueue)
      ensures PlayerState() == Cleared(old(PlayerState()))
      ensures playStatus == Stopped && currentSongNumber == 0 && currentSongPosition == 0.0
      ensures seekFromPosition == 0.0 && !songStreamLoading
    {
      playStatus := Stopped;
      songQueue := [];
      currentSongNumber := 0;
      currentSongPosition := 0.0;
      seekFromPosition := 0.0;
      songStreamLoading := false;
    }

    /** Clear, then add the song with `playNow` set. */
    method PlayNow(song: Song) returns (request: Request)
      modifies this, song
      ensures downloadQueue == old(downloadQueue)
      ensures songQueue == if PushedAtOnce(song.source) then [song as Song?] else []
      ensures request == RequestFor(song, true)
      ensures song.streamUrlLoading == (AwaitsStream(song.source) || old(song.streamUrlLoading))
      ensures song.streamUrl == old(song.streamUrl) && song.streamLength == old(song.streamLength)
      ensures PlayerState() ==
                if PlaysAtOnce(song.source) then Toggled(Cleared(old(PlayerState())), song.streamUrl)
                else Cleared(old(PlayerState()))
      ensures PlaysAtOnce(song.source) ==>
                playStatus == Playing && currentSongNumber == 0 && currentSongUrl == song.streamUrl
    {
      ClearQueue();
      songQueue := [];
      request := AddToQueue(song, true);
    }

    /** Append a new job for the song, queued and not started. */
    method AddToDownloads(song: Song) returns (job: DownloadJob)
      modifies this
      ensures fresh(job)
      ensures downloadQueue == old(downloadQueue) + [job]
      ensures job.source == song.source && job.id == song.id && job.title == song.title
      ensures job.status == Queued && job.length == song.streamLength
      ensures job.progress == 0 && job.progressUpdates == 0
      ensures songQueue == old(songQueue) && PlayerState() == old(PlayerState())
    {
      job := new DownloadJob(song.source, song.id, song.title, song.streamLength);
      downloadQueue := downloadQueue + [job];
    }

    /** The download's video-info callback records the itag-140 length. */
    method DownloadVideoInfoCallback(job: DownloadJob, info: Option<seq<Format>>) returns (outcome: Outcome)
      modifies job
      ensures outcome == (if info.Some? && SelectFormat(info.value).Some? then Done else FormatUnavailable)
      ensures outcome == FormatUnavailable ==> unchanged(job)
      ensures outcome == Done ==>
                && job.length == Some(SelectFormat(info.value).value.clen)
                && job.status == old(job.status)
                && job.Counts() == old(job.Counts())
    {
      if info.None? {
        return FormatUnavailable;
      }
      var format := SelectFormat(info.value);
      if format.None? {
        return FormatUnavailable;
      }
      job.length := Some(format.value.clen);
      outcome := Done;
    }

    /** Start every queued job and nothing else; returns the jobs whose
        transfers were started. Afterwards no job is queued, so a second call
        starts nothing. */
    method StartDownload() returns (started: seq<DownloadJob>)
      modifies downloadQueue
      ensures forall j :: j in downloadQueue ==>
                && j.status == Promoted(old(j.status))
                && Advances(old(j.status), j.status)
                && j.Counts() == old(j.Counts()) && j.length == old(j.length)
      ensures forall j :: j in started <==> j in downloadQueue && old(j.status) == Queued
      ensures forall j :: j in downloadQueue ==> j.status != Queued
    {
      started := [];
      for i := 0 to |downloadQueue|
        invariant forall j :: j in downloadQueue ==> j.Counts() == old(j.Counts()) && j.length == old(j.length)
        invariant forall j :: j in downloadQueue[..i] ==> j.status == Promoted(old(j.status))
        invariant forall j :: j in downloadQueue && j !in downloadQueue[..i] ==> j.status == old(j.status)
        invariant forall j :: j in started <==> j in downloadQueue[..i] && old(j.status) == Queued
      {
        var job := downloadQueue[i];
        assert downloadQueue[..i + 1] == downloadQueue[..i] + [job];
        if job.status == Queued {
          job.status := InProgress;
          started := started + [job];
        }
      }
      assert downloadQueue[..|downloadQueue|] == downloadQueue;
    }

    /** A chunk of a started transfer arrived: count its bytes and the chunk;
        the result says whether observers are refreshed. The transfer handlers
        are attached only once a job has been started, so it is not Queued. */
    method OnDownloadData(job: DownloadJob, chunkLength: nat) returns (refresh: bool)
      requires job.status != Queued
      modifies job
      ensures job.Counts() == Received(old(job.Counts()), chunkLength)
      ensures refresh == Refreshes(job.Counts())
      ensures job.status == old(job.status) && job.length == old(job.length)
    {
      job.progress := job.progress + chunkLength;
      job.progressUpdates := job.progressUpdates + 1;
      refresh := job.progressUpdates % RefreshEvery == 0;
    }

    /** The output file was written completely. */
    method OnDownloadFinish(job: DownloadJob)
      requires job.status != Queued
      modifies job
      ensures job.status == Finished
      ensures old(job.status) == InProgress ==> Advances(old(job.status), job.status)
      ensures job.Counts() == old(job.Counts()) && job.length == old(job.length)
    {
      job.status := Finished;
    }

    /** Writing the output file failed; the byte count stays where it was. */
    method OnDownloadError(job: DownloadJob)
      requires job.status != Queued
      modifies job
      ensures job.status == Error
      ensures old(job.status) == InProgress ==> Advances(old(job.status), job.status)
      ensures job.Counts() == old(job.Counts()) && job.length == old(job.length)
    {
      job.status := Error;
    }
  }

  /** Appending one more song to a list appends its immediate part. */
  lemma ImmediateAppend(songs: seq<Song>, s: Song)
    ensures Immediate(songs + [s]) == Immediate(songs) + (if PushedAtOnce(s.source) then [s as Song?] else [])
    decreases |songs|
  {
    if songs != [] {
      assert (songs + [s])[1..] == songs[1..] + [s];
      ImmediateAppend(songs[1..], s);
    }
  }
}

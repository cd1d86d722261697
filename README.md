# Home component of the nuclear music player, in Dafny

The `Home` React component of nuclear (`app/components/Home.js`) holds the
player's orchestration state under its UI and network glue. That state is:

- the play queue `songQueue` and the pointer into it, `currentSongNumber`;
- the playback fields (`playStatus`, `currentSongUrl`, `currentSongPosition`,
  `currentSongDuration`, `seekFromPosition`, `songStreamLoading`);
- the download queue `downloadQueue` of download jobs.

Its methods form a small, sequential state machine over this state. This project models that machine.

- `media.dfy` (module `Media`) defines the song source tags that `addToQueue`
  dispatches on, the video-info format list, and format selection (the first
  format with itag `140`). It also defines the `Song` object, which
  completion callbacks update in place.
- `play_queue.dfy` (module `PlayQueue`) covers `arrayMove`, which copies, pads
  with `undefined` and moves one element with two splices. It also covers the
  `indexOf`/`splice(i, 1)` pair behind `removeFromQueue`. A function gives each
  its value on sequences, and lemmas state what that value is: a permutation,
  relative order, padding, and which element a fixed position holds afterwards.
  `arrayMove` is also a method with its padding loop.
- `playback.dfy` (module `Playback`) holds the playback fields as one value.
  The transitions of `togglePlay`, `changeSong`, `nextSong`, `prevSong`,
  `songFinishedPlayingCallback`, `clearQueue` and the player callbacks are
  functions on that value. Lemmas about repeated next/previous presses and
  repeated "finished" events show the clamping and the auto-advance.
- `downloads.dfy` (module `Downloads`) covers the download job object, its
  status order, and the per-chunk accounting. It proves what a run of chunks
  does to `progress`, to `progressUpdates` and to the number of observer refreshes.
- `home.dfy` (module `Component`) has class `Home` with the state fields. Each
  component method and each asynchronous completion callback is a method on it,
  and its `ensures` ties the new state to the old one through the functions above.

Each `setState` is an immediate assignment. The JavaScript `undefined` that
`arrayMove` pads with is `null` in the queue (`seq<Song?>`). A stream URL that
is still unresolved is `None`.

Everything outside the component is an argument of the completion method that
receives it. This covers the network lookups (`ytdl.getInfo`, the YouTube
playlist, Vimeo and Bandcamp clients), the audio player's callbacks and the
transfer stream events. `AddToQueue` returns a `Request` naming the lookup it
leaves running and the callback that completes it.

Where the code throws by reading `.data` of a queue entry that is missing or
`undefined`, the model has a precondition. There are two exceptions, and in
both the code throws before changing anything:

- A video-info format list without itag `140`. The model returns the
  `FormatUnavailable` outcome, with the state unchanged.
- The error branch of the Bandcamp album lookup. It calls `showAlertError` as a
  bare name, but the component defines that name only as a method. Unless a
  global of that name exists, the branch throws a `ReferenceError`.
  `BandcampAlbumCallback` with `failed` set returns normally, with nothing
  added and nothing changed.

In four places the code does something other than what one might expect of a
music player. The model follows the code:

- One might expect reordering or removing entries to recompute the current
  index so that it keeps naming the same song. The code does not.
  `changeQueueOrder` updates `currentSongNumber` only when the moved entry was
  the current one. `removeFromQueue` never touches it. `MovedElsewhere` and
  `RemovedElsewhere` state which entry the unchanged number names afterwards.
- One might expect a failed download to freeze `progress`. The code's `data`
  handler never looks at the status. The `error` event it listens for belongs
  to the output file stream, not the network stream. `OnDownloadError` leaves
  the counts unchanged, and `OnDownloadData` does not check the status.
- One might expect a missing preferred format to fail explicitly. The code
  throws a `TypeError`, which the model treats as an explicit failure.
- One might expect fan-out entries to be appended in source order. The code
  appends YouTube, SoundCloud and mp3monkey children at once, in order. Vimeo
  and Bandcamp-track children are appended only when their own lookups complete.

## Model

| member | source | states |
|---|---|---|
| Media.SelectFormat | app/components/Home.js:150 | the chosen format is the first with itag 140; None exactly when no format has itag 140 |
| PlayQueue.ArrayMove | app/components/Home.js:125-135 | the copy-pad-splice procedure returns exactly `Moved(arr, previousIndex, newIndex, undefined)`, and the input is not modified (it is a value) |
| PlayQueue.MovedIsMove | app/components/Home.js:125-135 | with both indexes in range: same length, same multiset, the element from `previousIndex` lands at `newIndex`, and removing it leaves the other elements in their original relative order |
| PlayQueue.MovedPadded | app/components/Home.js:127-133 | with `newIndex` past the end: length `newIndex + 1`, the moved element last, filler `undefined` between it and the remaining elements |
| PlayQueue.MovedFromNowhere | app/components/Home.js:133 | when `previousIndex` is past the padded copy, nothing is removed and `undefined` is inserted at `newIndex` |
| PlayQueue.MovedElsewhere | app/components/Home.js:137-147 | an index other than the moved one now holds the moved element (if it is `newIndex`), its neighbour (if strictly between the two indexes), or its own element |
| PlayQueue.IndexOf | app/components/Home.js:179 | `indexOf` returns the first index holding the value, and -1 exactly when the value is absent |
| PlayQueue.RemovedSpec | app/components/Home.js:178-181 | a present song: its first occurrence is removed and the multiset loses exactly it; an absent song: `splice(-1, 1)` removes the last entry; an empty queue stays empty |
| PlayQueue.RemovedElsewhere | app/components/Home.js:178-181 | after a removal, positions before the removed one keep their entry and later ones hold the following entry |
| Playback.ToggleTwiceResumes | app/components/Home.js:316-324 | toggling twice from Playing is Playing again on the current stream, seeking to the last reported position |
| Playback.NextClamps | app/components/Home.js:102-107 | k next presses reach index `min(cur + k, length - 1)` with that entry's URL; no wraparound, status and position untouched |
| Playback.PrevClamps | app/components/Home.js:109-111 | k previous presses reach index `max(cur - k, 0)` with that entry's URL; no wraparound |
| Playback.PlayThrough | app/components/Home.js:79-100 | k finished events from entry c load entry `min(c + k, last)` with position and seek 0; the status is kept until the last entry finishes, then Stopped with the index on the last entry |
| Downloads.PromotedAdvances | app/components/Home.js:259-261 | starting moves Queued to InProgress, keeps every other status, never leaves a job Queued, and is idempotent |
| Downloads.ChunkAccounting | app/components/Home.js:264-269 | over any run of chunks, `progress` grows by exactly their total size and `progressUpdates` by their number; observers are refreshed `(u + n) / 10 - u / 10` times |
| Component.ImmediateKeepsAll | app/components/Home.js:192-199 | a playlist whose entries are all appended at once is appended whole, in playlist order |
| Component.Home.constructor | app/components/Home.js:32-48 | empty queues, Stopped, index 0, URL `''`, positions 0, not loading |
| Component.Home.SongLoadingCallback | app/components/Home.js:64-66 | `songStreamLoading` becomes the negation of `loaded`; nothing else changes |
| Component.Home.SongPlayingCallback | app/components/Home.js:68-77 | position and duration are recorded and loading is cleared; the queues are unchanged |
| Component.Home.TogglePlay | app/components/Home.js:316-336 | from Playing: Stopped. Otherwise (needs a current entry): Playing, URL of the current entry, seek to the last reported position. Playing is never entered without a current entry |
| Component.Home.ChangeSong | app/components/Home.js:113-123 | afterwards `currentSongNumber == num` and `currentSongUrl` is entry num's stream URL |
| Component.Home.NextSong | app/components/Home.js:102-107 | changes to `min(cur + 1, length - 1)` |
| Component.Home.PrevSong | app/components/Home.js:109-111 | changes to `max(cur - 1, 0)` |
| Component.Home.SongFinishedPlayingCallback | app/components/Home.js:79-100 | position and seek become 0; on the last entry the status is Stopped and the index unchanged, otherwise the index advances by exactly one and the status is kept |
| Component.Home.ChangeQueueOrder | app/components/Home.js:137-147 | the queue becomes the `arrayMove` result; the index becomes `newIndex` when the moved entry was current, so the same song stays current, and is otherwise unchanged as a number |
| Component.Home.RemoveFromQueue | app/components/Home.js:178-181 | the queue becomes the `splice(indexOf(song), 1)` result: the song is removed from the multiset if present, the last entry is dropped if absent; playback fields untouched |
| Component.Home.AddToQueue | app/components/Home.js:183-231 | YouTube, SoundCloud and mp3monkey songs are appended at once; YouTube and Bandcamp-track songs are marked loading; SoundCloud and mp3monkey honour `playNow` by toggling; the returned request names the pending lookup; unknown sources change nothing |
| Component.Home.AddEach | app/components/Home.js:193-199 | every entry goes through `addToQueue` in order, `playNow` reaches only entry 0, and the queue grows by exactly the immediately appended entries in order |
| Component.Home.BandcampAlbumCallback | app/components/Home.js:217-227 | an error adds nothing, starts nothing and leaves the tracks untouched; otherwise as `AddEach` on the tracks |
| Component.Home.VimeoStreamCallback | app/components/Home.js:203-208 | the resolved video is appended, then toggled if `playNow` |
| Component.Home.BandcampTrackCallback | app/components/Home.js:209-216 | the stream URL is set and loading cleared, then the song is appended and toggled if `playNow` |
| Component.Home.VideoInfoCallback | app/components/Home.js:149-156 | with an itag-140 format: URL and length set from it, loading cleared, toggled if `playNow`; without one: FormatUnavailable and nothing changes |
| Component.Home.ClearQueue | app/components/Home.js:239-248 | Stopped, empty queue, index 0, position 0, seek 0, not loading; downloads untouched |
| Component.Home.PlayNow | app/components/Home.js:233-237 | the queue becomes just this song (or empty until its lookup completes); a SoundCloud or mp3monkey song starts playing its own stream at index 0; the song keeps its URL and length, and a YouTube song is marked as loading |
| Component.Home.AddToDownloads | app/components/Home.js:292-314 | a fresh job is appended: Queued, progress 0, 0 updates, and the song's id, title, source and stream length |
| Component.Home.DownloadVideoInfoCallback | app/components/Home.js:163-167 | with an itag-140 format the job's length becomes its `clen`; otherwise FormatUnavailable and the job is unchanged |
| Component.Home.StartDownload | app/components/Home.js:258-290 | exactly the Queued jobs become InProgress and are returned as started; other statuses and all counts are unchanged; no job is left Queued, so a second call starts nothing |
| Component.Home.OnDownloadData | app/components/Home.js:264-270 | for a started job, `progress` grows by the chunk length and `progressUpdates` by one; observers are refreshed exactly when the new count is a multiple of 10 |
| Component.Home.OnDownloadFinish | app/components/Home.js:278-281 | the job, already started, is Finished, and a job in progress has advanced; counts unchanged |
| Component.Home.OnDownloadError | app/components/Home.js:282-285 | the job, already started, is Error, and a job in progress has advanced; counts unchanged |

## Left out

- Rendering, `Link`, `AlertContainer`, `Sound`, the global `msg` alerts and `toggleMainContents`/`toggleSidebarContents` are left out. They are UI.
- Last.fm scrobbling and the artist/track heuristic are left out. The calls go to foreign code that is not part of this model.
- `ytdl`, `ytdl.getInfo` and the YouTube, Vimeo and Bandcamp clients are not part of this model. Their results arrive as arguments of the completion methods. The `youtubeFetchVideoDetails` call made for each playlist entry is left out for the same reason.
- The output file and its path (`fs.createWriteStream`, `path.join`) are left out. Only their `finish` and `error` events are modelled.
- `seekFrom` and the rounded progress percentage of `songPlayingCallback` are left out, because they use floating-point arithmetic.
- `videoInfoThenPlayCallback` and `addFromPlaylistCallback` are left out. They pass arguments that do not match the callee's parameters, and nothing in the component calls them.
- The order in which asynchronous completions arrive is an input. The model does not capture React's batching of `setState`. For example, with batching, `playNow` while playing could read the old PLAYING status in `togglePlay`.
- `clen` is a decimal string in the lookup result and a byte count here.
- The `err` argument of the video-info callbacks is ignored by the code. A failed lookup is `None` info, which ends in the same FormatUnavailable outcome.
- `Component.Home.ChangeQueueOrder`: negative indexes are excluded by the `nat` parameter type; the sortable list only produces non-negative ones.
- `Component.Home.TogglePlay`, `Component.Home.ChangeSong`, `Component.Home.NextSong`, `Component.Home.PrevSong`, `Component.Home.SongFinishedPlayingCallback`: they require the entry they read to exist and not be padding, because the code throws a `TypeError` there.
- `Component.Home.AddToQueue`, `Component.Home.AddEach`, `Component.Home.VimeoStreamCallback`, `Component.Home.BandcampTrackCallback`, `Component.Home.VideoInfoCallback`, `Component.Home.BandcampAlbumCallback`: with `playNow` they have the same requirement, for the `togglePlay` they call.
- `Component.Home.OnDownloadData`, `Component.Home.OnDownloadFinish`, `Component.Home.OnDownloadError`: they require a job that is not Queued, because the handlers are attached only after `startDownload` sets it to in progress. A job already Finished or Error can still receive a later event, because the code does not guard against it. The status order `Advances` is then promised only for a job in progress.

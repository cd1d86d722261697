/** Songs, their sources and the format lists that a video-info lookup returns. */
module Media {

  datatype Option<T> = None | Some(value: T)

  /** Result of a completion callback: it either went through or failed because
      no stream in the preferred format was offered. */
  datatype Outcome = Done | FormatUnavailable

  /** The `source` tag of a song object; `addToQueue` dispatches on it.
      Any other tag is `Unrecognised`; its `tag` is never one of the seven
      recognised ones, which always take their own constructor. */
  datatype Source =
    | Youtube
    | YoutubePlaylists
    | SoundCloud
    | Mp3Monkey
    | Vimeo
    | BandcampTrack
    | BandcampAlbum
    | Unrecognised(tag: string)

  /** One entry of the `formats` list of a video-info lookup:
      its `itag`, its stream `url` and its content length `clen` in bytes. */
  datatype Format = Format(itag: string, url: string, clen: nat)

  /** The only format the player and the downloader accept (AAC audio). */
  const PreferredItag: string := "140"

  /** Format `i` is the first one in the list with the preferred itag. */
  predicate FirstPreferred(formats: seq<Format>, i: nat)
  {
    i < |formats| && formats[i].itag == PreferredItag &&
    forall k :: 0 <= k < i ==> formats[k].itag != PreferredItag
  }

  /** `info.formats.filter(e => e.itag == '140')[0]`: the first format with the
      preferred itag, or None where the JavaScript would read `undefined`. */
  function SelectFormat(formats: seq<Format>): (r: Option<Format>)
    ensures r.None? <==> forall k :: 0 <= k < |formats| ==> formats[k].itag != PreferredItag
    ensures r.Some? ==> exists i: nat :: FirstPreferred(formats, i) && formats[i] == r.value
  {
    if |formats| == 0 then None
    else if formats[0].itag == PreferredItag then
      assert FirstPreferred(formats, 0);
      Some(formats[0])
    else
      var rest := SelectFormat(formats[1..]);
      assert rest.Some? ==> exists i: nat :: FirstPreferred(formats, i) && formats[i] == rest.value by {
        if rest.Some? {
          var i: nat :| FirstPreferred(formats[1..], i) && formats[1..][i] == rest.value;
          forall k | 0 < k < i + 1 ensures formats[k].itag != PreferredItag {
            assert formats[k] == formats[1..][k - 1];
          }
          assert FirstPreferred(formats, i + 1);
        }
      }
      rest
  }

  /** A song object: `source` plus the fields of its `data` record.
      `streamUrl` is None while the stream is still unresolved (`undefined`). */
  class Song {
    const source: Source
    const id: string
    const title: string
    var streamUrl: Option<string>
    var streamUrlLoading: bool
    var streamLength: Option<nat>

    constructor (source: Source, id: string, title: string, streamUrl: Option<string>)
      ensures this.source == source && this.id == id && this.title == title
      ensures this.streamUrl == streamUrl && !streamUrlLoading && streamLength == None
    {
      this.source := source;
      this.id := id;
      this.title := title;
      this.streamUrl := streamUrl;
      streamUrlLoading := false;
      streamLength := None;
    }
  }
}

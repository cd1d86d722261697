/** Download jobs: the objects `addToDownloads` creates and `startDownload` and
    its transfer callbacks update in place, and the per-chunk accounting. */
module Downloads {
  import opened Media

  /** `DownloadQueueStatusEnum`. */
  datatype Status = Queued | InProgress | Finished | Error

  /** What `startDownload` does to one job's status: only a queued job starts. */
  function Promoted(s: Status): Status
  {
    if s == Queued then InProgress else s
  }

  /** The order a job's status moves in: queued, in progress, then finished or
      failed; a status may also stay as it is. */
  predicate Advances(s: Status, t: Status)
  {
    || s == t
    || (s == Queued && t == InProgress)
    || (s == InProgress && (t == Finished || t == Error))
  }

  /** Starting a job advances its status, and starting it again changes nothing. */
  lemma PromotedAdvances(s: Status)
    ensures Advances(s, Promoted(s)) && Promoted(s) != Queued
    ensures Promoted(Promoted(s)) == Promoted(s)
  {
  }

  /** A job's byte count `progress` and chunk count `progressUpdates`. */
  datatype Tally = Tally(progress: nat, updates: nat)

  /** Observers are refreshed once per this many chunks. */
  const RefreshEvery: nat := 10

  /** The `data` handler's accounting for one chunk of `size` bytes. */
  function Received(t: Tally, size: nat): Tally
  {
    Tally(t.progress + size, t.updates + 1)
  }

  /** Whether the `data` handler refreshes observers after reaching tally `t`. */
  predicate Refreshes(t: Tally)
  {
    t.updates % RefreshEvery == 0
  }

  /** The tally after the chunks `sizes` arrive in order. */
  function ReceivedAll(t: Tally, sizes: seq<nat>): Tally
    decreases |sizes|
  {
    if sizes == [] then t else ReceivedAll(Received(t, sizes[0]), sizes[1..])
  }

  /** How many of the chunks `sizes` are followed by a refresh. */
  function RefreshCount(t: Tally, sizes: seq<nat>): nat
    decreases |sizes|
  {
    if sizes == [] then 0
    else
      var next := Received(t, sizes[0]);
      (if Refreshes(next) then 1 else 0) + RefreshCount(next, sizes[1..])
  }

  /** The number of bytes in the chunks `sizes`. */
  function Sum(sizes: seq<nat>): nat
    decreases |sizes|
  {
    if sizes == [] then 0 else sizes[0] + Sum(sizes[1..])
  }

  /** One more chunk crosses a multiple of ten exactly when the new count is one. */
  lemma RefreshStep(u: nat)
    ensures (u + 1) / RefreshEvery - u / RefreshEvery == if (u + 1) % RefreshEvery == 0 then 1 else 0
  {
  }

  /** Over any run of chunks, `progress` grows by exactly their total size,
      `progressUpdates` by their number, and observers are refreshed once per
      multiple of ten that the chunk count passes. */
  lemma {:induction false} ChunkAccounting(t: Tally, sizes: seq<nat>)
    ensures ReceivedAll(t, sizes) == Tally(t.progress + Sum(sizes), t.updates + |sizes|)
    ensures RefreshCount(t, sizes) == (t.updates + |sizes|) / RefreshEvery - t.updates / RefreshEvery
    decreases |sizes|
  {
    if sizes != [] {
      ChunkAccounting(Received(t, sizes[0]), sizes[1..]);
      RefreshStep(t.updates);
    }
  }

  /** A download job object. Its title, id and source are copied from the song
      it was created for; the other fields change as the transfer goes on. */
  class DownloadJob {
    const source: Source
    const id: string
    const title: string
    var status: Status
    var length: Option<nat>
    var progress: nat
    var progressUpdates: nat

    /** The job's byte and chunk counts. */
    function Counts(): Tally
      reads this
    {
      Tally(progress, progressUpdates)
    }

    /** The object literal of `addToDownloads`. */
    constructor (source: Source, id: string, title: string, length: Option<nat>)
      ensures this.source == source && this.id == id && this.title == title
      ensures this.length == length && status == Queued && progress == 0 && progressUpdates == 0
    {
      this.source := source;
      this.id := id;
      this.title := title;
      this.length := length;
      status := Queued;
      progress := 0;
      progressUpdates := 0;
    }
  }
}

/**
 * The copy-state rows: the guarded transition with its trail event and patch, and every
 * write the api and the two worker roles make through it.
 */
module VideoState {
  import opened Domain
  import opened VideoStatus

  type VideoId = nat

  /** A VideoStatusEvent on the COPY axis. */
  datatype Hop = Hop(old_: CopyState, new_: CopyState)

  datatype Video = Video(
    copy: CopyState,
    mediaExt: Option<string>,
    sizeBytes: Option<nat>,
    checksum: Option<string>,
    nextCheckAt: Option<int>,
    deadlineAt: Option<int>,
    trail: seq<Hop>)

  /** One column of an update: left out, or set (to null when the value is None). */
  datatype Field<+T> = Keep | Set(value: Option<T>)

  datatype Patch = Patch(
    mediaExt: Field<string>,
    sizeBytes: Field<nat>,
    checksum: Field<string>,
    nextCheckAt: Field<int>,
    deadlineAt: Field<int>)

  const NO_PATCH := Patch(Keep, Keep, Keep, Keep, Keep)

  datatype Outcome = Transitioned | Lost | IllegalTransition

  function Applied<T>(f: Field<T>, current: Option<T>): Option<T> {
    if f.Set? then f.value else current
  }

  function Patched(v: Video, p: Patch): Video {
    v.(mediaExt := Applied(p.mediaExt, v.mediaExt),
       sizeBytes := Applied(p.sizeBytes, v.sizeBytes),
       checksum := Applied(p.checksum, v.checksum),
       nextCheckAt := Applied(p.nextCheckAt, v.nextCheckAt),
       deadlineAt := Applied(p.deadlineAt, v.deadlineAt))
  }

  /** The row after a transition that won its guard. */
  function Hopped(v: Video, to: CopyState, p: Patch): Video {
    Patched(v, p).(copy := to, trail := v.trail + [Hop(v.copy, to)])
  }

  // ---------------------------------------------------------------- call sites --

  /** Every write of copyState, and the one cursor write, with the state it was decided on. */
  datatype Write =
    | Enqueue(from: CopyState)                          // api: the queue service
    | LiveDetected(from: CopyState)                     // live probe
    | GiveBackQueued                                    // cancel, rejected add, stall verdict, boot sweep
    | Begin                                             // download and capture pickup, close-out
    | GiveBackDownloading                               // cancel, boot sweep
    | HandBack                                          // capture stalled, drained or crashed
    | FailDownload
    | PublishForVerify(ext: string, size: nat)          // download; finished capture
    | PublishPartial(ext: string, size: nat)            // interrupted capture, close-out
    | Park(ext: string, size: nat, nextCheck: int, deadline: int)
    | ResolveVerified
    | ResolvePartial
    | Defer(nextCheck: int)
    | Verified(checksum: string)
    | VerifyFailed
    | Reclaim(from: CopyState)                          // api: delete the media, keep the row

  /** What the code reads and checks before it issues the write. */
  predicate Issued(w: Write) {
    match w
    case Enqueue(from) => Enqueueable(from)
    case LiveDetected(from) => from == Candidate || from == Failed
    case Reclaim(from) => from == Healthy || from == PartialKept
    case _ => true
  }

  function From(w: Write): CopyState {
    match w
    case Enqueue(from) => from
    case LiveDetected(from) => from
    case GiveBackQueued => Queued
    case Begin => Queued
    case ResolveVerified => AwaitingVerify
    case ResolvePartial => AwaitingVerify
    case Defer(_) => AwaitingVerify
    case Verified(_) => Verifying
    case VerifyFailed => Verifying
    case Reclaim(from) => from
    case _ => Downloading
  }

  function To(w: Write): CopyState {
    match w
    case Enqueue(_) => Queued
    case LiveDetected(_) => Queued
    case GiveBackQueued => Candidate
    case Begin => Downloading
    case GiveBackDownloading => Candidate
    case HandBack => Queued
    case FailDownload => Failed
    case PublishForVerify(_, _) => Verifying
    case PublishPartial(_, _) => PartialKept
    case Park(_, _, _, _) => AwaitingVerify
    case ResolveVerified => Verifying
    case ResolvePartial => PartialKept
    case Defer(_) => AwaitingVerify
    case Verified(_) => Healthy
    case VerifyFailed => Failed
    case Reclaim(_) => Candidate
  }

  function PatchOf(w: Write): Patch {
    match w
    case PublishForVerify(ext, size) => NO_PATCH.(mediaExt := Set(Some(ext)), sizeBytes := Set(Some(size)))
    case PublishPartial(ext, size) => NO_PATCH.(mediaExt := Set(Some(ext)), sizeBytes := Set(Some(size)))
    case Park(ext, size, nextCheck, deadline) =>
      Patch(Set(Some(ext)), Set(Some(size)), Keep, Set(Some(nextCheck)), Set(Some(deadline)))
    case ResolveVerified => NO_PATCH.(nextCheckAt := Set(None), deadlineAt := Set(None))
    case ResolvePartial => NO_PATCH.(nextCheckAt := Set(None), deadlineAt := Set(None))
    case Defer(nextCheck) => NO_PATCH.(nextCheckAt := Set(Some(nextCheck)))
    case Verified(checksum) => NO_PATCH.(checksum := Set(Some(checksum)))
    case Reclaim(_) => NO_PATCH.(mediaExt := Set(None), sizeBytes := Set(None), checksum := Set(None))
    case _ => NO_PATCH
  }

  /** The write's effect on its row: nothing unless the row is still in the state it expects. */
  function Written(v: Video, w: Write): Video {
    if v.copy != From(w) then v
    else if w.Defer? then Patched(v, PatchOf(w))
    else Hopped(v, To(w), PatchOf(w))
  }

  // -------------------------------------------------------------- the services --

  class Store {
    var videos: map<VideoId, Video>

    constructor ()
      ensures videos == map[]
    {
      videos := map[];
    }

    /**
     * The worker's transitionCopy, and the api's applyTransition with an empty patch. An
     * illegal pair is refused before anything is read.
     */
    method TransitionCopy(id: VideoId, expectedFrom: CopyState, to: CopyState, patch: Patch) returns (r: Outcome)
      modifies this
      ensures r.IllegalTransition? <==> !Allowed(expectedFrom, to)
      ensures r.Transitioned? <==>
              (Allowed(expectedFrom, to) && id in old(videos) && old(videos)[id].copy == expectedFrom)
      ensures videos == if r.Transitioned? then old(videos)[id := Hopped(old(videos)[id], to, patch)] else old(videos)
    {
      if !Allowed(expectedFrom, to) { return IllegalTransition; }
      if id !in videos { return Lost; }
      var video := videos[id];
      if video.copy != expectedFrom { return Lost; }
      var event := Hop(expectedFrom, to);
      videos := videos[id := Patched(video, patch).(copy := to, trail := video.trail + [event])];
      return Transitioned;
    }

    /** deferRecheck: a cursor bump that changes no state. */
    method DeferRecheck(id: VideoId, nextCheck: int)
      modifies this
      ensures videos == if id in old(videos) then old(videos)[id := Written(old(videos)[id], Defer(nextCheck))]
          else old(videos)
    {
      if id in videos && videos[id].copy == AwaitingVerify {
        videos := videos[id := videos[id].(nextCheckAt := Some(nextCheck))];
      }
    }

    /** One write of any process. No call site ever asks for an illegal pair. */
    method Perform(id: VideoId, w: Write) returns (r: Outcome)
      requires Issued(w)
      modifies this
      ensures !r.IllegalTransition?
      ensures videos == if id in old(videos) then old(videos)[id := Written(old(videos)[id], w)] else old(videos)
    {
      if w.Defer? {
        DeferRecheck(id, w.nextCheck);
        r := Lost;
      } else {
        r := TransitionCopy(id, From(w), To(w), PatchOf(w));
      }
    }
  }

  // -------------------------------------------------------------------- histories --

  /** The events are allowed hops, each starting where the one before it ended. */
  ghost predicate Chain(trail: seq<Hop>, last: CopyState) {
    && (forall k | 0 <= k < |trail| :: Allowed(trail[k].old_, trail[k].new_))
    && (forall k | 0 < k < |trail| :: trail[k].old_ == trail[k - 1].new_)
    && (if trail == [] then last == Candidate
        else trail[0].old_ == Candidate && trail[|trail| - 1].new_ == last)
  }

  predicate HoldsMedia(c: CopyState) {
    c == Verifying || c == AwaitingVerify || c == Healthy || c == PartialKept
  }

  ghost predicate Consistent(v: Video) {
    && Chain(v.trail, v.copy)
    && (HoldsMedia(v.copy) ==> v.mediaExt.Some? && v.sizeBytes.Some?)
    && (v.mediaExt.Some? <==> v.sizeBytes.Some?)
    && (v.checksum.Some? <==> v.copy == Healthy)
    && (v.deadlineAt.Some? <==> v.copy == AwaitingVerify)
    && (v.nextCheckAt.Some? <==> v.copy == AwaitingVerify)
    && (forall k | 0 <= k < |v.trail| && v.trail[k].old_ == AwaitingVerify ::
          v.trail[k].new_ == Verifying || v.trail[k].new_ == PartialKept)
  }

  /** A video as enumeration or the live probe inserts it. */
  const DISCOVERED := Video(Candidate, None, None, None, None, None, [])

  function WrittenAll(v: Video, writes: seq<Write>): Video
    decreases |writes|
  {
    if writes == [] then v else WrittenAll(Written(v, writes[0]), writes[1..])
  }

  lemma WriteKeepsConsistent(v: Video, w: Write)
    requires Issued(w) && Consistent(v)
    ensures Consistent(Written(v, w))
  {
    if v.copy == From(w) && !w.Defer? {
      ChainExtends(v.trail, v.copy, To(w));
    }
  }

  lemma ChainExtends(trail: seq<Hop>, last: CopyState, to: CopyState)
    requires Chain(trail, last) && Allowed(last, to)
    ensures Chain(trail + [Hop(last, to)], to)
  {}

  /**
   * However the writes of the api and the workers interleave, and however many of them
   * lose their guard: the COPY events are an unbroken chain of allowed hops from CANDIDATE
   * to the current state; states that claim media have it; a checksum is recorded exactly
   * while the copy is HEALTHY; the completeness deadline and cursor are set exactly while
   * it is parked; and it is unparked only into VERIFYING or PARTIAL_KEPT.
   */
  lemma {:induction false} HistoriesStayConsistent(v: Video, writes: seq<Write>)
    requires Consistent(v) && forall w | w in writes :: Issued(w)
    ensures Consistent(WrittenAll(v, writes))
    decreases |writes|
  {
    if writes != [] {
      WriteKeepsConsistent(v, writes[0]);
      HistoriesStayConsistent(Written(v, writes[0]), writes[1..]);
    }
  }

  /** So every video, from its discovery on, is consistent. */
  lemma VideosStayConsistent(writes: seq<Write>)
    requires forall w | w in writes :: Issued(w)
    ensures Consistent(WrittenAll(DISCOVERED, writes))
  {
    HistoriesStayConsistent(DISCOVERED, writes);
  }

  /** The table allows two hops that no code makes. */
  lemma UnusedHops(w: Write)
    requires Issued(w)
    ensures !(From(w) == AwaitingVerify && To(w) == Failed) && !(From(w) == Healthy && To(w) == Verifying)
    ensures Allowed(AwaitingVerify, Failed) && Allowed(Healthy, Verifying)
  {}
}

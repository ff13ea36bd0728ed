/** The copy-state lifecycle: the transition table and its guarded event draft. */
module VideoStatus {
  import opened Domain

  predicate Allowed(from: CopyState, to: CopyState) {
    match from
    case Candidate => to == Queued
    case Queued => to == Downloading || to == Candidate
    case Downloading =>
      to == Verifying || to == Failed || to == PartialKept || to == Candidate || to == Queued ||
      to == AwaitingVerify
    case Verifying => to == Healthy || to == Failed
    case Healthy => to == Verifying || to == Candidate
    case Failed => to == Queued
    case PartialKept => to == Queued || to == Candidate
    case AwaitingVerify => to == Verifying || to == PartialKept || to == Failed
  }

  /** States in which a download claims the video. */
  predicate InFlight(c: CopyState) {
    c == Queued || c == Downloading
  }

  predicate Enqueueable(c: CopyState) {
    c == Candidate || c == Failed || c == PartialKept
  }
}

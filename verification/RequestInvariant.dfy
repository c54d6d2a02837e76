/** What the requests in flight satisfy in every reachable state. */
module RequestInvariant {
  import opened Prelude
  import opened Content
  import opened Durable
  import opened Session
  import opened World
  import opened TableInvariant

  predicate ReadyShape(u: Id, r: Ready) {
    StagedBy(u, r.staged) && r.final == ObjectOf(r.path, r.hash)
  }

  predicate RowIs(t: Tables, r: Ready, c: Candidate) {
    && (r.account, r.hash) in t.content && t.content[(r.account, r.hash)] == c.id
    && c.id in t.blobs && t.blobs[c.id] == Blob(r.account, r.hash, c.size, c.key) && c.hash == r.hash
  }

  /** What holds of a request whatever became of its upload. */
  predicate PcShape(t: Tables, u: Id, pc: Pc) {
    match pc
    case CheckingFinal(r) => ReadyShape(u, r)
    case OpeningStage(r) => ReadyShape(u, r) && r.staged.Some?
    case Writing(r, k, _) => ReadyShape(u, r) && r.staged.Some? && k <= |r.manifest.parts|
    case Advancing(r) => ReadyShape(u, r)
    case Rechecking(r) => ReadyShape(u, r)
    case CheckingStage(r) => ReadyShape(u, r) && r.staged.Some?
    case Linking(r) => ReadyShape(u, r) && r.staged.Some?
                       && (r.staged.value in t.files ==> Fits(t.files[r.staged.value], r.size, r.hash))
    case Verifying(r) => ReadyShape(u, r)
    case Looking(r, round, _) => ReadyShape(u, r) && round < ROUNDS
    case Vetting(r, round, _, _) => ReadyShape(u, r) && round < ROUNDS
    case Recording(r, round, _) => ReadyShape(u, r) && round < ROUNDS
    case Tidying(r, _, _) => ReadyShape(u, r) && r.staged.Some?
    case Discarding(r) => ReadyShape(u, r)
    case Confirming(r, _, _) => ReadyShape(u, r)
    case _ => true
  }

  predicate InPhase(t: Tables, u: Id, r: Ready, phase: Phase)
    requires u in t.uploads
  {
    t.uploads[u].phase == phase && Current(t.uploads[u], r)
  }

  /** What holds while the upload's row exists. */
  predicate PcSound(t: Tables, u: Id, pc: Pc)
    requires u in t.uploads
  {
    var upload := t.uploads[u];
    match pc
    case Loading => true
    case Counting => upload.phase == Receiving
    case Beginning => upload.phase == Receiving && AllReceived(upload)
    case Reloading => PreCommit(upload)
    case CheckingFinal(r) => InPhase(t, u, r, CommitStarted)
    case OpeningStage(r) => InPhase(t, u, r, CommitStarted)
    case Writing(r, _, _) => InPhase(t, u, r, CommitStarted)
    case Failing => upload.phase == CommitStarted
    case Advancing(r) => InPhase(t, u, r, CommitStarted)
    case Rechecking(r) => InPhase(t, u, r, Finalizing)
    case CheckingStage(r) => InPhase(t, u, r, Finalizing)
    case Linking(r) => InPhase(t, u, r, Finalizing)
    case Verifying(r) => InPhase(t, u, r, Finalizing)
    case Looking(r, round, approved) =>
      && Proven(t, u, r) && (approved.Some? ==> RowIs(t, r, approved.value))
      && (round == 0 || (round == 1 && approved.Some?))
    case Vetting(r, round, c, again) =>
      && Proven(t, u, r) && RowIs(t, r, c) && (round == 0 || (round == 1 && !again))
    case Recording(r, round, approved) =>
      && Proven(t, u, r) && (approved.Some? ==> RowIs(t, r, approved.value))
      && (round == 0 || (round == 1 && approved.Some?))
    case Tidying(r, outcome, _) =>
      && upload.phase == Committed && r.staged == upload.staged
      && upload.resource.Some? && outcome == Ok(upload.resource.value, upload.asset, upload.deduplicated)
    case Discarding(_) => upload.phase == Failed(true)
    case Confirming(r, resource, deduplicated) =>
      && InPhase(t, u, r, Committed)
      && upload.resource == Some(resource) && upload.deduplicated == deduplicated
    case Done(reply) => ReplyFits(upload, reply)
  }

  /** What a reply says about the upload. */
  predicate ReplyFits(upload: Upload, reply: Reply) {
    match reply
    case Ok(resource, asset, deduplicated) =>
      && upload.phase == Committed && upload.resource == Some(resource) && upload.asset == asset
      && upload.deduplicated == deduplicated
    case MissingParts => upload.phase == Receiving
    case QuotaExceeded => upload.phase == Receiving
    case Overtaken => upload.phase == Failed(true)
    case FailedCommit => upload.phase == Failed(false)
    case NeedsReview => upload.phase == Unknown
    case IoError => upload.phase == CommitStarted || upload.phase == Committed
    case _ => false
  }

  predicate SessionInv(t: Tables, u: Id, pc: Pc) {
    u < t.next && Shaped(pc) && PcShape(t, u, pc) && (u in t.uploads ==> PcSound(t, u, pc))
  }

  /** A deduplicating request: the row it found, if it is still there, has its object. */
  predicate DuplicateInv(t: Tables, d: Duplicated) {
    && d.blob < t.next && d.row.key.ObjectKey? && d.row.hash == d.manifest.hash
    && (d.checked ==> d.row.size == d.manifest.size)
    && (d.checked && d.blob in t.blobs && t.blobs[d.blob] == d.row ==>
          Holds(t.files, d.row.key, d.row.size, d.row.hash))
    && (forall u :: u in t.uploads && Proposing(t.uploads[u]) ==> t.uploads[u].blob != Some(d.blob))
  }

  predicate Inv(w: World) {
    && TablesInv(w.t)
    && (forall u :: u in w.sessions ==> SessionInv(w.t, u, w.sessions[u]))
    && (forall d :: d in w.duplicates ==> DuplicateInv(w.t, w.duplicates[d]))
  }
}

/** How a request that runs alone, without storage errors, ends from each point of its way. */
module LoneRun {
  import opened Prelude
  import opened Content
  import opened Durable
  import opened Session
  import opened World
  import opened TableInvariant
  import opened TableProofs
  import opened RequestInvariant
  import opened SessionProofs

  /** The first `n` parts of an upload, one after the other. */
  function Joined(files: Files, u: Id, n: nat): Bytes {
    if n == 0 then []
    else Joined(files, u, n - 1) + if PartKey(u, n - 1) in files then files[PartKey(u, n - 1)] else []
  }

  function Whole(t: Tables, u: Id): Bytes
    requires u in t.uploads
  {
    Joined(t.files, u, |t.uploads[u].manifest.parts|)
  }

  /** What holds besides the invariant while nothing but the completion of `u` is going on. */
  predicate Alone(t: Tables, u: Id, pc: Pc) {
    && u in t.uploads
    && (t.uploads[u].phase == Receiving ==> forall k :: k in t.files && k.StageKey? ==> k.upload != u)
    && (t.uploads[u].phase == CommitStarted ==>
          && AllReceived(t.uploads[u]) && t.uploads[u].staged.Some?
          && (t.uploads[u].staged.value in t.files ==> t.files[t.uploads[u].staged.value] <= Whole(t, u)))
    && AloneAt(t, u, pc)
  }

  predicate AloneAt(t: Tables, u: Id, pc: Pc)
    requires u in t.uploads
  {
    match pc
    case OpeningStage(r) => r.final !in t.files
    case Writing(r, k, read) =>
      r.final !in t.files && StageOf(r) in t.files && t.files[StageOf(r)] == read == Joined(t.files, u, k)
    case Failing => FailsAgain(t, u)
    case Advancing(r) => Holds(t.files, r.final, r.size, r.hash)
                         || (r.final !in t.files && Holds(t.files, StageOf(r), r.size, r.hash))
    case CheckingStage(r) => r.final !in t.files
    case Linking(r) => r.final !in t.files && Holds(t.files, StageOf(r), r.size, r.hash)
    case Verifying(r) => Holds(t.files, r.final, r.size, r.hash)
    case _ => true
  }

  /** Assembly failed and would fail again. */
  predicate FailsAgain(t: Tables, u: Id)
    requires u in t.uploads
  {
    var upload := t.uploads[u];
    && upload.staged.Some? && upload.staged.value !in t.files
    && upload.proof.Some? && upload.proof.value.final !in t.files
    && !Fits(Whole(t, u), upload.proof.value.size, upload.proof.value.hash)
  }

  /* ---- Running on ---- */

  lemma Unfold(t: Tables, u: Id, pc: Pc)
    requires Shaped(pc) && !pc.Done?
    ensures Shaped(Micro(t, u, pc, true).1)
    ensures Drive(t, u, pc) == Drive(Micro(t, u, pc, true).0, u, Micro(t, u, pc, true).1)
  {
    hide Micro, Shaped;
    MicroLowers(t, u, pc, true);
  }

  lemma Finished(t: Tables, u: Id, reply: Reply)
    ensures Drive(t, u, Done(reply)) == (t, reply)
  {
  }

  /* ---- Assembly ---- */

  lemma JoinedSize(t: Tables, u: Id, n: nat)
    requires u in t.uploads && AllReceived(t.uploads[u]) && PartsHeld(t.files, u, t.uploads[u])
    requires n <= |t.uploads[u].manifest.parts|
    ensures |Joined(t.files, u, n)| == PartSizes(t.uploads[u].manifest.parts[..n])
  {
    if n > 0 {
      JoinedSize(t, u, n - 1);
      assert n - 1 in t.uploads[u].received;
      assert t.uploads[u].manifest.parts[..n][..n - 1] == t.uploads[u].manifest.parts[..n - 1];
    }
  }

  lemma JoinedPrefix(files: Files, u: Id, m: nat, n: nat)
    requires m <= n
    ensures Joined(files, u, m) <= Joined(files, u, n)
    decreases n
  {
  }

  lemma JoinedSame(files: Files, files': Files, u: Id, n: nat)
    requires forall k: Key :: k.PartKey? ==> (k in files' <==> k in files) && (k in files ==> files'[k] == files[k])
    ensures Joined(files', u, n) == Joined(files, u, n)
  {
  }

  ghost function AssembledEnd(t: Tables, u: Id, r: Ready): (Tables, Reply)
    requires u in t.uploads
  {
    if Fits(Whole(t, u), r.size, r.hash)
    then Drive(t.(files := t.files[StageOf(r) := Whole(t, u)]), u, Advancing(r))
    else (MarkFailed(t.(files := t.files - {StageOf(r)}), u), FailedCommit)
  }

  predicate Assembling(t: Tables, u: Id, r: Ready) {
    && u in t.uploads && InPhase(t, u, r, CommitStarted) && r.staged.Some? && StagedBy(u, r.staged)
    && AllReceived(t.uploads[u]) && PartsHeld(t.files, u, t.uploads[u])
  }

  /** What the stage held before does not matter to assembly. */
  lemma StageIsOverwritten(t: Tables, u: Id, r: Ready, files: Files)
    requires Assembling(t, u, r) && files - {StageOf(r)} == t.files - {StageOf(r)}
    ensures Assembling(t.(files := files), u, r) && Whole(t.(files := files), u) == Whole(t, u)
    ensures AssembledEnd(t.(files := files), u, r) == AssembledEnd(t, u, r)
  {
    hide Drive, Fits;
    var stage := StageOf(r);
    forall k: Key | k.PartKey? ensures (k in files <==> k in t.files) && (k in t.files ==> files[k] == t.files[k]) {
      assert k in t.files <==> k in t.files - {stage};
      assert k in files <==> k in files - {stage};
      if k in files { assert files[k] == (files - {stage})[k]; }
    }
    JoinedSame(t.files, files, u, |r.manifest.parts|);
    assert files[stage := Whole(t, u)] == (files - {stage})[stage := Whole(t, u)];
    assert t.files[stage := Whole(t, u)] == (t.files - {stage})[stage := Whole(t, u)];
  }

  lemma {:induction false} WritingEnds(t: Tables, u: Id, r: Ready, k: nat, read: Bytes)
    requires Assembling(t, u, r) && k <= |r.manifest.parts|
    requires StageOf(r) in t.files && t.files[StageOf(r)] == read == Joined(t.files, u, k)
    ensures Drive(t, u, Writing(r, k, read)) == AssembledEnd(t, u, r)
    decreases |r.manifest.parts| - k
  {
    hide Drive, Fits;
    var stage := StageOf(r);
    Unfold(t, u, Writing(r, k, read));
    if k < |r.manifest.parts| {
      assert k in t.uploads[u].received;
      var files := t.files[stage := read + t.files[PartKey(u, k)]];
      assert files - {stage} == t.files - {stage};
      StageIsOverwritten(t, u, r, files);
      JoinedSame(t.files, files, u, k + 1);
      WritingEnds(t.(files := files), u, r, k + 1, read + t.files[PartKey(u, k)]);
    } else if Fits(read, r.size, r.hash) {
      assert t.files[stage := read] == t.files;
    } else {
      var dropped := t.(files := t.files - {stage});
      Unfold(dropped, u, Failing);
      Finished(MarkFailed(dropped, u), u, FailedCommit);
    }
  }

  /** A stage that already holds the content is what assembly would have written. */
  lemma OpeningEnds(t: Tables, u: Id, r: Ready)
    requires Assembling(t, u, r) && SoundManifest(r.manifest) && r.size == r.manifest.size
    requires StageOf(r) in t.files ==> t.files[StageOf(r)] <= Whole(t, u)
    ensures Drive(t, u, OpeningStage(r)) == AssembledEnd(t, u, r)
  {
    hide Drive;
    var stage := StageOf(r);
    Unfold(t, u, OpeningStage(r));
    if Holds(t.files, stage, r.size, r.hash) {
      JoinedSize(t, u, |r.manifest.parts|);
      assert r.manifest.parts[..|r.manifest.parts|] == r.manifest.parts;
      assert t.files[stage] == Whole(t, u);
      assert t.files[stage := Whole(t, u)] == t.files;
    } else {
      var files := t.files[stage := []];
      assert files - {stage} == t.files - {stage};
      StageIsOverwritten(t, u, r, files);
      WritingEnds(t.(files := files), u, r, 0, []);
    }
  }

  /* ---- Metadata ---- */

  /** The end of a request whose object was seen to match. */
  ghost function CommitEnd(t: Tables, u: Id, r: Ready): (Tables, Reply)
    requires u in t.uploads
  {
    var (t', reply) := RecordMetadata(t, u, r, LoadCandidate(t, r.account, r.hash));
    match reply
    case Recorded(resource, deduplicated) =>
      (if r.staged.Some? then TidyStage(t', u, r.staged.value) else t', Ok(resource, r.asset, deduplicated))
    case _ =>
      (if r.staged.Some? then t'.(files := t'.files - {r.staged.value}) else t', Overtaken)
  }

  /** The candidate a request carries matters only for whether it must look again. */
  lemma ApprovalAside(t: Tables, u: Id, r: Ready, approved: Option<Candidate>)
    requires TablesInv(t) && u in t.uploads && Proven(t, u, r)
    ensures RecordMetadata(t, u, r, approved).1.NeedsCheck?
            || RecordMetadata(t, u, r, approved) == RecordMetadata(t, u, r, LoadCandidate(t, r.account, r.hash))
    ensures !RecordMetadata(t, u, r, LoadCandidate(t, r.account, r.hash)).1.NeedsCheck?
  {
    hide TablesInv, NewerCommitted, UpsertResource, Proven;
    RecordedBlob(t, u, r);
  }

  lemma RecordingEnds(t: Tables, u: Id, r: Ready, round: nat, approved: Option<Candidate>)
    requires TablesInv(t) && SessionInv(t, u, Recording(r, round, approved)) && u in t.uploads
    requires !RecordMetadata(t, u, r, approved).1.NeedsCheck?
    ensures Drive(t, u, Recording(r, round, approved)) == CommitEnd(t, u, r)
  {
    hide Drive, TablesInv, RecordMetadata, TidyStage, RowIs, LoadCandidate, Proven, ReadyShape;
    Unfold(t, u, Recording(r, round, approved));
    RecordedRow(t, u, r, round, approved);
    ApprovalAside(t, u, r, approved);
    var (t', reply) := RecordMetadata(t, u, r, approved);
    if reply.Superseded? {
      Unfold(t', u, Discarding(r));
      Finished(CommitEnd(t, u, r).0, u, Overtaken);
    } else if r.staged.Some? {
      var outcome := Ok(reply.resource, r.asset, reply.deduplicated);
      Unfold(t', u, Tidying(r, outcome, false));
      Finished(CommitEnd(t, u, r).0, u, outcome);
    } else {
      Finished(t', u, Ok(reply.resource, r.asset, reply.deduplicated));
    }
  }

  lemma VetPasses(t: Tables, u: Id, r: Ready, c: Candidate)
    requires TablesInv(t) && u in t.uploads && Proven(t, u, r) && RowIs(t, r, c)
    ensures c.size == r.size && c.hash == r.hash && c.key == r.final && LoadCandidate(t, r.account, r.hash) == Some(c)
  {
    hide TablesInv;
    IndexOf(t);
    RecordedBlob(t, u, r);
  }

  /** A look leads to vetting what it finds, or to the transaction. */
  lemma LookGoesOn(t: Tables, u: Id, r: Ready, round: nat, approved: Option<Candidate>)
    requires round < ROUNDS
    ensures var found := LoadCandidate(t, r.account, r.hash);
            Drive(t, u, Looking(r, round, approved))
            == if found.Some? then Drive(t, u, Vetting(r, round, found.value, false))
               else Drive(t, u, Recording(r, round, approved))
  {
    hide Drive, LoadCandidate;
    Unfold(t, u, Looking(r, round, approved));
  }

  /** The assertion of a request that has looked. */
  lemma LookedOn(t: Tables, u: Id, r: Ready, round: nat, approved: Option<Candidate>, found: Option<Candidate>)
    requires SessionInv(t, u, Looking(r, round, approved)) && u in t.uploads
    requires if found.Some? then RowIs(t, r, found.value) else approved.None?
    ensures SessionInv(t, u, Recording(r, round, found))
  {
    hide Proven, RowIs, ReadyShape;
  }

  lemma LookedAt(t: Tables, u: Id, r: Ready, round: nat, approved: Option<Candidate>)
    requires SessionInv(t, u, Looking(r, round, approved)) && u in t.uploads
    ensures Proven(t, u, r) && round < ROUNDS && (approved.Some? ==> RowIs(t, r, approved.value))
  {
    hide Proven, RowIs, ReadyShape;
  }

  /** Looking for a stored row, with the row approved before or none. */
  lemma LookingEnds(t: Tables, u: Id, r: Ready, round: nat, approved: Option<Candidate>)
    requires TablesInv(t) && SessionInv(t, u, Looking(r, round, approved)) && u in t.uploads
    ensures Drive(t, u, Looking(r, round, approved)) == CommitEnd(t, u, r)
  {
    hide Drive, TablesInv, RecordMetadata, RowIs, LoadCandidate, Proven, SessionInv, CommitEnd;
    LookedAt(t, u, r, round, approved);
    var found := LoadCandidate(t, r.account, r.hash);
    LookGoesOn(t, u, r, round, approved);
    ApprovalAside(t, u, r, found);
    if found.Some? {
      IndexOf(t);
      CandidateIs(t, r);
      VetPasses(t, u, r, found.value);
      FinalHeld(t, u, r);
      VetGoesOn(t, u, r, round, found.value, false);
    } else if approved.Some? {
      VetPasses(t, u, r, approved.value);
    }
    LookedOn(t, u, r, round, approved, found);
    RecordingEnds(t, u, r, round, found);
  }

  lemma FinalHeld(t: Tables, u: Id, r: Ready)
    requires u in t.uploads && Proven(t, u, r)
    ensures Holds(t.files, r.final, r.size, r.hash)
  {
  }

  /** The assertion of a request whose candidate has passed. */
  lemma VettedOn(t: Tables, u: Id, r: Ready, round: nat, c: Candidate, again: bool)
    requires SessionInv(t, u, Vetting(r, round, c, again)) && u in t.uploads
    ensures if again then SessionInv(t, u, Looking(r, round + 1, Some(c))) && round + 1 < ROUNDS
            else SessionInv(t, u, Recording(r, round, Some(c)))
  {
    hide Proven, RowIs, ReadyShape;
  }

  /** A candidate that passes leads on. */
  lemma VetGoesOn(t: Tables, u: Id, r: Ready, round: nat, c: Candidate, again: bool)
    requires round < ROUNDS && c.size == r.size && c.hash == r.hash && Holds(t.files, c.key, r.size, r.hash)
    requires again ==> round + 1 < ROUNDS
    ensures Drive(t, u, Vetting(r, round, c, again))
            == if again then Drive(t, u, Looking(r, round + 1, Some(c))) else Drive(t, u, Recording(r, round, Some(c)))
  {
    hide Drive;
    Unfold(t, u, Vetting(r, round, c, again));
  }

  lemma VettedAt(t: Tables, u: Id, r: Ready, round: nat, c: Candidate, again: bool)
    requires SessionInv(t, u, Vetting(r, round, c, again)) && u in t.uploads
    ensures Proven(t, u, r) && round < ROUNDS && RowIs(t, r, c)
  {
    hide Proven, RowIs, ReadyShape;
  }

  lemma VettingEnds(t: Tables, u: Id, r: Ready, round: nat, c: Candidate, again: bool)
    requires TablesInv(t) && SessionInv(t, u, Vetting(r, round, c, again)) && u in t.uploads
    ensures Drive(t, u, Vetting(r, round, c, again)) == CommitEnd(t, u, r)
  {
    hide Drive, TablesInv, RecordMetadata, RowIs, LoadCandidate, Proven, SessionInv, CommitEnd;
    VettedAt(t, u, r, round, c, again);
    VettedOn(t, u, r, round, c, again);
    VetPasses(t, u, r, c);
    FinalHeld(t, u, r);
    VetGoesOn(t, u, r, round, c, again);
    if again {
      LookingEnds(t, u, r, round + 1, Some(c));
    } else {
      ApprovalAside(t, u, r, Some(c));
      RecordingEnds(t, u, r, round, Some(c));
    }
  }

  lemma AnyRecordingEnds(t: Tables, u: Id, r: Ready, round: nat, approved: Option<Candidate>)
    requires TablesInv(t) && SessionInv(t, u, Recording(r, round, approved)) && u in t.uploads
    ensures Drive(t, u, Recording(r, round, approved)) == CommitEnd(t, u, r)
  {
    hide Drive, TablesInv, RecordMetadata, RowIs, LoadCandidate, Proven, ReadyShape, CommitEnd;
    var reply := RecordMetadata(t, u, r, approved).1;
    if reply.NeedsCheck? {
      RecordedRow(t, u, r, round, approved);
      Unfold(t, u, Recording(r, round, approved));
      IndexOf(t);
      CandidateIs(t, r);
      RecordingTouches(t, u, r, approved);
      VettingEnds(t, u, r, round, reply.candidate, true);
    } else {
      RecordingEnds(t, u, r, round, approved);
    }
  }

  /** In the window every request ends in the same metadata transaction. */
  lemma WindowEnds(t: Tables, u: Id, pc: Pc)
    requires TablesInv(t) && SessionInv(t, u, pc) && u in t.uploads && InWindow(pc)
    ensures Drive(t, u, pc) == CommitEnd(t, u, pc.r)
  {
    hide TablesInv, Drive, CommitEnd, RowIs, ReadyShape, Proven;
    match pc
    case Looking(r, round, approved) => LookingEnds(t, u, r, round, approved);
    case Vetting(r, round, c, again) => VettingEnds(t, u, r, round, c, again);
    case Recording(r, round, approved) => AnyRecordingEnds(t, u, r, round, approved);
  }
}

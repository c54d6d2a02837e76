/** What the invariant says about the commit protocol: phases only advance, nothing is overwritten,
    equal content is shared, replies are repeatable, and where the protocol's limits are. */
module Protocol {
  import opened Prelude
  import opened Content
  import opened Durable
  import opened Session
  import opened World
  import opened TableInvariant
  import opened TableProofs
  import opened RequestInvariant
  import opened RequestProofs
  import opened SessionProofs
  import opened ServerProofs
  import opened WorldProofs
  import StorageKeys
  import AccountPaths
  import LoneRun

  /* ---- An upload only moves forward ---- */

  function Rank(phase: Phase): nat {
    match phase
    case Receiving => 5
    case CommitStarted => 4
    case Finalizing => 3
    case Committed => 2
    case Unknown => 1
    case Failed(_) => 1
  }

  /** What a client declared stays, receipts accumulate, and a new phase has a lower rank. */
  predicate Evolves(before: Upload, after: Upload) {
    && after.account == before.account && after.asset == before.asset && after.source == before.source
    && after.rowid == before.rowid && after.manifest == before.manifest && before.received <= after.received
    && (after.phase == before.phase || Rank(after.phase) < Rank(before.phase))
  }

  lemma ReadingEvolves(t: Tables, u: Id, pc: Pc, io: bool)
    requires u in t.uploads && PcSound(t, u, pc) && Reads(pc) && u in Micro(t, u, pc, io).0.uploads
    requires pc.Loading? ==> RowHere(t, u)
    ensures Evolves(t.uploads[u], Micro(t, u, pc, io).0.uploads[u])
  {
    hide RowSound, Current, RowIs, ReadyCommit;
    QuietSteps(t, u, pc, io);
    if pc.Loading? && Started(t.uploads[u]) {
      ReadyFits(t, u);
      CommitStaged(t, u);
    }
    if pc.Loading? || pc.Done? || pc.Looking? {
      assert Micro(t, u, pc, io).0 == t;
    }
  }

  lemma RecordingEvolves(t: Tables, u: Id, r: Ready, round: nat, approved: Option<Candidate>)
    requires u in t.uploads && t.uploads[u].phase == Finalizing
    ensures u in Record(t, u, r, round, approved).0.uploads
    ensures Evolves(t.uploads[u], Record(t, u, r, round, approved).0.uploads[u])
  {
    hide LoadCandidate, RecordMetadata, InsertBlob, UpsertResource, ResourceRow, Evolves, OvertakenRow, CommittedRow;
    RecordMetadataCases(t, u, r, approved);
    SameEvolves(t.uploads[u]);
    MarksEvolve(t, u);
    var (t', reply) := RecordMetadata(t, u, r, approved);
    if reply.Superseded? {
      OvertakenEvolves(t.uploads[u]);
    } else if reply.Recorded? {
      var c := LoadCandidate(InsertBlob(t, r), r.account, r.hash).value;
      CommittedEvolves(t.uploads[u], c, reply.resource, reply.deduplicated);
    }
  }

  lemma OvertakenEvolves(upload: Upload)
    requires upload.phase == Finalizing
    ensures Evolves(upload, OvertakenRow(upload))
  {
  }

  lemma CommittedEvolves(upload: Upload, c: Candidate, resource: Id, deduplicated: bool)
    requires upload.phase == Finalizing
    ensures Evolves(upload, CommittedRow(upload, c, resource, deduplicated))
  {
  }

  lemma BeginningEvolves(t: Tables, u: Id)
    requires u in t.uploads
    ensures u in Begin(t, u).0.uploads && Evolves(t.uploads[u], Begin(t, u).0.uploads[u])
  {
    hide LoadCandidate, CommitOverQuota;
  }

  lemma FileStepEvolves(t: Tables, u: Id, pc: Pc, io: bool)
    requires u in t.uploads && (pc.OpeningStage? || pc.Writing? || pc.Discarding?)
    ensures Micro(t, u, pc, io).0.uploads == t.uploads
  {
    hide Holds, Fits;
  }

  lemma PhaseEvolves(upload: Upload, phase: Phase)
    ensures phase == upload.phase || Rank(phase) < Rank(upload.phase) ==> Evolves(upload, upload.(phase := phase))
  {
  }

  lemma MarksEvolve(t: Tables, u: Id)
    requires u in t.uploads
    ensures !t.uploads[u].phase.Failed? ==> Evolves(t.uploads[u], MarkUnknown(t, u).uploads[u])
    ensures !t.uploads[u].phase.Failed? && t.uploads[u].phase != Unknown ==>
              Evolves(t.uploads[u], MarkFailed(t, u).uploads[u])
    ensures Evolves(t.uploads[u], ToFinalizing(t, u).0.uploads[u])
  {
    hide Evolves;
    SameEvolves(t.uploads[u]);
    PhaseEvolves(t.uploads[u], Unknown);
    PhaseEvolves(t.uploads[u], Failed(false));
    PhaseEvolves(t.uploads[u], Finalizing);
  }

  lemma TidyEvolves(t: Tables, u: Id, stage: Key)
    requires u in t.uploads
    ensures Evolves(t.uploads[u], TidyStage(t, u, stage).uploads[u])
  {
    hide Evolves;
    SameEvolves(t.uploads[u]);
    UnstagedEvolves(t.uploads[u]);
  }

  lemma UnstagedEvolves(upload: Upload)
    ensures Evolves(upload, upload.(staged := None))
  {
  }

  lemma RowStepEvolves(t: Tables, u: Id, pc: Pc, io: bool)
    requires u in t.uploads && PcSound(t, u, pc) && u in Micro(t, u, pc, io).0.uploads
    requires pc.Counting? || pc.Failing? || pc.Advancing? || pc.Linking? || pc.Tidying?
    ensures Evolves(t.uploads[u], Micro(t, u, pc, io).0.uploads[u])
  {
    hide Current, Evolves, MarkUnknown, MarkFailed, ToFinalizing, TidyStage;
    SameEvolves(t.uploads[u]);
    MarksEvolve(t, u);
    if pc.Tidying? {
      TidyEvolves(t, u, StageOf(pc.r));
    }
  }

  lemma MicroEvolves(t: Tables, u: Id, pc: Pc, io: bool)
    requires u in t.uploads && PcSound(t, u, pc) && u in Micro(t, u, pc, io).0.uploads
    requires pc.Loading? ==> RowHere(t, u)
    ensures Evolves(t.uploads[u], Micro(t, u, pc, io).0.uploads[u])
  {
    hide RowHere, Evolves, InPhase, Current, RowIs, Begin, Record, Load, Reload, Confirm, CheckFinal, Recheck,
         OpenStage, Write, Discard, Count, MarkFailure, Advance, Link, Tidy, CheckStage, Verify, Look, Vet;
    SameEvolves(t.uploads[u]);
    match pc
    case Beginning => BeginningEvolves(t, u);
    case Recording(r, round, approved) => RecordingEvolves(t, u, r, round, approved);
    case OpeningStage(_) => FileStepEvolves(t, u, pc, io);
    case Writing(_, _, _) => FileStepEvolves(t, u, pc, io);
    case Discarding(_) => FileStepEvolves(t, u, pc, io);
    case Counting => RowStepEvolves(t, u, pc, io);
    case Failing => RowStepEvolves(t, u, pc, io);
    case Advancing(_) => RowStepEvolves(t, u, pc, io);
    case Linking(_) => RowStepEvolves(t, u, pc, io);
    case Tidying(_, _, _) => RowStepEvolves(t, u, pc, io);
    case _ => ReadingEvolves(t, u, pc, io);
  }

  lemma StepEvolves(w: World, action: Action, u: Id)
    requires Inv(w) && u in w.t.uploads && u in Step(w, action).t.uploads
    ensures Evolves(w.t.uploads[u], Step(w, action).t.uploads[u])
  {
    hide TablesInv, SessionInv, DuplicateInv, Evolves;
    SameEvolves(w.t.uploads[u]);
    if IsGentle(action) {
      GentleStep(w, action);
      GentleEvolves(w.t, Step(w, action).t, u);
    } else if action.Progress? && action.upload in w.sessions {
      ProgressEvolves(w, action, u);
    } else {
      RoughEvolves(w, action, u);
    }
  }

  lemma SameEvolves(upload: Upload)
    ensures Evolves(upload, upload)
  {
  }

  lemma GentleEvolves(t: Tables, t': Tables, u: Id)
    requires Gentle(t, t') && u in t.uploads && u in t'.uploads
    ensures Evolves(t.uploads[u], t'.uploads[u])
  {
  }

  lemma RoughEvolves(w: World, action: Action, u: Id)
    requires !IsGentle(action) && !(action.Progress? && action.upload in w.sessions) && u in w.t.uploads
    requires u in Step(w, action).t.uploads
    ensures Step(w, action).t.uploads[u] == w.t.uploads[u]
  {
    hide AccountInUse, Referenced;
  }

  lemma ProgressEvolves(w: World, action: Action, u: Id)
    requires Inv(w) && action.Progress? && action.upload in w.sessions
    requires u in w.t.uploads && u in Step(w, action).t.uploads
    ensures Evolves(w.t.uploads[u], Step(w, action).t.uploads[u])
  {
    hide TablesInv, SessionInv, DuplicateInv, Micro, Evolves;
    var v, io := action.upload, action.io;
    var pc := w.sessions[v];
    SameEvolves(w.t.uploads[u]);
    if v == u {
      RowOf(w.t, u);
      assert PcSound(w.t, u, pc) by { SoundOf(w.t, u, pc); }
      MicroEvolves(w.t, u, pc, io);
    } else {
      MicroTables(w.t, v, pc, io);
    }
  }

  lemma SoundOf(t: Tables, u: Id, pc: Pc)
    requires SessionInv(t, u, pc) && u in t.uploads
    ensures PcSound(t, u, pc)
  {
  }

  /** Ids are never used again. */
  lemma StepIds(w: World, action: Action, u: Id)
    requires Inv(w)
    ensures w.t.next <= Step(w, action).t.next
    ensures u in Step(w, action).t.uploads && u !in w.t.uploads ==> u >= w.t.next
  {
    hide TablesInv, SessionInv, DuplicateInv, Effect;
    if IsGentle(action) {
      GentleStep(w, action);
      GentleIds(w.t, Step(w, action).t);
    } else if action.Progress? && action.upload in w.sessions {
      ProgressIds(w, action);
    } else {
      RoughIds(w, action);
    }
  }

  lemma GentleIds(t: Tables, t': Tables)
    requires Gentle(t, t')
    ensures t.next <= t'.next && forall u :: u in t'.uploads && u !in t.uploads ==> u >= t.next
  {
  }

  lemma ProgressIds(w: World, action: Action)
    requires Inv(w) && action.Progress? && action.upload in w.sessions
    ensures w.t.next <= Step(w, action).t.next && Step(w, action).t.uploads.Keys == w.t.uploads.Keys
  {
    hide TablesInv, SessionInv, DuplicateInv, Micro;
    MicroTables(w.t, action.upload, w.sessions[action.upload], action.io);
  }

  lemma RoughIds(w: World, action: Action)
    requires !IsGentle(action) && !(action.Progress? && action.upload in w.sessions)
    ensures w.t.next == Step(w, action).t.next && Step(w, action).t.uploads == w.t.uploads
  {
    hide AccountInUse, Referenced;
  }

  lemma EvolvesOn(one: Upload, two: Upload, three: Upload)
    requires Evolves(one, two) && Evolves(two, three)
    ensures Evolves(one, three)
  {
  }

  /** From any point of a run to any later one an upload that still exists has only moved forward;
      in particular a failed or unknown upload stays what it is. */
  lemma {:induction false} RunEvolves(actions: seq<Action>, n: nat, u: Id)
    requires AdmissibleRun(actions) && n <= |actions|
    requires u in Run(actions[..n]).t.uploads && u in Run(actions).t.uploads
    ensures Evolves(Run(actions[..n]).t.uploads[u], Run(actions).t.uploads[u])
    decreases |actions|
  {
    hide Evolves, Inv, Step;
    if n == |actions| {
      assert actions[..n] == actions;
      SameEvolves(Run(actions).t.uploads[u]);
    } else {
      var earlier, last := actions[..|actions| - 1], actions[|actions| - 1];
      assert earlier[..n] == actions[..n];
      RunKeeps(earlier);
      RunNext(earlier, n, u);
      StepIds(Run(earlier), last, u);
      RunEvolves(earlier, n, u);
      StepEvolves(Run(earlier), last, u);
      EvolvesOn(Run(actions[..n]).t.uploads[u], Run(earlier).t.uploads[u], Run(actions).t.uploads[u]);
    }
  }

  lemma {:induction false} RunNext(actions: seq<Action>, n: nat, u: Id)
    requires AdmissibleRun(actions) && n <= |actions| && u in Run(actions[..n]).t.uploads
    ensures u < Run(actions).t.next
    decreases |actions|
  {
    hide Step;
    if n == |actions| {
      assert actions[..n] == actions;
      RunKeeps(actions);
      Below(Run(actions).t);
    } else {
      var earlier, last := actions[..|actions| - 1], actions[|actions| - 1];
      assert earlier[..n] == actions[..n];
      RunKeeps(earlier);
      RunNext(earlier, n, u);
      StepIds(Run(earlier), last, u);
    }
  }

  /* ---- Nothing is overwritten ---- */

  /** A part or an object, once linked, never changes: it stays as it is or it is removed. */
  lemma WriteOnce(w: World, action: Action, key: Key)
    requires Inv(w) && !key.StageKey? && key in w.t.files && key in Step(w, action).t.files
    ensures Step(w, action).t.files[key] == w.t.files[key]
  {
    hide TablesInv, SessionInv, DuplicateInv, Effect;
    if IsGentle(action) {
      GentleStep(w, action);
      GentleFile(w.t, Step(w, action).t, key);
    } else if action.Progress? && action.upload in w.sessions {
      ProgressFile(w, action, key);
    } else {
      RoughFile(w, action, key);
    }
  }

  lemma GentleFile(t: Tables, t': Tables, key: Key)
    requires Gentle(t, t') && !key.StageKey? && key in t.files
    ensures key in t'.files && t'.files[key] == t.files[key]
  {
  }

  lemma ProgressFile(w: World, action: Action, key: Key)
    requires Inv(w) && action.Progress? && action.upload in w.sessions && !key.StageKey? && key in w.t.files
    ensures key in Step(w, action).t.files && Step(w, action).t.files[key] == w.t.files[key]
  {
    hide TablesInv, SessionInv, DuplicateInv, Micro;
    MicroTables(w.t, action.upload, w.sessions[action.upload], action.io);
  }

  lemma RoughFile(w: World, action: Action, key: Key)
    requires Inv(w) && !IsGentle(action) && !(action.Progress? && action.upload in w.sessions)
    requires !key.StageKey? && key in w.t.files && key in Step(w, action).t.files
    ensures Step(w, action).t.files[key] == w.t.files[key]
  {
    hide AccountInUse, Referenced, TablesInv, PcSound, DuplicateInv;
  }

  /** What a received part holds is what its manifest entry declares, in every reachable state. */
  lemma {:induction false} ReceivedPartsMatch(actions: seq<Action>, u: Id, index: nat)
    requires AdmissibleRun(actions) && u in Run(actions).t.uploads && index in Run(actions).t.uploads[u].received
    ensures var t := Run(actions).t;
            && index < |t.uploads[u].manifest.parts|
            && Holds(t.files, PartKey(u, index), t.uploads[u].manifest.parts[index].size,
                     t.uploads[u].manifest.parts[index].hash)
  {
    hide Run, AdmissibleRun;
    RunKeeps(actions);
    RowOf(Run(actions).t, u);
  }

  /* ---- Deduplication ---- */

  /** Committed uploads with equal content in one account share one blob row, it is the only row
      with that content, and no resource points at another row with it. */
  lemma ContentIsShared(t: Tables, u: Id, v: Id)
    requires TablesInv(t) && u in t.uploads && v in t.uploads
    requires t.uploads[u].phase == Committed && t.uploads[v].phase == Committed
    requires t.uploads[u].account == t.uploads[v].account && t.uploads[u].manifest.hash == t.uploads[v].manifest.hash
    ensures t.uploads[u].blob.Some? && t.uploads[u].blob == t.uploads[v].blob
    ensures var upload := t.uploads[u];
            forall b :: b in t.blobs && (t.blobs[b].account, t.blobs[b].hash) == (upload.account, upload.manifest.hash)
              ==> Some(b) == t.uploads[u].blob
  {
    hide TablesInv, AllApart, Safe;
    RowOf(t, u);
    RowOf(t, v);
    IndexOf(t);
  }

  /** While its upload exists, a completing request never runs out of metadata rounds and never loses
      the race the upload lock excludes. Its reply says what has become of the upload, whatever storage
      errors it met and whatever else has happened since: success gives the recorded outcome, and a
      request that stops at a storage error leaves the upload to a later attempt. */
  lemma {:induction false} RepliesAreHonest(actions: seq<Action>, u: Id, reply: Reply)
    requires AdmissibleRun(actions) && u in Run(actions).sessions && Run(actions).sessions[u] == Done(reply)
    requires u in Run(actions).t.uploads
    ensures reply !in {Exhausted, Changed, NotFound, Unauthorized}
    ensures var upload := Run(actions).t.uploads[u];
            && (reply.Ok? ==>
                  && upload.phase == Committed && upload.resource.Some?
                  && reply == Ok(upload.resource.value, upload.asset, upload.deduplicated))
            && (reply == MissingParts || reply == QuotaExceeded ==> upload.phase == Receiving)
            && (reply == FailedCommit ==> upload.phase == Failed(false))
            && (reply == Overtaken ==> upload.phase == Failed(true))
            && (reply == NeedsReview ==> upload.phase == Unknown)
            && (reply == IoError ==> upload.phase == CommitStarted || upload.phase == Committed)
  {
    hide Run, AdmissibleRun, TablesInv, DuplicateInv;
    RunKeeps(actions);
    SoundOf(Run(actions).t, u, Done(reply));
  }

  /** Whatever the reclaimer did since the object was checked outside any transaction, the resource
      that `create_upload` attaches has its row and its object, with the declared content. */
  lemma DuplicateIsBacked(w: World, d: Id)
    requires Inv(w) && d in w.duplicates && w.duplicates[d].checked
    requires var r := w.duplicates[d]; Durable.AttachDuplicate(w.t, r.asset, r.source, r.blob, r.row).1
    ensures var r := w.duplicates[d];
            var t' := Step(w, Action.AttachDuplicate(d)).t;
            var slot := (AssetRow(w.t, r.row.account, r.asset), r.source);
            && slot in t'.resources && t'.resources[slot].blob == r.blob && Backed(t'.blobs, t'.files, r.blob)
            && t'.blobs[r.blob].size == r.manifest.size && t'.blobs[r.blob].hash == r.manifest.hash
  {
    hide TablesInv, SessionInv;
    var r := w.duplicates[d];
    CheckedHolds(w.t, r);
    UpsertAssetOnly(w.t, r.row.account, r.asset);
  }

  /* ---- Accounts ---- */

  /** In every reachable state accounts' directories are valid and do not overlap, so no storage key is
      accepted under two of them. */
  lemma {:induction false} AccountsShareNoKey(actions: seq<Action>, a: Id, b: Id, key: string)
    requires AdmissibleRun(actions) && a in Run(actions).t.accounts && b in Run(actions).t.accounts && a != b
    ensures var accounts := Run(actions).t.accounts;
            StorageKeys.BlobKeyAccepted(accounts[a].path, key) ==> !StorageKeys.BlobKeyAccepted(accounts[b].path, key)
  {
    hide Run, AdmissibleRun, SessionInv, DuplicateInv, UploadsSound, Safe, AllApart, IndexSound, BlobsPlaced,
         ResourcesOwned, ObjectsIntact, StorageKeys.Overlap, StorageKeys.BlobKeyAccepted, StorageKeys.Assignable;
    RunKeeps(actions);
    var accounts := Run(actions).t.accounts;
    if StorageKeys.BlobKeyAccepted(accounts[a].path, key) && StorageKeys.BlobKeyAccepted(accounts[b].path, key) {
      AccountPaths.SharedKeyOverlaps(accounts[a].path, accounts[b].path, key);
    }
  }

  /* ---- Repeated completion ---- */

  /** Once a commit has started, the path it recorded is the account's path: the branches for a changed
      path are not reached. */
  lemma {:induction false} RecordedPathIsCurrent(actions: seq<Action>, u: Id)
    requires AdmissibleRun(actions) && u in Run(actions).t.uploads && Started(Run(actions).t.uploads[u])
    ensures var t := Run(actions).t;
            var upload := t.uploads[u];
            && upload.account in t.accounts && upload.proof.Some?
            && upload.proof.value.path == t.accounts[upload.account].path
            && ReadyCommit(t, u).Some?
  {
    hide Run, AdmissibleRun, TablesInv, SessionInv, DuplicateInv;
    RunKeeps(actions);
    RowOf(Run(actions).t, u);
  }

  /** Completing a committed upload again answers with the outcome that was recorded, even after the
      resource moved on to a newer version, and at most tidies the stage: the account's path cannot
      have changed under it. */
  lemma CompletingAgain(t: Tables, u: Id)
    requires TablesInv(t) && u in t.uploads && t.uploads[u].phase == Committed
    ensures t.uploads[u].resource.Some?
    ensures Drive(t, u, Loading)
            == (if t.uploads[u].staged.Some? then TidyStage(t, u, t.uploads[u].staged.value) else t,
                Ok(t.uploads[u].resource.value, t.uploads[u].asset, t.uploads[u].deduplicated))
  {
    hide TablesInv, Drive, Confirm, ReadyCommit, TidyStage;
    RowOf(t, u);
    ReadyFits(t, u);
    CommitStaged(t, u);
    var r := ReadyCommit(t, u).value;
    var resource := t.uploads[u].resource.value;
    var outcome := Ok(resource, r.asset, t.uploads[u].deduplicated);
    LoneRun.Unfold(t, u, Loading);
    LoneRun.Unfold(t, u, Confirming(r, resource, t.uploads[u].deduplicated));
    CommittedConfirms(t, u, r);
    if r.staged.Some? {
      LoneRun.Unfold(t, u, Tidying(r, outcome, true));
      LoneRun.Finished(TidyStage(t, u, StageOf(r)), u, outcome);
    } else {
      LoneRun.Finished(t, u, outcome);
    }
  }

  lemma CommittedConfirms(t: Tables, u: Id, r: Ready)
    requires TablesInv(t) && u in t.uploads && InPhase(t, u, r, Committed) && t.uploads[u].resource.Some?
    ensures Confirm(t, u, r, t.uploads[u].resource.value, t.uploads[u].deduplicated, true)
            == (var outcome := Ok(t.uploads[u].resource.value, r.asset, t.uploads[u].deduplicated);
                (t, if r.staged.Some? then Tidying(r, outcome, true) else Done(outcome)))
  {
    hide IdsBelow, UploadsSound, AllApart, Safe, ResourcesOwned, ObjectsIntact, PathsApart, IndexSound;
    RowOf(t, u);
    assert Placed(t.accounts, t.blobs[r.proposed]);
    assert t.resources[Slot(t.uploads[u])].id == t.uploads[u].resource.value;
  }

  /* ---- The limit ---- */

  /** Why the reclaimer must stay out of a request's window. If it takes the stored row with the
      request's content after the last look at the object, the metadata transaction then accepts the
      request's own proposed row without looking again: the result is safe exactly when a newer
      upload supersedes this one. */
  lemma ReclaimedInWindow(t: Tables, u: Id, r: Ready, approved: Option<Candidate>)
    requires TablesInv(t) && u in t.uploads && Proven(t, u, r)
    requires LoadCandidate(t, r.account, r.hash).Some?
    requires !Referenced(t, LoadCandidate(t, r.account, r.hash).value.id)
    ensures var taken := LoadCandidate(t, r.account, r.hash).value.id;
            var t' := RecordMetadata(Durable.Reclaim(t, taken), u, r, approved).0;
            Safe(t'.blobs, t'.resources, t'.uploads, t'.files) <==> NewerCommitted(t, u)
  {
    hide TablesInv, Safe, Referenced;
    var c := LoadCandidate(t, r.account, r.hash).value;
    RowOf(t, u);
    FoundCandidate(t, r.account, r.hash);
    IndexOf(t);
    NotReferenced(t, c.id, u);
    assert Proposing(t.uploads[u]);
    var t1 := Durable.Reclaim(t, c.id);
    ReclaimKeeps(t, c.id);
    assert r.final !in t1.files;
    assert InsertBlob(t1, r) == t1.(blobs := t1.blobs[r.proposed := Blob(r.account, r.hash, r.size, r.final)],
                                    content := t1.content[(r.account, r.hash) := r.proposed]);
    RecordMetadataCases(t1, u, r, approved);
    var (t2, reply) := RecordMetadata(t1, u, r, approved);
    AssetThere(t, u);
    if NewerCommitted(t, u) {
      assert reply.Superseded?;
      SafeOf(t1);
      OvertakenSafe(t1, u, r);
    } else {
      assert reply.Recorded?;
      Unbacked(t2, u);
    }
  }

  lemma NotReferenced(t: Tables, b: Id, u: Id)
    requires !Referenced(t, b) && u in t.uploads
    ensures t.uploads[u].blob != Some(b)
  {
  }

  lemma SafeOf(t: Tables)
    requires TablesInv(t)
    ensures Safe(t.blobs, t.resources, t.uploads, t.files)
  {
  }

  lemma Unbacked(t: Tables, u: Id)
    requires u in t.uploads && t.uploads[u].phase == Committed
    requires t.uploads[u].blob.Some? ==>
               t.uploads[u].blob.value in t.blobs && t.blobs[t.uploads[u].blob.value].key !in t.files
    ensures !Safe(t.blobs, t.resources, t.uploads, t.files)
  {
  }

  lemma OvertakenSafe(t: Tables, u: Id, r: Ready)
    requires u in t.uploads && Safe(t.blobs, t.resources, t.uploads, t.files)
    ensures var t' := PutRow(InsertBlob(t, r), u, OvertakenRow(t.uploads[u]));
            Safe(t'.blobs, t'.resources, t'.uploads, t'.files)
  {
  }
}

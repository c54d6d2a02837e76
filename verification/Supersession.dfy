/** Uploads of one asset and source resource commit in the order of their creation, and the resource
    points at the newest of them. */
module Supersession {
  import opened Prelude
  import opened Content
  import opened Durable
  import opened Session
  import opened World
  import opened TableInvariant
  import opened TableProofs
  import opened RequestInvariant
  import opened RequestProofs
  import opened SessionProofs
  import opened ServerProofs
  import opened WorldProofs
  import opened Protocol

  /** SQLite's rowids and the ids of uploads are in the same order: the order of creation. */
  predicate CreationOrder(uploads: map<Id, Upload>) {
    forall u, v :: u in uploads && v in uploads && u < v ==> uploads[u].rowid < uploads[v].rowid
  }

  /** The resource of a slot has the blob of the slot's newest committed upload. */
  predicate PointsAtNewest(t: Tables, slot: ResourceKey) {
    forall u :: u in t.uploads && t.uploads[u].phase == Committed && Slot(t.uploads[u]) == slot && !NewerCommitted(t, u)
      ==> slot in t.resources && Some(t.resources[slot].blob) == t.uploads[u].blob
  }

  /** The two ways in which something other than a commit gets between a slot and its newest upload:
      a deduplicated `create_upload` replaces the resource, and a storage error while a committed
      upload is confirmed makes it unknown. */
  predicate Touches(w: World, action: Action, slot: ResourceKey) {
    match action
    case AttachDuplicate(d) =>
      d in w.duplicates &&
      (var r := w.duplicates[d]; (AssetRow(w.t, r.row.account, r.asset), r.source) == slot)
    case Progress(u, io) =>
      !io && u in w.sessions && w.sessions[u].Confirming? && u in w.t.uploads && Slot(w.t.uploads[u]) == slot
    case _ => false
  }

  ghost predicate UntouchedRun(actions: seq<Action>, slot: ResourceKey) {
    actions == [] ||
    (var earlier := actions[..|actions| - 1];
     UntouchedRun(earlier, slot) && !Touches(Run(earlier), actions[|actions| - 1], slot))
  }

  /* ---- The order of creation ---- */

  lemma OpenOrder(t: Tables, account: Id, asset: Option<Id>, source: string, manifest: Manifest, maxPart: nat)
    ensures var uploads := OpenUpload(t, account, asset, source, manifest, maxPart).0.uploads;
            forall v :: v in uploads && v !in t.uploads ==>
              forall u :: u in uploads && u != v ==> u in t.uploads && uploads[u].rowid < uploads[v].rowid
  {
    hide AssetRow, UpsertAsset, ActiveTwin, OverQuota, ValidManifest, Charge;
    UpsertAssetOnly(t, account, asset);
  }

  lemma StepOpens(w: World, action: Action, v: Id)
    requires Inv(w) && v in Step(w, action).t.uploads && v !in w.t.uploads
    ensures action.Open?
  {
    hide TablesInv, SessionInv, DuplicateInv, AccountInUse, Referenced, OpenUpload;
    if action.Progress? && action.upload in w.sessions {
      ProgressIds(w, action);
    }
  }

  lemma StepIsOpen(w: World, action: Action)
    requires action.Open?
    ensures var t' := OpenUpload(w.t, action.account, action.asset, action.source, action.manifest, action.maxPart).0;
            Step(w, action).t.uploads == t'.uploads && Step(w, action).t.resources == t'.resources
  {
    hide OpenUpload;
  }

  lemma StepOrder(w: World, action: Action)
    requires Inv(w) && CreationOrder(w.t.uploads)
    ensures CreationOrder(Step(w, action).t.uploads)
  {
    hide Inv, Step, Evolves;
    var uploads := Step(w, action).t.uploads;
    forall u, v | u in uploads && v in uploads && u < v ensures uploads[u].rowid < uploads[v].rowid {
      StepIds(w, action, u);
      StepIds(w, action, v);
      if v !in w.t.uploads {
        StepOpens(w, action, v);
        OpenOrder(w.t, action.account, action.asset, action.source, action.manifest, action.maxPart);
        StepIsOpen(w, action);
      } else {
        assert u in w.t.uploads by { UploadBelow(w, v); }
        SameRowid(w, action, u);
        SameRowid(w, action, v);
      }
    }
  }

  lemma SameRowid(w: World, action: Action, u: Id)
    requires Inv(w) && u in w.t.uploads && u in Step(w, action).t.uploads
    ensures Step(w, action).t.uploads[u].rowid == w.t.uploads[u].rowid
  {
    hide Inv, Step;
    StepEvolves(w, action, u);
  }

  /* ---- The slot ---- */

  /** Blob rows and resources are as they were. */
  predicate SameLibrary(t: Tables, t': Tables) {
    t'.resources == t.resources && t'.blobs == t.blobs
  }

  /** The row did not finish, commit, or get superseded. */
  predicate Ordinary(before: Upload, after: Upload) {
    && after.row == before.row
    && (after.phase == Committed ==> before.phase == Committed && after.blob == before.blob)
    && (after.phase == Failed(true) ==> before.phase == Failed(true))
  }

  predicate FilesOnly(t: Tables, t': Tables) {
    t' == t.(files := t'.files)
  }

  /** What a step other than the metadata transaction is on the tables. */
  ghost predicate OneOf(t: Tables, t': Tables, u: Id) {
    || FilesOnly(t, t') || t' == MarkUnknown(t, u) || t' == MarkFailed(t, u) || t' == ToFinalizing(t, u).0
    || t' == BeginCommit(t, u).0
    || exists stage :: t' == TidyStage(t, u, stage)
  }

  lemma ReadIsOne(t: Tables, u: Id, pc: Pc, io: bool)
    requires Reads(pc)
    ensures OneOf(t, Micro(t, u, pc, io).0, u)
  {
    hide Micro, MarkUnknown, MarkFailed, ToFinalizing, BeginCommit, TidyStage;
    QuietSteps(t, u, pc, io);
  }

  lemma OpeningIsOne(t: Tables, r: Ready, io: bool)
    ensures FilesOnly(t, OpenStage(t, r, io).0)
  {
    hide Holds;
  }

  lemma DiscardingIsOne(t: Tables, r: Ready, io: bool)
    ensures FilesOnly(t, Discard(t, r, io).0)
  {
  }

  lemma FileStepIsOne(t: Tables, u: Id, pc: Pc, io: bool)
    requires pc.OpeningStage? || pc.Writing? || pc.Discarding?
    ensures FilesOnly(t, Micro(t, u, pc, io).0)
  {
    hide OpenStage, Write, Discard;
    match pc
    case OpeningStage(r) => OpeningIsOne(t, r, io);
    case Writing(r, k, read) => WritesFiles(t, u, r, k, read, io);
    case Discarding(r) => DiscardingIsOne(t, r, io);
  }

  lemma RowStepIsOne(t: Tables, u: Id, pc: Pc, io: bool)
    requires !Reads(pc) && !pc.Recording? && !pc.OpeningStage? && !pc.Writing? && !pc.Discarding?
    ensures OneOf(t, Micro(t, u, pc, io).0, u)
  {
    hide MarkUnknown, MarkFailed, ToFinalizing, BeginCommit, TidyStage, AllReceived, SoundManifest, Load, Reload,
         CheckFinal, Recheck, CheckStage, Verify, Look, Vet, Confirm, Record, OpenStage, Write, Discard;
  }

  lemma MicroIsOne(t: Tables, u: Id, pc: Pc, io: bool)
    requires !pc.Recording?
    ensures OneOf(t, Micro(t, u, pc, io).0, u)
  {
    hide Micro, FilesOnly, BeginCommit, MarkUnknown, MarkFailed, ToFinalizing, TidyStage;
    if Reads(pc) {
      ReadIsOne(t, u, pc, io);
    } else if pc.OpeningStage? || pc.Writing? || pc.Discarding? {
      FileStepIsOne(t, u, pc, io);
    } else {
      RowStepIsOne(t, u, pc, io);
    }
  }

  /** The library is as it was, and the upload's row did nothing special. */
  predicate Plain(t: Tables, t': Tables, u: Id) {
    SameLibrary(t, t') && (u in t.uploads && u in t'.uploads ==> Ordinary(t.uploads[u], t'.uploads[u]))
  }

  lemma BeginIsPlain(t: Tables, u: Id)
    ensures Plain(t, BeginCommit(t, u).0, u)
  {
    hide LoadCandidate, CommitOverQuota;
  }

  lemma MarksArePlain(t: Tables, u: Id)
    ensures Plain(t, MarkUnknown(t, u), u) && Plain(t, MarkFailed(t, u), u) && Plain(t, ToFinalizing(t, u).0, u)
  {
  }

  lemma TidyIsPlain(t: Tables, u: Id, stage: Key)
    ensures Plain(t, TidyStage(t, u, stage), u)
  {
  }

  lemma FilesArePlain(t: Tables, files: Files, u: Id)
    ensures Plain(t, t.(files := files), u)
  {
  }

  lemma OneIsPlain(t: Tables, t': Tables, u: Id)
    requires OneOf(t, t', u)
    ensures Plain(t, t', u)
  {
    hide Plain, BeginCommit, MarkUnknown, MarkFailed, ToFinalizing, TidyStage;
    BeginIsPlain(t, u);
    MarksArePlain(t, u);
    FilesArePlain(t, t'.files, u);
    if stage :| t' == TidyStage(t, u, stage) {
      TidyIsPlain(t, u, stage);
    }
  }

  /** Only the metadata transaction finishes or supersedes a row, adds a blob row or changes a resource. */
  lemma OnlyRecordingAttaches(t: Tables, u: Id, pc: Pc, io: bool)
    requires !pc.Recording? || u !in t.uploads
    ensures Plain(t, Micro(t, u, pc, io).0, u)
  {
    if pc.Recording? {
      MicroRecords(t, u, pc.r, pc.round, pc.approved, io);
      hide Micro, RecordMetadata, MarkUnknown;
      RecordingNothing(t, u, pc.r, pc.approved);
      NothingMarked(t, u);
    } else {
      hide Micro, OneOf, Plain;
      MicroIsOne(t, u, pc, io);
      OneIsPlain(t, Micro(t, u, pc, io).0, u);
    }
  }

  lemma NothingMarked(t: Tables, u: Id)
    requires u !in t.uploads
    ensures MarkUnknown(t, u) == t
  {
  }

  /** The upload is committed, with the same blob and mark. */
  predicate CommitStays(before: Upload, t: Tables, u: Id) {
    && u in t.uploads && t.uploads[u].phase == Committed && t.uploads[u].blob == before.blob
    && t.uploads[u].deduplicated == before.deduplicated
  }

  lemma LoadingStays(t: Tables, u: Id)
    requires u in t.uploads && RowHere(t, u) && t.uploads[u].phase == Committed
    ensures Load(t, u).0 == t
  {
    hide ReadyCommit, RowSound, Current, ReadyShape;
    ReadyFits(t, u);
    CommitStaged(t, u);
  }

  lemma TidyingStays(t: Tables, u: Id, r: Ready, outcome: Reply, strict: bool, io: bool)
    requires u in t.uploads && t.uploads[u].phase == Committed
    ensures CommitStays(t.uploads[u], Tidy(t, u, r, outcome, strict, io).0, u)
  {
    hide TidyStage, CommitStays;
    StageTidied(t, u, StageOf(r));
  }

  lemma StageTidied(t: Tables, u: Id, stage: Key)
    requires u in t.uploads && t.uploads[u].phase == Committed
    ensures CommitStays(t.uploads[u], t, u) && CommitStays(t.uploads[u], TidyStage(t, u, stage), u)
  {
    var upload := t.uploads[u];
    var t' := TidyStage(t, u, stage);
    assert t'.uploads[u] == if upload.staged == Some(stage) then upload.(staged := None) else upload;
  }

  /** A committed upload stays committed, unless confirming it meets a storage error. */
  lemma StaysCommitted(t: Tables, u: Id, pc: Pc, io: bool)
    requires TablesInv(t) && u in t.uploads && PcSound(t, u, pc) && t.uploads[u].phase == Committed
    requires !(pc.Confirming? && !io)
    ensures CommitStays(t.uploads[u], Micro(t, u, pc, io).0, u)
  {
    hide TablesInv, Current, RowIs, RowSound, Load, Count, Begin, Reload, CheckFinal, OpenStage, Write, MarkFailure,
         Advance, Recheck, CheckStage, Link, Verify, Look, Vet, Record, Tidy, Discard, Confirm;
    RowOf(t, u);
    match pc
    case Loading => LoadingStays(t, u);
    case Confirming(r, _, _) => CommittedConfirms(t, u, r);
    case Tidying(r, outcome, strict) => TidyingStays(t, u, r, outcome, strict, io);
    case _ =>
  }

  lemma MetadataCommits(t: Tables, u: Id, r: Ready, approved: Option<Candidate>)
    requires u in t.uploads
    ensures var (t', reply) := RecordMetadata(t, u, r, approved);
            && u in t'.uploads
            && (reply.Recorded? ==>
                  && !NewerCommitted(t, u) && (r.asset, r.source) in t'.resources
                  && Some(t'.resources[(r.asset, r.source)].blob) == t'.uploads[u].blob
                  && (forall k :: k in t.resources && k != (r.asset, r.source) ==>
                        k in t'.resources && t'.resources[k] == t.resources[k]))
            && (!reply.Recorded? ==> t'.resources == t.resources)
            && (!reply.Recorded? && t'.uploads[u].phase == Committed ==> t' == t)
  {
    hide LoadCandidate, Approved, NewerCommitted;
    RecordMetadataCases(t, u, r, approved);
    if RecordMetadata(t, u, r, approved).1.Recorded? {
      RecordedIsNewest(t, u, r, approved);
    }
    hide RecordMetadata;
  }

  lemma RecordedIsNewest(t: Tables, u: Id, r: Ready, approved: Option<Candidate>)
    requires u in t.uploads && RecordMetadata(t, u, r, approved).1.Recorded?
    ensures !NewerCommitted(t, u) && t.uploads[u].phase == Finalizing
  {
    hide LoadCandidate, Approved, NewerCommitted, InsertBlob, UpsertResource;
  }

  /** A commit comes after every commit of its slot so far, in the order of creation. */
  lemma CommitsInOrder(t: Tables, u: Id, v: Id, r: Ready, approved: Option<Candidate>)
    requires TablesInv(t) && CreationOrder(t.uploads) && u in t.uploads && v in t.uploads
    requires t.uploads[v].phase == Committed && Slot(t.uploads[v]) == Slot(t.uploads[u]) && u != v
    requires RecordMetadata(t, u, r, approved).1.Recorded?
    ensures v < u && t.uploads[v].rowid < t.uploads[u].rowid
  {
    hide LoadCandidate, Approved, InsertBlob, UpsertResource, TablesInv;
    SameAccount(t, u, v);
    NotNewer(t, u, v);
    ApartOf(t, u, v);
  }

  lemma NotNewer(t: Tables, u: Id, v: Id)
    requires u in t.uploads && v in t.uploads && !NewerCommitted(t, u)
    requires t.uploads[v].phase == Committed && t.uploads[v].account == t.uploads[u].account
    requires Slot(t.uploads[v]) == Slot(t.uploads[u])
    ensures t.uploads[v].rowid <= t.uploads[u].rowid
  {
  }

  lemma SameAccount(t: Tables, u: Id, v: Id)
    requires TablesInv(t) && u in t.uploads && v in t.uploads && Slot(t.uploads[v]) == Slot(t.uploads[u])
    ensures t.uploads[v].account == t.uploads[u].account
  {
    hide TablesInv;
    RowOf(t, u);
    RowOf(t, v);
  }

  lemma ApartOf(t: Tables, u: Id, v: Id)
    requires TablesInv(t) && u in t.uploads && v in t.uploads && u != v
    ensures t.uploads[u].rowid != t.uploads[v].rowid
  {
  }

  /** An older upload that reaches its metadata transaction late fails and lets go of its blob and
      its stage; the resource stays with the newer one. */
  lemma LateUploadFails(t: Tables, u: Id, r: Ready, approved: Option<Candidate>)
    requires TablesInv(t) && u in t.uploads && Proven(t, u, r) && NewerCommitted(t, u)
    ensures var (t', reply) := RecordMetadata(t, u, r, approved);
            reply.NeedsCheck? ||
            (&& reply.Superseded? && t'.resources == t.resources
             && t'.uploads[u].phase == Failed(true) && t'.uploads[u].blob.None? && t'.uploads[u].staged.None?)
  {
    hide TablesInv, NewerCommitted, LoadCandidate, Approved;
    RecordedBlob(t, u, r);
  }

  predicate InSlot(uploads: map<Id, Upload>, slot: ResourceKey, u: Id) {
    u in uploads && Slot(uploads[u]) == slot
  }

  /** What matters to a slot is as it was. */
  ghost predicate SlotSame(t: Tables, t': Tables, slot: ResourceKey) {
    && (forall u :: InSlot(t'.uploads, slot, u) && !InSlot(t.uploads, slot, u) ==> t'.uploads[u].phase != Committed)
    && (forall u :: InSlot(t.uploads, slot, u) ==>
          && InSlot(t'.uploads, slot, u)
          && (t'.uploads[u].phase == Committed <==> t.uploads[u].phase == Committed)
          && (t.uploads[u].phase == Committed ==> t'.uploads[u].blob == t.uploads[u].blob)
          && t'.uploads[u].account == t.uploads[u].account && t'.uploads[u].rowid == t.uploads[u].rowid)
    && (slot in t.resources ==> slot in t'.resources && t'.resources[slot] == t.resources[slot])
  }

  lemma SlotSameKeeps(t: Tables, t': Tables, slot: ResourceKey)
    requires SlotSame(t, t', slot) && PointsAtNewest(t, slot)
    ensures PointsAtNewest(t', slot)
  {
  }

  lemma CommitKeepsSlot(t: Tables, t': Tables, u: Id)
    requires TablesInv(t) && u in t.uploads && !NewerCommitted(t, u) && Effect(t, t', u)
    requires Evolves(t.uploads[u], t'.uploads[u])
    requires Slot(t.uploads[u]) in t'.resources && Some(t'.resources[Slot(t.uploads[u])].blob) == t'.uploads[u].blob
    requires t'.uploads[u].phase == Committed
    ensures PointsAtNewest(t', Slot(t.uploads[u]))
  {
    hide TablesInv;
    var slot := Slot(t.uploads[u]);
    forall v | v in t'.uploads && t'.uploads[v].phase == Committed && Slot(t'.uploads[v]) == slot && v != u
      ensures NewerCommitted(t', v)
    {
      assert t'.uploads[v] == t.uploads[v];
      SameAccount(t, u, v);
      NotNewer(t, u, v);
      ApartOf(t, u, v);
      assert t'.uploads[u].rowid > t'.uploads[v].rowid;
    }
  }

  lemma ProgressKeepsSlot(w: World, u: Id, io: bool, slot: ResourceKey)
    requires Inv(w) && u in w.sessions && !Touches(w, Progress(u, io), slot) && PointsAtNewest(w.t, slot)
    ensures PointsAtNewest(Step(w, Progress(u, io)).t, slot)
  {
    hide TablesInv, SessionInv, DuplicateInv, PointsAtNewest, Micro, Effect, Evolves, NewerCommitted;
    var pc := w.sessions[u];
    var t' := Micro(w.t, u, pc, io).0;
    MicroTables(w.t, u, pc, io);
    if u in w.t.uploads {
      SoundOf(w.t, u, pc);
      assert u in t'.uploads by { EffectKeys(w.t, t', u); }
      StepEvolves(w, Progress(u, io), u);
      if pc.Recording? {
        MicroRecords(w.t, u, pc.r, pc.round, pc.approved, io);
        RecordingKeepsSlot(w.t, t', u, pc.r, pc.round, pc.approved, slot);
      } else {
        OnlyRecordingAttaches(w.t, u, pc, io);
        if w.t.uploads[u].phase == Committed && Slot(w.t.uploads[u]) == slot {
          StaysCommitted(w.t, u, pc, io);
        }
        EffectSlot(w.t, t', u, slot);
        SlotSameKeeps(w.t, t', slot);
      }
    } else {
      OnlyRecordingAttaches(w.t, u, pc, io);
      EffectSlot(w.t, t', u, slot);
      SlotSameKeeps(w.t, t', slot);
    }
  }

  lemma MicroRecords(t: Tables, u: Id, r: Ready, round: nat, approved: Option<Candidate>, io: bool)
    ensures Micro(t, u, Recording(r, round, approved), io) == Record(t, u, r, round, approved)
  {
    hide Record;
  }

  lemma EffectSlot(t: Tables, t': Tables, u: Id, slot: ResourceKey)
    requires Effect(t, t', u)
    requires slot in t.resources ==> slot in t'.resources && t'.resources[slot] == t.resources[slot]
    requires u in t.uploads && u in t'.uploads ==> Evolves(t.uploads[u], t'.uploads[u])
    requires u in t.uploads && u in t'.uploads && Slot(t.uploads[u]) == slot ==>
               && (t'.uploads[u].phase == Committed <==> t.uploads[u].phase == Committed)
               && (t.uploads[u].phase == Committed ==> t'.uploads[u].blob == t.uploads[u].blob)
    ensures SlotSame(t, t', slot)
  {
  }

  lemma RecordCases(t: Tables, u: Id, r: Ready, round: nat, approved: Option<Candidate>)
    ensures var (t', reply) := RecordMetadata(t, u, r, approved);
            var after := Record(t, u, r, round, approved).0;
            if reply.PathChanged? then after == MarkUnknown(t, u) else after == t'
  {
    hide RecordMetadata, MarkUnknown;
  }

  lemma RecordingKeepsSlot(
    t: Tables, t': Tables, u: Id, r: Ready, round: nat, approved: Option<Candidate>, slot: ResourceKey)
    requires TablesInv(t) && u in t.uploads && t.uploads[u].phase == Finalizing && Current(t.uploads[u], r)
    requires PointsAtNewest(t, slot) && t' == Record(t, u, r, round, approved).0 && Effect(t, t', u)
    requires u in t'.uploads && Evolves(t.uploads[u], t'.uploads[u])
    ensures PointsAtNewest(t', slot)
  {
    hide TablesInv, PointsAtNewest, Effect, Evolves, NewerCommitted, RecordMetadata, Record;
    RecordCases(t, u, r, round, approved);
    MetadataCommits(t, u, r, approved);
    if RecordMetadata(t, u, r, approved).1.Recorded? && slot == (r.asset, r.source) {
      CommittedPhase(t, u, r, approved);
      CommitKeepsSlot(t, t', u);
    } else {
      EffectSlot(t, t', u, slot);
      SlotSameKeeps(t, t', slot);
    }
  }

  lemma CommittedPhase(t: Tables, u: Id, r: Ready, approved: Option<Candidate>)
    requires u in t.uploads && RecordMetadata(t, u, r, approved).1.Recorded?
    ensures u in RecordMetadata(t, u, r, approved).0.uploads
    ensures RecordMetadata(t, u, r, approved).0.uploads[u].phase == Committed
  {
    hide LoadCandidate, Approved, NewerCommitted, InsertBlob, UpsertResource;
  }

  lemma DeleteKeepsSlot(t: Tables, asset: Id, slot: ResourceKey)
    requires PointsAtNewest(t, slot)
    ensures PointsAtNewest(Durable.DeleteAsset(t, asset), slot)
  {
    if slot.0 != asset {
      SlotSameKeeps(t, Durable.DeleteAsset(t, asset), slot);
    }
  }

  lemma OpenRows(t: Tables, account: Id, asset: Option<Id>, source: string, manifest: Manifest, maxPart: nat)
    requires forall u :: u in t.uploads ==> u < t.next
    ensures var t' := OpenUpload(t, account, asset, source, manifest, maxPart).0;
            t'.resources == t.resources && forall u :: u in t.uploads ==> u in t'.uploads
  {
    hide AssetRow, UpsertAsset, ActiveTwin, OverQuota, ValidManifest, Charge;
    UpsertAssetOnly(t, account, asset);
  }

  lemma AttachRows(t: Tables, asset: Option<Id>, source: string, blob: Id, row: Blob, slot: ResourceKey)
    requires slot != (AssetRow(t, row.account, asset), source)
    ensures var t' := Durable.AttachDuplicate(t, asset, source, blob, row).0;
            && t'.uploads == t.uploads
            && (slot in t.resources ==> slot in t'.resources && t'.resources[slot] == t.resources[slot])
  {
    hide AssetRow, UpsertAsset;
    UpsertAssetOnly(t, row.account, asset);
  }

  lemma PartRows(t: Tables, u: Id, index: nat, bytes: Bytes)
    ensures Durable.StorePart(t, u, index, bytes).resources == t.resources
    ensures Durable.StorePart(t, u, index, bytes).uploads.Keys == t.uploads.Keys
    ensures Durable.MarkPart(t, u, index).resources == t.resources
    ensures Durable.MarkPart(t, u, index).uploads.Keys == t.uploads.Keys
  {
    hide Holds, Fits;
  }

  lemma OtherRows(w: World, action: Action)
    requires IsGentle(action) && !action.DeleteAsset? && !action.Open? && !action.AttachDuplicate?
    ensures Step(w, action).t.resources == w.t.resources
    ensures Step(w, action).t.uploads.Keys == w.t.uploads.Keys
  {
    hide PathRefused, PathPinned, ReferencedStages, Durable.StorePart, Durable.MarkPart;
    match action
    case StorePart(u, index, bytes) => PartRows(w.t, u, index, bytes);
    case MarkPart(u, index) => PartRows(w.t, u, index, []);
    case _ =>
  }

  lemma AttachIsStep(w: World, d: Id, slot: ResourceKey)
    requires !Touches(w, Action.AttachDuplicate(d), slot)
    ensures var t' := Step(w, Action.AttachDuplicate(d)).t;
            && t'.uploads == w.t.uploads
            && (slot in w.t.resources ==> slot in t'.resources && t'.resources[slot] == w.t.resources[slot])
  {
    hide AssetRow, Durable.AttachDuplicate;
    if d in w.duplicates {
      var r := w.duplicates[d];
      AttachRows(w.t, r.asset, r.source, r.blob, r.row, slot);
    }
  }

  lemma GentleRows(w: World, action: Action, slot: ResourceKey)
    requires forall u :: u in w.t.uploads ==> u < w.t.next
    requires IsGentle(action) && !action.DeleteAsset? && !Touches(w, action, slot)
    ensures var t' := Step(w, action).t;
            && (forall u :: u in w.t.uploads ==> u in t'.uploads)
            && (slot in w.t.resources ==> slot in t'.resources && t'.resources[slot] == w.t.resources[slot])
  {
    hide Step, Touches, OpenUpload;
    match action
    case Open(account, asset, source, manifest, maxPart) =>
      OpenRows(w.t, account, asset, source, manifest, maxPart);
      StepIsOpen(w, action);
    case AttachDuplicate(d) => AttachIsStep(w, d, slot);
    case _ => OtherRows(w, action);
  }

  lemma GentleSlot(t: Tables, t': Tables, slot: ResourceKey)
    requires Gentle(t, t') && forall u :: u in t.uploads ==> u in t'.uploads
    requires slot in t.resources ==> slot in t'.resources && t'.resources[slot] == t.resources[slot]
    ensures SlotSame(t, t', slot)
  {
    hide NoNewStages;
  }

  /** The resource keeps pointing at the newest committed upload's blob, step by step. */
  lemma StepKeepsSlot(w: World, action: Action, slot: ResourceKey)
    requires Inv(w) && !Touches(w, action, slot) && PointsAtNewest(w.t, slot)
    ensures PointsAtNewest(Step(w, action).t, slot)
  {
    hide TablesInv, SessionInv, DuplicateInv, PointsAtNewest, Gentle, Touches, OpenUpload, Durable.AttachDuplicate,
         Durable.DeleteAsset, AccountInUse, Referenced;
    if action.DeleteAsset? {
      DeleteKeepsSlot(w.t, action.target, slot);
    } else if IsGentle(action) {
      GentleStep(w, action);
      Below(w.t);
      GentleRows(w, action, slot);
      GentleSlot(w.t, Step(w, action).t, slot);
      SlotSameKeeps(w.t, Step(w, action).t, slot);
    } else if action.Progress? && action.upload in w.sessions {
      ProgressKeepsSlot(w, action.upload, action.io, slot);
    } else {
      RoughSlot(w, action, slot);
      SlotSameKeeps(w.t, Step(w, action).t, slot);
    }
  }

  lemma RoughSlot(w: World, action: Action, slot: ResourceKey)
    requires !IsGentle(action) && !(action.Progress? && action.upload in w.sessions)
    ensures SlotSame(w.t, Step(w, action).t, slot)
  {
    hide AccountInUse, Referenced;
  }

  /** Over every run without a deduplicated create on the slot and without a committed upload made
      unknown, uploads are ordered by creation and the resource has the newest committed blob. */
  lemma {:induction false} ResourceIsNewest(actions: seq<Action>, slot: ResourceKey)
    requires AdmissibleRun(actions) && UntouchedRun(actions, slot)
    ensures CreationOrder(Run(actions).t.uploads) && PointsAtNewest(Run(actions).t, slot)
  {
    hide Inv, Step, PointsAtNewest, CreationOrder;
    if actions != [] {
      var earlier, last := actions[..|actions| - 1], actions[|actions| - 1];
      RunKeeps(earlier);
      ResourceIsNewest(earlier, slot);
      StepOrder(Run(earlier), last);
      StepKeepsSlot(Run(earlier), last, slot);
    } else {
      EmptySlot(slot);
    }
  }

  lemma EmptySlot(slot: ResourceKey)
    ensures CreationOrder(START.t.uploads) && PointsAtNewest(START.t, slot)
  {
  }
}

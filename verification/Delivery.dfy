/** While nothing is reclaimed, no stage is lost and storage reports no errors, concurrent completions
    of good uploads all commit, and uploads of equal content end up sharing one blob row. */
module Delivery {
  import opened Prelude
  import opened Content
  import opened Durable
  import opened Session
  import opened World
  import opened TableInvariant
  import opened TableProofs
  import opened RequestInvariant
  import opened RequestProofs
  import opened SessionProofs
  import opened ServerProofs
  import opened WorldProofs
  import opened Protocol
  import opened Supersession
  import opened LoneRun
  import opened Recovery
  import opened Staging
  import opened Quota

  /* ---- Calm runs ---- */

  /** No object goes, no stage of a started commit goes, and storage works. Requests may still end
      anywhere, the server may crash, and everything else may happen. */
  predicate Calm(action: Action) {
    match action
    case Reclaim(_) => false
    case ReclaimTorn(_) => false
    case LoseStage(_) => false
    case Progress(_, io) => io
    case _ => true
  }

  predicate CalmRun(actions: seq<Action>) {
    forall i :: 0 <= i < |actions| ==> Calm(actions[i])
  }

  lemma {:induction false} CalmIsAdmissible(actions: seq<Action>)
    requires CalmRun(actions)
    ensures AdmissibleRun(actions)
  {
    if actions != [] {
      CalmIsAdmissible(actions[..|actions| - 1]);
    }
  }

  /** Every blob row has its object. */
  predicate AllHeld(t: Tables) {
    forall b :: b in t.blobs ==> t.blobs[b].key in t.files
  }

  /** A good upload is neither failed nor unknown, and in its last phase either the object or the stage
      is there. */
  predicate GoodRow(files: Files, upload: Upload) {
    Coherent(upload.manifest) ==>
      && upload.phase != Unknown && upload.phase != Failed(false)
      && (upload.phase == Finalizing && upload.staged.Some? && upload.proof.Some? ==>
            || upload.proof.value.final in files
            || Holds(files, upload.staged.value, upload.manifest.size, upload.manifest.hash))
  }

  /** The same at each point of a request. */
  predicate GoodAt(t: Tables, u: Id, pc: Pc)
    requires u in t.uploads
  {
    match pc
    case Writing(r, _, _) => StageOf(r) in t.files
    case Failing => false
    case Advancing(r) => r.final in t.files || Holds(t.files, StageOf(r), r.size, r.hash)
    case CheckingStage(r) => Holds(t.files, StageOf(r), r.size, r.hash)
    case Linking(r) => Holds(t.files, StageOf(r), r.size, r.hash)
    case Verifying(r) => r.final in t.files
    case Done(reply) =>
      && (reply.Ok? || reply.MissingParts? || reply.QuotaExceeded? || reply.Overtaken?)
      && (reply.Overtaken? ==> t.uploads[u].phase == Failed(true))
    case _ => true
  }

  predicate Good(t: Tables, u: Id, pc: Pc) {
    u in t.uploads && Coherent(t.uploads[u].manifest) ==> GoodAt(t, u, pc)
  }

  /** What an upload was superseded by is still there. */
  predicate OvertakenRows(t: Tables) {
    forall u :: u in t.uploads && t.uploads[u].phase == Failed(true) ==> NewerCommitted(t, u)
  }

  predicate CalmInv(w: World) {
    && AllHeld(w.t) && OvertakenRows(w.t)
    && (forall u :: u in w.t.uploads ==> GoodRow(w.t.files, w.t.uploads[u]))
    && (forall u :: u in w.sessions ==> Good(w.t, u, w.sessions[u]))
  }

  /* ---- The request's own steps ---- */

  /** A good upload's record, its request's copy of it, and what is known of its stage. */
  predicate GoodReady(t: Tables, u: Id, r: Ready) {
    && u in t.uploads && Coherent(t.uploads[u].manifest) && Current(t.uploads[u], r) && ReadyShape(u, r)
    && r.size == t.uploads[u].manifest.size && r.hash == t.uploads[u].manifest.hash
  }

  lemma ReadyIsGood(t: Tables, u: Id, r: Ready)
    requires TablesInv(t) && u in t.uploads && Coherent(t.uploads[u].manifest)
    requires Current(t.uploads[u], r) && ReadyShape(u, r) && Started(t.uploads[u])
    ensures GoodReady(t, u, r)
  {
    hide TablesInv, Coherent;
    RowOf(t, u);
  }

  /** An object under a good upload's final key is its content. */
  lemma FinalIsContent(t: Tables, u: Id, r: Ready)
    requires ObjectsIntact(t.files) && GoodReady(t, u, r) && r.final in t.files
    ensures Holds(t.files, r.final, r.size, r.hash)
  {
    hide Concatenated;
  }

  lemma LoadGood(t: Tables, u: Id)
    requires TablesInv(t) && u in t.uploads && Coherent(t.uploads[u].manifest) && GoodRow(t.files, t.uploads[u])
    ensures Load(t, u).0 == t && GoodAt(t, u, Load(t, u).1)
  {
    hide TablesInv, Coherent, Holds;
    RowOf(t, u);
    if Started(t.uploads[u]) {
      ReadyFits(t, u);
      CommitStaged(t, u);
    }
  }

  lemma CountGood(t: Tables, u: Id)
    requires TablesInv(t) && u in t.uploads
    ensures Count(t, u).0 == t && GoodAt(t, u, Count(t, u).1)
  {
    hide TablesInv, AllReceived;
    RowOf(t, u);
  }

  lemma BeginGood(t: Tables, u: Id)
    requires TablesInv(t) && SessionInv(t, u, Beginning) && u in t.uploads && GoodRow(t.files, t.uploads[u])
    ensures u in Begin(t, u).0.uploads
    ensures GoodRow(Begin(t, u).0.files, Begin(t, u).0.uploads[u]) && GoodAt(Begin(t, u).0, u, Begin(t, u).1)
  {
    hide TablesInv, Coherent, AllReceived, LoadCandidate, CommitOverQuota;
    RowOf(t, u);
  }

  lemma ReloadGood(t: Tables, u: Id)
    requires TablesInv(t) && SessionInv(t, u, Reloading) && u in t.uploads
    ensures Reload(t, u).0 == t && GoodAt(t, u, Reload(t, u).1)
  {
    hide TablesInv;
    RowOf(t, u);
    ReadyFits(t, u);
  }

  lemma CheckFinalGood(t: Tables, u: Id, r: Ready)
    requires ObjectsIntact(t.files) && GoodReady(t, u, r) && r.staged.Some?
    ensures CheckFinal(t, u, r, true).0 == t && GoodAt(t, u, CheckFinal(t, u, r, true).1)
  {
    hide ObjectsIntact, GoodReady;
    if r.final in t.files {
      FinalIsContent(t, u, r);
    }
  }

  lemma OpenStageGood(t: Tables, u: Id, r: Ready)
    requires GoodReady(t, u, r) && GoodRow(t.files, t.uploads[u]) && t.uploads[u].phase == CommitStarted
    ensures var (t', pc') := OpenStage(t, r, true);
            t'.uploads == t.uploads && GoodRow(t'.files, t.uploads[u]) && GoodAt(t', u, pc')
  {
    hide Coherent;
  }

  lemma WriteGood(t: Tables, u: Id, r: Ready, k: nat, read: Bytes)
    requires GoodReady(t, u, r) && GoodRow(t.files, t.uploads[u]) && t.uploads[u].phase == CommitStarted
    requires PartsHeld(t.files, u, t.uploads[u]) && Staged(t.files, t.uploads[u])
    requires StagedAt(t.files, Writing(r, k, read)) && GoodAt(t, u, Writing(r, k, read))
    ensures var (t', pc') := Write(t, u, r, k, read, true);
            t'.uploads == t.uploads && GoodRow(t'.files, t.uploads[u]) && GoodAt(t', u, pc')
  {
    hide Concatenated;
    if k < |r.manifest.parts| {
      assert k in t.uploads[u].received;
    } else {
      assert r.manifest.parts[..k] == r.manifest.parts;
    }
  }

  lemma AdvanceGood(t: Tables, u: Id, r: Ready)
    requires GoodReady(t, u, r) && t.uploads[u].phase == CommitStarted && GoodAt(t, u, Advancing(r)) && r.staged.Some?
    ensures var (t', pc') := Advance(t, u, r);
            u in t'.uploads && GoodRow(t'.files, t'.uploads[u]) && GoodAt(t', u, pc')
  {
    hide Coherent;
  }

  /** A joined blob has its object under the final key. */
  lemma JoinedIsHeld(t: Tables, u: Id, r: Ready)
    requires TablesInv(t) && AllHeld(t) && GoodReady(t, u, r) && t.uploads[u].phase == Finalizing && r.staged.None?
    ensures r.final in t.files
  {
    hide TablesInv, Coherent;
    RowOf(t, u);
    PlacedOf(t, t.uploads[u].blob.value);
  }

  lemma RecheckGood(t: Tables, u: Id, r: Ready)
    requires TablesInv(t) && AllHeld(t) && GoodReady(t, u, r) && t.uploads[u].phase == Finalizing
    requires GoodRow(t.files, t.uploads[u])
    ensures Recheck(t, u, r, true).0 == t && GoodAt(t, u, Recheck(t, u, r, true).1)
  {
    assert ObjectsIntact(t.files);
    hide TablesInv, AllHeld, ObjectsIntact, GoodReady, GoodRow, GoodAt, Recheck;
    if r.staged.None? {
      JoinedIsHeld(t, u, r);
    }
    if r.final in t.files {
      FinalIsContent(t, u, r);
    }
    RecheckedGood(t, u, r);
  }

  lemma RecheckedGood(t: Tables, u: Id, r: Ready)
    requires GoodReady(t, u, r) && GoodRow(t.files, t.uploads[u]) && t.uploads[u].phase == Finalizing
    requires r.staged.None? ==> r.final in t.files
    requires r.final in t.files ==> Holds(t.files, r.final, r.size, r.hash)
    ensures Recheck(t, u, r, true).0 == t && GoodAt(t, u, Recheck(t, u, r, true).1)
  {
    hide Coherent, ReadyShape;
  }

  lemma PublishGood(t: Tables, u: Id, pc: Pc)
    requires ObjectsIntact(t.files) && (pc.CheckingStage? || pc.Linking? || pc.Verifying?)
    requires GoodReady(t, u, pc.r) && GoodAt(t, u, pc) && GoodRow(t.files, t.uploads[u])
    requires t.uploads[u].phase == Finalizing
    ensures var (t', pc') := Micro(t, u, pc, true);
            t'.uploads == t.uploads && GoodRow(t'.files, t.uploads[u]) && GoodAt(t', u, pc')
  {
    if pc.Verifying? {
      FinalIsContent(t, u, pc.r);
    }
    hide Coherent, ObjectsIntact;
  }

  lemma WindowGood(t: Tables, u: Id, pc: Pc)
    requires TablesInv(t) && SessionInv(t, u, pc) && u in t.uploads && (pc.Looking? || pc.Vetting?)
    ensures Micro(t, u, pc, true).0 == t && GoodAt(t, u, Micro(t, u, pc, true).1)
  {
    hide TablesInv, LoadCandidate, RowIs, Current, ReadyShape;
    if pc.Vetting? {
      VetPasses(t, u, pc.r, pc.candidate);
      FinalHeld(t, u, pc.r);
    }
  }

  lemma RecordGood(t: Tables, u: Id, r: Ready, round: nat, approved: Option<Candidate>)
    requires TablesInv(t) && SessionInv(t, u, Recording(r, round, approved)) && u in t.uploads
    requires GoodRow(t.files, t.uploads[u])
    ensures u in Record(t, u, r, round, approved).0.uploads
    ensures var (t', pc') := Record(t, u, r, round, approved);
            GoodRow(t'.files, t'.uploads[u]) && GoodAt(t', u, pc')
  {
    hide TablesInv, RecordMetadata, LoadCandidate, RowIs, ReadyShape, Coherent;
    RecordedRow(t, u, r, round, approved);
    RecordingTouches(t, u, r, approved);
  }

  lemma EndGood(t: Tables, u: Id, pc: Pc)
    requires SessionInv(t, u, pc) && u in t.uploads && (pc.Tidying? || pc.Discarding?)
    ensures u in Micro(t, u, pc, true).0.uploads
    ensures var (t', pc') := Micro(t, u, pc, true); GoodRow(t'.files, t'.uploads[u]) && GoodAt(t', u, pc')
  {
    hide Coherent, Holds;
  }

  lemma ConfirmGood(t: Tables, u: Id, r: Ready, resource: Id, deduplicated: bool)
    requires TablesInv(t) && SessionInv(t, u, Confirming(r, resource, deduplicated)) && u in t.uploads
    ensures Confirm(t, u, r, resource, deduplicated, true).0 == t
    ensures GoodAt(t, u, Confirm(t, u, r, resource, deduplicated, true).1)
  {
    hide TablesInv, Confirm;
    CommittedConfirms(t, u, r);
  }

  predicate Starting(pc: Pc) {
    pc.CheckingFinal? || pc.OpeningStage? || pc.Writing? || pc.Advancing?
  }

  predicate Publishing(pc: Pc) {
    pc.Rechecking? || pc.CheckingStage? || pc.Linking? || pc.Verifying?
  }

  lemma CopyPhase(t: Tables, u: Id, pc: Pc)
    requires SessionInv(t, u, pc) && u in t.uploads && (Starting(pc) || Publishing(pc))
    ensures InPhase(t, u, pc.r, if Starting(pc) then CommitStarted else Finalizing) && ReadyShape(u, pc.r)
  {
    hide Current, ReadyShape;
  }

  /** The request's copy of a good upload's record is current, and what it needs is there. */
  lemma CopyIsGood(t: Tables, u: Id, pc: Pc)
    requires TablesInv(t) && SessionInv(t, u, pc) && u in t.uploads && Coherent(t.uploads[u].manifest)
    requires Starting(pc) || Publishing(pc)
    ensures GoodReady(t, u, pc.r) && ObjectsIntact(t.files) && PartsHeld(t.files, u, t.uploads[u])
    ensures t.uploads[u].phase == if Starting(pc) then CommitStarted else Finalizing
    ensures Starting(pc) ==> pc.r.staged.Some?
  {
    CopyPhase(t, u, pc);
    assert ObjectsIntact(t.files);
    hide TablesInv, SessionInv, Coherent, ObjectsIntact, GoodReady;
    RowOf(t, u);
    CommitStaged(t, u);
    ReadyIsGood(t, u, pc.r);
  }

  /** Every step of a good upload's request leaves it good. */
  lemma MicroGood(t: Tables, u: Id, pc: Pc)
    requires TablesInv(t) && SessionInv(t, u, pc) && u in t.uploads && Coherent(t.uploads[u].manifest)
    requires AllHeld(t) && GoodRow(t.files, t.uploads[u]) && GoodAt(t, u, pc)
    requires Staged(t.files, t.uploads[u]) && StagedAt(t.files, pc)
    ensures u in Micro(t, u, pc, true).0.uploads
    ensures var (t', pc') := Micro(t, u, pc, true); GoodRow(t'.files, t'.uploads[u]) && GoodAt(t', u, pc')
  {
    hide TablesInv, SessionInv, Coherent, GoodRow, GoodAt, Staged, StagedAt, AllHeld, ObjectsIntact, GoodReady,
         PartsHeld, Begin, Record, Write, OpenStage, Confirm, Count, MarkFailure, Advance, Tidy, Discard, Load,
         Reload, CheckFinal, Recheck, Look, Vet;
    match pc
    case Loading => LoadGood(t, u);
    case Counting => CountGood(t, u);
    case Beginning => BeginGood(t, u);
    case Reloading => ReloadGood(t, u);
    case CheckingFinal(r) => CopyIsGood(t, u, pc); CheckFinalGood(t, u, r);
    case OpeningStage(r) => CopyIsGood(t, u, pc); OpenStageGood(t, u, r);
    case Writing(r, k, read) => CopyIsGood(t, u, pc); WriteGood(t, u, r, k, read);
    case Failing => assert false by { NeverFailing(t, u); }
    case Advancing(r) => CopyIsGood(t, u, pc); AdvanceGood(t, u, r);
    case Rechecking(r) => CopyIsGood(t, u, pc); RecheckGood(t, u, r);
    case CheckingStage(r) => CopyIsGood(t, u, pc); PublishGood(t, u, pc);
    case Linking(r) => CopyIsGood(t, u, pc); PublishGood(t, u, pc);
    case Verifying(r) => CopyIsGood(t, u, pc); PublishGood(t, u, pc);
    case Looking(_, _, _) => WindowGood(t, u, pc);
    case Vetting(_, _, _, _) => WindowGood(t, u, pc);
    case Recording(r, round, approved) => RecordGood(t, u, r, round, approved);
    case Tidying(_, _, _) => EndGood(t, u, pc);
    case Discarding(_) => EndGood(t, u, pc);
    case Confirming(r, resource, deduplicated) => ConfirmGood(t, u, r, resource, deduplicated);
    case Done(_) =>
  }

  lemma NeverFailing(t: Tables, u: Id)
    requires u in t.uploads
    ensures !GoodAt(t, u, Failing)
  {
  }

  /** A blob row comes with its object, and a request takes none away. */
  lemma MicroHeld(t: Tables, u: Id, pc: Pc, io: bool)
    requires TablesInv(t) && SessionInv(t, u, pc) && AllHeld(t)
    ensures AllHeld(Micro(t, u, pc, io).0)
  {
    hide TablesInv, SessionInv, Effect, Micro;
    var t' := Micro(t, u, pc, io).0;
    MicroTables(t, u, pc, io);
    EffectObjects(t, t', u);
    forall b | b in t'.blobs ensures t'.blobs[b].key in t'.files {
      if b in t.blobs {
        BlobAccount(t, b);
        EffectBlob(t, t', u, b);
      } else if pc.Recording? && u in t.uploads {
        InsertedIsHeld(t, u, pc, io, b);
      } else {
        OnlyRecordingAttaches(t, u, pc, io);
      }
    }
  }

  lemma EffectObjects(t: Tables, t': Tables, u: Id)
    requires Effect(t, t', u)
    ensures forall k :: k in t.files && k.ObjectKey? ==> k in t'.files
  {
  }

  lemma EffectBlob(t: Tables, t': Tables, u: Id, b: Id)
    requires Effect(t, t', u) && b in t.blobs
    ensures b in t'.blobs && t'.blobs[b] == t.blobs[b]
  {
  }

  lemma InsertedIsHeld(t: Tables, u: Id, pc: Pc, io: bool, b: Id)
    requires SessionInv(t, u, pc) && pc.Recording? && u in t.uploads
    requires b in Micro(t, u, pc, io).0.blobs && b !in t.blobs
    ensures Micro(t, u, pc, io).0.blobs[b].key in t.files && Micro(t, u, pc, io).0.blobs[b].key.ObjectKey?
  {
    ProvenPhase(t, u, pc);
    ReadyObject(t, u, pc);
    MicroRecords(t, u, pc.r, pc.round, pc.approved, io);
    RecordCases(t, u, pc.r, pc.round, pc.approved);
    MetadataSettles(t, u, pc.r, pc.approved);
    hide Micro, Record, RecordMetadata, SessionInv;
  }

  /* ---- Supersession lasts ---- */

  lemma RecordingOvertakes(t: Tables, u: Id, r: Ready, round: nat, approved: Option<Candidate>)
    requires u in t.uploads && u in Record(t, u, r, round, approved).0.uploads
    ensures Record(t, u, r, round, approved).0.uploads[u].phase == Failed(true) ==>
              t.uploads[u].phase == Failed(true) || NewerCommitted(t, u)
  {
    hide LoadCandidate, Approved, NewerCommitted, InsertBlob, UpsertResource;
  }

  /** A superseding upload that stays committed goes on superseding. */
  lemma NewerStays(t: Tables, t': Tables, u: Id)
    requires u in t.uploads && u in t'.uploads && NewerCommitted(t, u) && Evolves(t.uploads[u], t'.uploads[u])
    requires forall v ::
               v in t.uploads && Slot(t.uploads[v]) == Slot(t.uploads[u]) && t.uploads[v].phase == Committed ==>
               v in t'.uploads && Evolves(t.uploads[v], t'.uploads[v]) && t'.uploads[v].phase == Committed
    ensures NewerCommitted(t', u)
  {
    var v :| v in t.uploads && t.uploads[v].account == t.uploads[u].account
      && Slot(t.uploads[v]) == Slot(t.uploads[u])
      && t.uploads[v].rowid > t.uploads[u].rowid && t.uploads[v].phase == Committed;
    assert t'.uploads[v].rowid > t'.uploads[u].rowid;
  }

  lemma ProgressOvertaken(w: World, u: Id)
    requires Inv(w) && OvertakenRows(w.t) && u in w.sessions
    ensures OvertakenRows(Step(w, Progress(u, true)).t)
  {
    hide TablesInv, SessionInv, DuplicateInv, Micro, Effect, Evolves, NewerCommitted, RowIs, Current;
    var pc := w.sessions[u];
    var t' := Micro(w.t, u, pc, true).0;
    MicroTables(w.t, u, pc, true);
    EffectKeys(w.t, t', u);
    EffectOthers(w.t, t', u);
    if u in w.t.uploads {
      SoundOf(w.t, u, pc);
      OwnOvertaken(w.t, u, pc);
    }
    forall x | x in t'.uploads && t'.uploads[x].phase == Failed(true) ensures NewerCommitted(t', x) {
      assert NewerCommitted(w.t, x);
      StepEvolves(w, Progress(u, true), x);
      forall v | v in w.t.uploads && Slot(w.t.uploads[v]) == Slot(w.t.uploads[x]) && w.t.uploads[v].phase == Committed
        ensures v in t'.uploads && Evolves(w.t.uploads[v], t'.uploads[v]) && t'.uploads[v].phase == Committed
      {
        StepEvolves(w, Progress(u, true), v);
        if v == u {
          StaysCommitted(w.t, u, pc, true);
        }
      }
      NewerStays(w.t, t', x);
    }
  }

  lemma OwnOvertaken(t: Tables, u: Id, pc: Pc)
    requires OvertakenRows(t) && u in t.uploads && PcSound(t, u, pc) && u in Micro(t, u, pc, true).0.uploads
    ensures Micro(t, u, pc, true).0.uploads[u].phase == Failed(true) ==> NewerCommitted(t, u)
  {
    hide Micro, NewerCommitted, Record, PcSound;
    if pc.Recording? {
      MicroRecords(t, u, pc.r, pc.round, pc.approved, true);
      RecordingOvertakes(t, u, pc.r, pc.round, pc.approved);
    } else {
      OnlyRecordingAttaches(t, u, pc, true);
    }
  }

  /** Uploads of one slot stay or go together. */
  predicate SlotsKept(t: Tables, t': Tables) {
    forall u, v :: u in t'.uploads && u in t.uploads && v in t.uploads && Slot(t.uploads[v]) == Slot(t.uploads[u]) ==>
      v in t'.uploads
  }

  lemma KeptOvertaken(t: Tables, t': Tables)
    requires OvertakenRows(t) && UploadsKept(t, t') && SlotsKept(t, t')
    ensures OvertakenRows(t')
  {
    forall u | u in t'.uploads && t'.uploads[u].phase == Failed(true) ensures NewerCommitted(t', u) {
      assert Grown(t.uploads[u], t'.uploads[u]);
      forall v | v in t.uploads && Slot(t.uploads[v]) == Slot(t.uploads[u]) && t.uploads[v].phase == Committed
        ensures v in t'.uploads && Evolves(t.uploads[v], t'.uploads[v]) && t'.uploads[v].phase == Committed
      {
        assert Grown(t.uploads[v], t'.uploads[v]);
      }
      NewerStays(t, t', u);
    }
  }

  lemma DeleteSlots(t: Tables, asset: Id)
    ensures SlotsKept(t, Durable.DeleteAsset(t, asset))
  {
  }

  lemma AllSlots(t: Tables, t': Tables)
    requires forall u :: u in t.uploads ==> u in t'.uploads
    ensures SlotsKept(t, t')
  {
  }

  /* ---- Everything else ---- */

  lemma OthersGood(t: Tables, t': Tables, u: Id, v: Id)
    requires TablesInv(t) && Effect(t, t', u) && v != u && v in t.uploads && GoodRow(t.files, t.uploads[v])
    ensures v in t'.uploads && t'.uploads[v] == t.uploads[v] && GoodRow(t'.files, t'.uploads[v])
  {
    hide TablesInv, Coherent;
    RowOf(t, v);
  }

  lemma OtherGoodAt(t: Tables, t': Tables, u: Id, v: Id, pc: Pc)
    requires Effect(t, t', u) && v != u && SessionInv(t, v, pc) && Good(t, v, pc)
    ensures Good(t', v, pc)
  {
    hide Coherent, PcSound;
  }

  lemma OwnGood(w: World, u: Id)
    requires Inv(w) && StagingInv(w) && CalmInv(w) && u in w.sessions
    ensures var (t', pc') := Micro(w.t, u, w.sessions[u], true);
            Good(t', u, pc') && (u in t'.uploads ==> GoodRow(t'.files, t'.uploads[u]))
  {
    hide TablesInv, SessionInv, DuplicateInv, Micro, Effect, Staged, StagedAt, StagesStarted, GoodAt, Coherent, Evolves,
         AllHeld, OvertakenRows;
    var pc := w.sessions[u];
    var t' := Micro(w.t, u, pc, true).0;
    MicroTables(w.t, u, pc, true);
    EffectKeys(w.t, t', u);
    if u in w.t.uploads {
      StepEvolves(w, Progress(u, true), u);
      SameManifest(w.t.uploads[u], t'.uploads[u]);
      assert Good(w.t, u, pc);
      if Coherent(w.t.uploads[u].manifest) {
        MicroGood(w.t, u, pc);
      }
    }
  }

  lemma SameManifest(before: Upload, after: Upload)
    requires Evolves(before, after)
    ensures after.manifest == before.manifest && after.account == before.account
  {
  }

  lemma ProgressGood(w: World, u: Id)
    requires Inv(w) && StagingInv(w) && CalmInv(w) && u in w.sessions
    ensures CalmInv(Step(w, Progress(u, true)))
  {
    hide TablesInv, SessionInv, DuplicateInv, Micro, Effect, StagingInv, GoodRow, Good, AllHeld, OvertakenRows;
    var pc := w.sessions[u];
    var (t', pc') := Micro(w.t, u, pc, true);
    MicroTables(w.t, u, pc, true);
    MicroHeld(w.t, u, pc, true);
    ProgressOvertaken(w, u);
    OwnGood(w, u);
    EffectKeys(w.t, t', u);
    forall v | v in t'.uploads ensures GoodRow(t'.files, t'.uploads[v]) {
      if v != u {
        OthersGood(w.t, t', u, v);
      }
    }
    forall v | v in w.sessions && v != u ensures Good(t', v, w.sessions[v]) {
      OtherGoodAt(w.t, t', u, v, w.sessions[v]);
    }
  }

  lemma CutGood(t: Tables, u: Id, pc: Pc, tear: nat)
    requires SessionInv(t, u, pc) && u in t.uploads && GoodRow(t.files, t.uploads[u])
    ensures GoodRow(Cut(t, pc, tear).files, t.uploads[u])
  {
    hide Coherent;
  }

  lemma CutObjects(t: Tables, pc: Pc, tear: nat)
    ensures Cut(t, pc, tear).blobs == t.blobs && Cut(t, pc, tear).uploads == t.uploads
    ensures Cut(t, pc, tear).files.Keys == t.files.Keys
  {
  }

  lemma AbandonGood(w: World, u: Id, tear: nat)
    requires Inv(w) && CalmInv(w) && u in w.sessions
    ensures CalmInv(Step(w, Abandon(u, tear)))
  {
    hide TablesInv, SessionInv, DuplicateInv, Effect, Cut, GoodRow, Good;
    var pc := w.sessions[u];
    var t' := Cut(w.t, pc, tear);
    CutStage(w.t, u, pc, tear);
    CutObjects(w.t, pc, tear);
    assert AllHeld(t');
    KeptNewer(w.t, t');
    hide AllHeld, OvertakenRows;
    forall v | v in t'.uploads ensures GoodRow(t'.files, t'.uploads[v]) {
      if v == u {
        CutGood(w.t, u, pc, tear);
      } else {
        OthersGood(w.t, t', u, v);
      }
    }
    forall v | v in w.sessions && v != u ensures Good(t', v, w.sessions[v]) {
      OtherGoodAt(w.t, t', u, v, w.sessions[v]);
    }
  }

  lemma KeptNewer(t: Tables, t': Tables)
    requires OvertakenRows(t) && t'.uploads == t.uploads
    ensures OvertakenRows(t')
  {
    hide NewerCommitted;
    forall u | u in t.uploads && t.uploads[u].phase == Failed(true) ensures NewerCommitted(t', u) {
      NewerSameRows(t, t', u);
    }
  }

  lemma NewerSameRows(t: Tables, t': Tables, u: Id)
    requires u in t.uploads && t'.uploads == t.uploads
    ensures NewerCommitted(t', u) == NewerCommitted(t, u)
  {
  }

  predicate HasStage(t: Tables, u: Id)
    requires u in t.uploads
  {
    PreCommit(t.uploads[u]) && t.uploads[u].staged.Some? && t.uploads[u].staged.value in t.files
  }

  /** What a calm action of others leaves as it is: parts, objects, and the stages of started commits. */
  predicate CalmKept(t: Tables, t': Tables) {
    && UploadsKept(t, t') && NoNewStages(t, t') && SlotsKept(t, t')
    && (forall b :: b in t'.blobs ==> b in t.blobs && t'.blobs[b] == t.blobs[b])
    && (forall k :: k in t.files && k.ObjectKey? ==> k in t'.files)
    && (forall u :: u in t.uploads && u in t'.uploads && HasStage(t, u) ==> t.uploads[u].staged.value in t'.files)
  }

  lemma KeptHeld(t: Tables, t': Tables)
    requires TablesInv(t) && AllHeld(t) && CalmKept(t, t')
    ensures AllHeld(t')
  {
    hide TablesInv, UploadsKept, NoNewStages, SlotsKept;
    forall b | b in t'.blobs ensures t'.blobs[b].key in t'.files {
      BlobAccount(t, b);
    }
  }

  lemma KeptGood(t: Tables, t': Tables, u: Id)
    requires TablesInv(t) && CalmKept(t, t') && u in t'.uploads && (u in t.uploads ==> GoodRow(t.files, t.uploads[u]))
    ensures GoodRow(t'.files, t'.uploads[u])
  {
    hide TablesInv, Coherent, SlotsKept;
    if u in t.uploads {
      RowOf(t, u);
      assert Grown(t.uploads[u], t'.uploads[u]);
    }
  }

  lemma KeptGoodAt(t: Tables, t': Tables, u: Id, pc: Pc)
    requires CalmKept(t, t') && SessionInv(t, u, pc) && Good(t, u, pc)
    ensures Good(t', u, pc)
  {
    hide Coherent, SlotsKept;
    if u in t'.uploads {
      assert u in t.uploads && Grown(t.uploads[u], t'.uploads[u]);
    }
  }

  /* ---- Which actions those are ---- */

  lemma FilesSame(t: Tables, t': Tables)
    requires UploadsKept(t, t') && SlotsKept(t, t')
    requires forall k :: k in t.files ==> k in t'.files && t'.files[k] == t.files[k]
    requires NoNewStages(t, t') && forall b :: b in t'.blobs ==> b in t.blobs && t'.blobs[b] == t.blobs[b]
    ensures CalmKept(t, t')
  {
    hide UploadsKept, SlotsKept, NoNewStages;
  }

  lemma CleanKept(t: Tables, path: AccountPath)
    requires UploadsKept(t, Durable.CleanStages(t, path)) && NoNewStages(t, Durable.CleanStages(t, path))
    ensures CalmKept(t, Durable.CleanStages(t, path))
  {
    hide UploadsKept, NoNewStages;
    var t' := Durable.CleanStages(t, path);
    AllSlots(t, t');
    hide SlotsKept;
    forall u | u in t.uploads && HasStage(t, u) ensures t.uploads[u].staged.value in t'.files {
      assert t.uploads[u].staged.value in ReferencedStages(t);
    }
  }

  lemma OpenFiles(t: Tables, account: Id, asset: Option<Id>, source: string, manifest: Manifest, maxPart: nat)
    ensures var t' := OpenUpload(t, account, asset, source, manifest, maxPart).0;
            t'.files == t.files && t'.blobs == t.blobs
  {
    hide ActiveTwin, OverQuota, Charge, ValidManifest, AssetRow, LoadCandidate;
  }

  lemma OpenStepFiles(w: World, action: Action)
    requires action.Open?
    ensures Step(w, action).t.files == w.t.files && Step(w, action).t.blobs == w.t.blobs
  {
    hide OpenUpload;
    OpenFiles(w.t, action.account, action.asset, action.source, action.manifest, action.maxPart);
  }

  lemma AttachStepFiles(w: World, d: Id)
    ensures Step(w, Action.AttachDuplicate(d)).t.files == w.t.files
    ensures Step(w, Action.AttachDuplicate(d)).t.blobs == w.t.blobs
  {
    hide AssetRow;
  }

  lemma GentleFilesKept(w: World, action: Action)
    requires IsGentle(action) && !action.LoseStage? && !action.CleanStages?
    ensures var t' := Step(w, action).t;
            && (forall k :: k in w.t.files ==> k in t'.files && t'.files[k] == w.t.files[k])
            && t'.blobs == w.t.blobs
  {
    if action.Open? {
      hide Step;
      OpenStepFiles(w, action);
    } else if action.AttachDuplicate? {
      hide Step;
      AttachStepFiles(w, action.request);
    } else {
      hide PathRefused, PathPinned, Holds, Fits;
    }
  }

  lemma GentleSlotsKept(w: World, action: Action)
    requires IsGentle(action) && (forall u :: u in w.t.uploads ==> u < w.t.next)
    ensures SlotsKept(w.t, Step(w, action).t)
  {
    hide Step, OpenUpload, Durable.AttachDuplicate, Durable.DeleteAsset, SlotsKept;
    match action
    case Open(account, asset, source, manifest, maxPart) =>
      OpenRows(w.t, account, asset, source, manifest, maxPart);
      StepIsOpen(w, action);
      AllSlots(w.t, Step(w, action).t);
    case AttachDuplicate(d) =>
      AttachUploads(w, d);
      AllSlots(w.t, Step(w, action).t);
    case DeleteAsset(asset) =>
      DeleteIsStep(w, asset);
      DeleteSlots(w.t, asset);
    case _ =>
      OtherRows(w, action);
      AllSlots(w.t, Step(w, action).t);
  }

  lemma AttachUploads(w: World, d: Id)
    ensures Step(w, Action.AttachDuplicate(d)).t.uploads == w.t.uploads
  {
    hide AssetRow;
  }

  lemma DeleteIsStep(w: World, asset: Id)
    ensures Step(w, Action.DeleteAsset(asset)).t == Durable.DeleteAsset(w.t, asset)
  {
    hide Durable.DeleteAsset;
  }

  lemma RemoveKept(t: Tables, account: Id)
    ensures CalmKept(t, Durable.RemoveAccount(t, account))
  {
    hide AccountInUse;
    var t' := Durable.RemoveAccount(t, account);
    SameRows(t, t');
    AllSlots(t, t');
    hide UploadsKept, NoNewStages, SlotsKept;
  }

  lemma NothingKept(t: Tables, t': Tables)
    requires t' == t
    ensures CalmKept(t, t')
  {
    SameRows(t, t);
    AllSlots(t, t);
    hide UploadsKept, NoNewStages, SlotsKept;
  }

  lemma CalmOthers(w: World, action: Action)
    requires TablesInv(w.t) && Calm(action) && !((action.Progress? || action.Abandon?) && action.upload in w.sessions)
    ensures CalmKept(w.t, Step(w, action).t)
  {
    hide TablesInv, UploadsKept, NoNewStages, SlotsKept, CalmKept, OpenUpload, Durable.AttachDuplicate,
         Durable.DeleteAsset, Durable.CleanStages, Durable.RemoveAccount;
    OthersKeepRows(w, action);
    if action.CleanStages? {
      CleanKept(w.t, action.path);
    } else if IsGentle(action) {
      Below(w.t);
      GentleFilesKept(w, action);
      GentleSlotsKept(w, action);
      FilesSame(w.t, Step(w, action).t);
    } else if action.RemoveAccount? {
      RemoveKept(w.t, action.account);
    } else {
      NothingKept(w.t, Step(w, action).t);
    }
  }

  lemma OthersCalm(w: World, action: Action)
    requires Inv(w) && CalmInv(w) && Calm(action)
    requires !((action.Progress? || action.Abandon?) && action.upload in w.sessions)
    ensures CalmInv(Step(w, action))
  {
    hide TablesInv, SessionInv, DuplicateInv, GoodRow, Good, AllHeld, OvertakenRows, CalmKept, Step, Calm;
    var w' := Step(w, action);
    CalmOthers(w, action);
    KeptHeld(w.t, w'.t);
    KeptSlots(w.t, w'.t);
    KeptOvertaken(w.t, w'.t);
    forall u | u in w'.t.uploads ensures GoodRow(w'.t.files, w'.t.uploads[u]) {
      KeptGood(w.t, w'.t, u);
    }
    OthersKeepSessions(w, action);
    forall u | u in w'.sessions ensures Good(w'.t, u, w'.sessions[u]) {
      if u in w.sessions {
        KeptGoodAt(w.t, w'.t, u, w.sessions[u]);
      } else {
        LoadingGood(w'.t, u);
      }
    }
  }

  lemma KeptSlots(t: Tables, t': Tables)
    requires CalmKept(t, t')
    ensures UploadsKept(t, t') && SlotsKept(t, t')
  {
  }

  lemma LoadingGood(t: Tables, u: Id)
    ensures Good(t, u, Loading)
  {
    hide Coherent;
  }

  lemma StepGood(w: World, action: Action)
    requires Inv(w) && StagingInv(w) && CalmInv(w) && Calm(action)
    ensures CalmInv(Step(w, action))
  {
    hide Inv, StagingInv, CalmInv, Step;
    if action.Progress? && action.upload in w.sessions {
      ProgressGood(w, action.upload);
    } else if action.Abandon? && action.upload in w.sessions {
      AbandonGood(w, action.upload, action.tear);
    } else {
      OthersCalm(w, action);
    }
  }

  lemma {:induction false} RunGood(actions: seq<Action>)
    requires CalmRun(actions)
    ensures CalmInv(Run(actions))
  {
    hide Inv, StagingInv, CalmInv, Step, Calm;
    if actions == [] {
      assert CalmInv(START) by { StartGood(); }
    } else {
      var earlier, last := actions[..|actions| - 1], actions[|actions| - 1];
      CalmIsAdmissible(earlier);
      RunKeeps(earlier);
      StagesArePrefixes(earlier);
      RunGood(earlier);
      StepGood(Run(earlier), last);
    }
  }

  lemma StartGood()
    ensures CalmInv(START)
  {
  }

  /* ---- Parts and quota ---- */

  /** All parts are in, and no request answered otherwise. */
  predicate PartsIn(w: World, u: Id) {
    && u in w.t.uploads && AllReceived(w.t.uploads[u])
    && (u in w.sessions ==> w.sessions[u] != Done(MissingParts))
  }

  lemma MissesOnlyWhenMissing(t: Tables, u: Id, pc: Pc, io: bool)
    requires Micro(t, u, pc, io).1 == Done(MissingParts) && pc != Done(MissingParts)
    requires SessionInv(t, u, pc) && u in t.uploads
    ensures !AllReceived(t.uploads[u])
  {
    hide AllReceived, Current, ReadyShape, RowIs, Holds, LoadCandidate, RecordMetadata, BeginCommit, ReadyCommit,
         Inspect;
  }

  lemma PartsStayIn(w: World, action: Action, u: Id)
    requires Inv(w) && PartsIn(w, u) && u in Step(w, action).t.uploads
    ensures PartsIn(Step(w, action), u)
  {
    hide TablesInv, SessionInv, DuplicateInv, Micro;
    StepEvolves(w, action, u);
    var w' := Step(w, action);
    assert AllReceived(w'.t.uploads[u]) by { MoreReceived(w.t.uploads[u], w'.t.uploads[u]); }
    hide AllReceived;
    if (action.Progress? || action.Abandon?) && action.upload in w.sessions {
      if action.Progress? && action.upload == u && Micro(w.t, u, w.sessions[u], action.io).1 == Done(MissingParts) {
        MissesOnlyWhenMissing(w.t, u, w.sessions[u], action.io);
      }
    } else {
      hide Step;
      OthersKeepSessions(w, action);
    }
  }

  lemma MoreReceived(before: Upload, after: Upload)
    requires Evolves(before, after) && AllReceived(before)
    ensures AllReceived(after)
  {
  }

  lemma {:induction false} PartsStayInOver(actions: seq<Action>, n: nat, u: Id)
    requires AdmissibleRun(actions) && n <= |actions| && PartsIn(Run(actions[..n]), u) && u in Run(actions).t.uploads
    ensures PartsIn(Run(actions), u)
    decreases |actions|
  {
    hide Inv, Step, PartsIn;
    if n == |actions| {
      assert actions[..n] == actions;
    } else {
      var earlier, last := actions[..|actions| - 1], actions[|actions| - 1];
      assert earlier[..n] == actions[..n];
      RunKeeps(earlier);
      assert u in Run(earlier).t.uploads by {
        assert u in Run(earlier[..n]).t.uploads by { PartsOfUpload(Run(earlier[..n]), u); }
        RunNext(earlier, n, u);
        StepIds(Run(earlier), last, u);
      }
      PartsStayInOver(earlier, n, u);
      PartsStayIn(Run(earlier), last, u);
    }
  }

  lemma PartsOfUpload(w: World, u: Id)
    requires PartsIn(w, u)
    ensures u in w.t.uploads
  {
  }

  lemma RefusedOnlyOverQuota(t: Tables, u: Id, pc: Pc, io: bool)
    requires Micro(t, u, pc, io).1 == Done(QuotaExceeded) && pc != Done(QuotaExceeded)
    requires SessionInv(t, u, pc) && u in t.uploads
    ensures BeginCommit(t, u).1 == BeginNoSpace
  {
    hide AllReceived, Current, ReadyShape, RowIs, Holds, LoadCandidate, RecordMetadata, BeginCommit, ReadyCommit,
         Inspect;
  }

  /** Under a fixed quota no request for a created upload is refused for space. */
  lemma {:induction false} NeverRefused(actions: seq<Action>, u: Id, quota: nat)
    requires AdmissibleRun(actions) && u in Run(actions).t.uploads
    requires QuotaFixed(actions, Run(actions).t.uploads[u].account, quota) && quota <= MAX_JSON_INTEGER
    ensures u in Run(actions).sessions ==> Run(actions).sessions[u] != Done(QuotaExceeded)
    decreases |actions|
  {
    hide Inv, Step;
    if actions != [] {
      var earlier, last := actions[..|actions| - 1], actions[|actions| - 1];
      RunKeeps(earlier);
      if u in Run(earlier).t.uploads {
        StepEvolves(Run(earlier), last, u);
        SameManifest(Run(earlier).t.uploads[u], Run(actions).t.uploads[u]);
        NeverRefused(earlier, u, quota);
        CommitIsWithinQuota(earlier, u, quota);
        StepRefuses(Run(earlier), last, u);
      } else {
        StepIds(Run(earlier), last, u);
        NotYetRequested(Run(earlier), last, u);
      }
    }
  }

  lemma StepRefuses(w: World, action: Action, u: Id)
    requires Inv(w) && u in w.t.uploads && BeginCommit(w.t, u).1 != BeginNoSpace
    requires u in w.sessions ==> w.sessions[u] != Done(QuotaExceeded)
    ensures u in Step(w, action).sessions ==> Step(w, action).sessions[u] != Done(QuotaExceeded)
  {
    hide TablesInv, SessionInv, DuplicateInv, Micro, BeginCommit;
    if (action.Progress? || action.Abandon?) && action.upload in w.sessions {
      if action.Progress? && action.upload == u && Micro(w.t, u, w.sessions[u], action.io).1 == Done(QuotaExceeded) {
        RefusedOnlyOverQuota(w.t, u, w.sessions[u], action.io);
      }
    } else {
      hide Step;
      OthersKeepSessions(w, action);
    }
  }

  /** A request is for an upload that exists when it starts. */
  lemma NotYetRequested(w: World, action: Action, u: Id)
    requires Inv(w) && u >= w.t.next && u !in w.t.uploads
    ensures u !in Step(w, action).sessions
  {
    hide TablesInv, DuplicateInv, PcShape, PcSound, OpenUpload, Micro;
    assert u !in w.sessions;
    hide SessionInv;
  }

  /* ---- The result ---- */

  /** In a calm run, under a fixed quota, once all parts of a good upload are in, every request that ends
      has committed the upload, unless a newer upload of its source committed. */
  lemma {:induction false} CompletionsCommit(actions: seq<Action>, n: nat, u: Id, reply: Reply, quota: nat)
    requires CalmRun(actions) && n <= |actions| && PartsIn(Run(actions[..n]), u)
    requires u in Run(actions).t.uploads && Coherent(Run(actions).t.uploads[u].manifest)
    requires QuotaFixed(actions, Run(actions).t.uploads[u].account, quota) && quota <= MAX_JSON_INTEGER
    requires u in Run(actions).sessions && Run(actions).sessions[u] == Done(reply)
    ensures var t := Run(actions).t;
            || (reply == Overtaken && NewerCommitted(t, u))
            || (&& t.uploads[u].phase == Committed && t.uploads[u].resource.Some?
                && reply == Ok(t.uploads[u].resource.value, t.uploads[u].asset, t.uploads[u].deduplicated))
  {
    hide Run, CalmRun, AdmissibleRun, Coherent, NewerCommitted, QuotaFixed;
    CalmIsAdmissible(actions);
    RunGood(actions);
    PartsStayInOver(actions, n, u);
    NeverRefused(actions, u, quota);
    RepliesAreHonest(actions, u, reply);
    assert Good(Run(actions).t, u, Run(actions).sessions[u]);
  }

  /* ---- Equal content ---- */

  /** The upload has this content and is the newest committed of its source, which nothing else touched. */
  ghost predicate Foremost(actions: seq<Action>, u: Id, account: Id, hash: Blake3) {
    var t := Run(actions).t;
    && u in t.uploads && t.uploads[u].account == account && t.uploads[u].manifest.hash == hash
    && !NewerCommitted(t, u) && UntouchedRun(actions, Slot(t.uploads[u]))
  }

  /** The blob is the only row with the content. */
  ghost predicate OnlyRow(t: Tables, b: Id, account: Id, hash: Blake3) {
    forall c :: c in t.blobs && t.blobs[c].account == account && t.blobs[c].hash == hash <==> c == b
  }

  /** One blob row has the content, and each upload has a resource of its own that points at it. */
  ghost predicate ShareOneRow(t: Tables, us: set<Id>, account: Id, hash: Blake3) {
    && (forall u :: u in us ==> u in t.uploads)
    && (exists b :: OnlyRow(t, b, account, hash) && forall u :: u in us ==> PointsAt(t, Slot(t.uploads[u]), b))
    && (forall u, v :: u in us && v in us && u != v ==> Slot(t.uploads[u]) != Slot(t.uploads[v]))
  }

  predicate PointsAt(t: Tables, slot: ResourceKey, blob: Id) {
    slot in t.resources && t.resources[slot].blob == blob
  }

  lemma NewestIsAlone(t: Tables, u: Id, v: Id)
    requires TablesInv(t) && u in t.uploads && v in t.uploads && u != v && t.uploads[u].account == t.uploads[v].account
    requires t.uploads[u].phase == Committed && t.uploads[v].phase == Committed
    requires !NewerCommitted(t, u) && !NewerCommitted(t, v)
    ensures Slot(t.uploads[u]) != Slot(t.uploads[v])
  {
    hide TablesInv;
    if Slot(t.uploads[u]) == Slot(t.uploads[v]) {
      ApartOf(t, u, v);
      NotNewer(t, u, v);
      NotNewer(t, v, u);
    }
  }

  predicate Delivers(t: Tables, u: Id, account: Id, hash: Blake3) {
    && u in t.uploads && t.uploads[u].account == account && t.uploads[u].manifest.hash == hash
    && t.uploads[u].phase == Committed && !NewerCommitted(t, u)
  }

  lemma DeliveredRow(t: Tables, u: Id, account: Id, hash: Blake3)
    requires TablesInv(t) && Delivers(t, u, account, hash)
    ensures t.uploads[u].blob.Some? && OnlyRow(t, t.uploads[u].blob.value, account, hash)
  {
    hide TablesInv, NewerCommitted;
    RowOf(t, u);
    IndexOf(t);
  }

  lemma DeliveredPoints(t: Tables, u: Id, account: Id, hash: Blake3, b: Id)
    requires TablesInv(t) && Delivers(t, u, account, hash) && PointsAtNewest(t, Slot(t.uploads[u]))
    requires OnlyRow(t, b, account, hash)
    ensures PointsAt(t, Slot(t.uploads[u]), b)
  {
    hide TablesInv, NewerCommitted;
    RowOf(t, u);
  }

  lemma DeliveredShare(t: Tables, us: set<Id>, account: Id, hash: Blake3)
    requires TablesInv(t) && us != {}
    requires forall u :: u in us ==> Delivers(t, u, account, hash) && PointsAtNewest(t, Slot(t.uploads[u]))
    ensures ShareOneRow(t, us, account, hash)
  {
    hide TablesInv, NewerCommitted, PointsAtNewest, OnlyRow, PointsAt;
    var one :| one in us;
    DeliveredRow(t, one, account, hash);
    var b := t.uploads[one].blob.value;
    forall u | u in us ensures PointsAt(t, Slot(t.uploads[u]), b) {
      DeliveredPoints(t, u, account, hash, b);
    }
    forall u, v | u in us && v in us && u != v ensures Slot(t.uploads[u]) != Slot(t.uploads[v]) {
      assert Delivers(t, u, account, hash) && Delivers(t, v, account, hash);
      NewestIsAlone(t, u, v);
    }
  }

  /** Committed uploads of equal content, each the newest of its source, have one blob row between them;
      each has its own resource, and every one of these points at that row. */
  lemma {:induction false} EqualContentIsOneRow(actions: seq<Action>, us: set<Id>, account: Id, hash: Blake3)
    requires AdmissibleRun(actions) && us != {}
    requires forall u :: u in us ==> Foremost(actions, u, account, hash) && Run(actions).t.uploads[u].phase == Committed
    ensures ShareOneRow(Run(actions).t, us, account, hash)
  {
    hide Run, AdmissibleRun, UntouchedRun, TablesInv, SessionInv, DuplicateInv, PointsAtNewest, CreationOrder,
         ShareOneRow, NewerCommitted;
    var t := Run(actions).t;
    RunKeeps(actions);
    forall u | u in us ensures Delivers(t, u, account, hash) && PointsAtNewest(t, Slot(t.uploads[u])) {
      assert Foremost(actions, u, account, hash);
      ResourceIsNewest(actions, Slot(t.uploads[u]));
    }
    DeliveredShare(t, us, account, hash);
  }

  /** Deduplication under concurrency. In a calm run let any number of requests complete uploads of equal
      content in one account, in any interleaving with each other and with everything else. When they
      have ended, with all parts in, under a fixed quota, and with no newer upload of a source committed,
      every one of them succeeded, one blob row has the content, and each upload's own resource points
      at it. `starts` says since when an upload's parts were in. */
  lemma {:induction false} EqualContentCommits(
    actions: seq<Action>, starts: map<Id, nat>, account: Id, hash: Blake3, quota: nat)
    requires CalmRun(actions) && starts != map[] && QuotaFixed(actions, account, quota) && quota <= MAX_JSON_INTEGER
    requires forall u :: u in starts ==>
               && starts[u] <= |actions| && PartsIn(Run(actions[..starts[u]]), u)
               && Foremost(actions, u, account, hash) && Coherent(Run(actions).t.uploads[u].manifest)
               && u in Run(actions).sessions && Run(actions).sessions[u].Done?
    ensures forall u :: u in starts ==> Run(actions).sessions[u].reply.Ok?
    ensures ShareOneRow(Run(actions).t, starts.Keys, account, hash)
  {
    hide Run, CalmRun, Coherent, QuotaFixed, PartsIn, ShareOneRow, UntouchedRun, NewerCommitted;
    CalmIsAdmissible(actions);
    forall u | u in starts
      ensures Run(actions).sessions[u].reply.Ok? && Run(actions).t.uploads[u].phase == Committed
    {
      assert Foremost(actions, u, account, hash);
      CompletionsCommit(actions, starts[u], u, Run(actions).sessions[u].reply, quota);
    }
    EqualContentIsOneRow(actions, starts.Keys, account, hash);
  }
}

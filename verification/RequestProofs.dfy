/** Each step of a completing request keeps the tables' invariant and its own assertion, and has
    only the effect that leaves every other request's assertion standing. */
module RequestProofs {
  import opened Prelude
  import opened Content
  import opened Durable
  import opened Session
  import opened World
  import opened TableInvariant
  import opened TableProofs
  import opened RequestInvariant

  lemma OtherSessionKept(t: Tables, t': Tables, u: Id, v: Id, pc: Pc)
    requires Effect(t, t', u) && v != u && SessionInv(t, v, pc)
    ensures SessionInv(t', v, pc)
  {
  }

  lemma DuplicateKept(t: Tables, t': Tables, u: Id, d: Duplicated)
    requires TablesInv(t) && Effect(t, t', u) && DuplicateInv(t, d)
    ensures DuplicateInv(t', d)
  {
    hide UploadsSound, Safe, AllApart, IndexSound, BlobsPlaced, ResourcesOwned, PathsApart, ObjectsIntact;
  }

  /* ---- Tables and effect ---- */

  lemma WritingTables(t: Tables, u: Id, r: Ready, k: nat, read: Bytes, io: bool)
    requires TablesInv(t) && ReadyShape(u, r) && r.staged.Some?
    ensures TablesInv(Micro(t, u, Writing(r, k, read), io).0)
    ensures Effect(t, Micro(t, u, Writing(r, k, read), io).0, u)
  {
    hide TablesInv, Effect;
    FilesKeep(t, t.files - {StageOf(r)});
    FilesEffect(t, t.files - {StageOf(r)}, u);
    var files := if StageOf(r) in t.files && PartKey(u, k) in t.files
                 then t.files[StageOf(r) := t.files[StageOf(r)] + t.files[PartKey(u, k)]] else t.files;
    FilesKeep(t, files);
    FilesEffect(t, files, u);
    FilesEffect(t, t.files, u);
    assert t.(files := t.files) == t;
  }

  lemma LinkingTables(t: Tables, u: Id, r: Ready, io: bool)
    requires TablesInv(t) && PcShape(t, u, Linking(r))
    ensures TablesInv(Micro(t, u, Linking(r), io).0) && Effect(t, Micro(t, u, Linking(r), io).0, u)
  {
    hide TablesInv, Effect, MarkUnknown;
    MarkUnknownKeeps(t, u);
    var files := if StageOf(r) in t.files && r.final !in t.files
                 then t.files[r.final := t.files[StageOf(r)]] else t.files;
    FilesKeep(t, files);
    FilesEffect(t, files, u);
    assert t.(files := t.files) == t;
  }

  /** Steps that read, and at most give the upload up. */
  predicate Quiet(t: Tables, t': Tables, u: Id) {
    t' == t || t' == MarkUnknown(t, u)
  }

  lemma CountingTables(t: Tables, u: Id, io: bool)
    requires TablesInv(t)
    ensures TablesInv(Micro(t, u, Counting, io).0) && Effect(t, Micro(t, u, Counting, io).0, u)
  {
    hide TablesInv, Effect;
    MarkFailedKeeps(t, u);
    FilesEffect(t, t.files, u);
    assert t.(files := t.files) == t;
  }

  lemma FailingTables(t: Tables, u: Id, io: bool)
    requires TablesInv(t)
    ensures TablesInv(Micro(t, u, Failing, io).0) && Effect(t, Micro(t, u, Failing, io).0, u)
  {
    hide TablesInv, Effect, MarkFailed;
    MarkFailedKeeps(t, u);
  }

  lemma BeginningTables(t: Tables, u: Id, io: bool)
    requires TablesInv(t)
    ensures TablesInv(Micro(t, u, Beginning, io).0) && Effect(t, Micro(t, u, Beginning, io).0, u)
  {
    hide TablesInv, Effect, BeginCommit;
    BeginCommitKeeps(t, u);
  }

  lemma OpeningTables(t: Tables, u: Id, r: Ready, io: bool)
    requires TablesInv(t) && ReadyShape(u, r) && r.staged.Some?
    ensures TablesInv(Micro(t, u, OpeningStage(r), io).0) && Effect(t, Micro(t, u, OpeningStage(r), io).0, u)
  {
    hide TablesInv, Effect;
    FilesKeep(t, t.files[StageOf(r) := []]);
    FilesEffect(t, t.files[StageOf(r) := []], u);
    FilesEffect(t, t.files, u);
    assert t.(files := t.files) == t;
  }

  lemma AdvancingTables(t: Tables, u: Id, r: Ready, io: bool)
    requires TablesInv(t)
    ensures TablesInv(Micro(t, u, Advancing(r), io).0) && Effect(t, Micro(t, u, Advancing(r), io).0, u)
  {
    hide TablesInv, Effect, ToFinalizing;
    ToFinalizingKeeps(t, u);
  }

  lemma RecordingTables(t: Tables, u: Id, r: Ready, round: nat, approved: Option<Candidate>, io: bool)
    requires TablesInv(t) && (u in t.uploads ==> Proven(t, u, r))
    ensures TablesInv(Micro(t, u, Recording(r, round, approved), io).0)
    ensures Effect(t, Micro(t, u, Recording(r, round, approved), io).0, u)
  {
    hide TablesInv, Effect, RecordMetadata, MarkUnknown, Insertable, Proven;
    ProvenInsertable(t, u, r);
    RecordMetadataKeeps(t, u, r, approved);
    RecordMetadataEffect(t, u, r, approved);
    MarkUnknownKeeps(t, u);
  }

  lemma TidyingTables(t: Tables, u: Id, r: Ready, outcome: Reply, strict: bool, io: bool)
    requires TablesInv(t) && ReadyShape(u, r) && r.staged.Some?
    ensures TablesInv(Micro(t, u, Tidying(r, outcome, strict), io).0)
    ensures Effect(t, Micro(t, u, Tidying(r, outcome, strict), io).0, u)
  {
    hide TablesInv, Effect, TidyStage;
    TidyStageKeeps(t, u, StageOf(r));
    TidyStageEffect(t, u, StageOf(r));
    FilesEffect(t, t.files, u);
    assert t.(files := t.files) == t;
  }

  lemma DiscardingTables(t: Tables, u: Id, r: Ready, io: bool)
    requires TablesInv(t) && ReadyShape(u, r)
    ensures TablesInv(Micro(t, u, Discarding(r), io).0) && Effect(t, Micro(t, u, Discarding(r), io).0, u)
  {
    hide TablesInv, Effect;
    var files := if io && r.staged.Some? then t.files - {r.staged.value} else t.files;
    FilesKeep(t, files);
    FilesEffect(t, files, u);
    assert t.(files := t.files) == t;
  }

  lemma QuietTables(t: Tables, t': Tables, u: Id)
    requires TablesInv(t) && Quiet(t, t', u)
    ensures TablesInv(t') && Effect(t, t', u)
  {
    hide TablesInv, Effect;
    MarkUnknownKeeps(t, u);
    FilesEffect(t, t.files, u);
    assert t.(files := t.files) == t;
  }

  predicate Reads(pc: Pc) {
    || pc.Loading? || pc.Reloading? || pc.CheckingFinal? || pc.Rechecking? || pc.CheckingStage?
    || pc.Verifying? || pc.Looking? || pc.Vetting? || pc.Confirming? || pc.Done?
  }

  lemma QuietSteps(t: Tables, u: Id, pc: Pc, io: bool)
    requires Reads(pc)
    ensures Quiet(t, Micro(t, u, pc, io).0, u)
  {
  }

  /** A step of the request for `u` keeps the tables' invariant, and what it may change is bounded. */
  lemma MicroTables(t: Tables, u: Id, pc: Pc, io: bool)
    requires TablesInv(t) && SessionInv(t, u, pc)
    ensures TablesInv(Micro(t, u, pc, io).0) && Effect(t, Micro(t, u, pc, io).0, u)
  {
    hide TablesInv, Effect, Micro, Proven, Quiet, ReadyShape, InPhase, Current;
    match pc
    case Counting => CountingTables(t, u, io);
    case Beginning => BeginningTables(t, u, io);
    case OpeningStage(r) => OpeningTables(t, u, r, io);
    case Writing(r, k, read) => WritingTables(t, u, r, k, read, io);
    case Failing => FailingTables(t, u, io);
    case Advancing(r) => AdvancingTables(t, u, r, io);
    case Linking(r) => LinkingTables(t, u, r, io);
    case Recording(r, round, approved) => RecordingTables(t, u, r, round, approved, io);
    case Tidying(r, outcome, strict) => TidyingTables(t, u, r, outcome, strict, io);
    case Discarding(r) => DiscardingTables(t, u, r, io);
    case _ => QuietSteps(t, u, pc, io); QuietTables(t, Micro(t, u, pc, io).0, u);
  }
}

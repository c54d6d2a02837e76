/** Completing an upload after any number of crashes gives the result of completing it without one. */
module Recovery {
  import opened Prelude
  import opened Content
  import opened Durable
  import opened Session
  import opened World
  import opened TableInvariant
  import opened TableProofs
  import opened RequestInvariant
  import opened RequestProofs
  import opened SessionProofs
  import opened WorldProofs
  import opened Protocol
  import opened LoneRun

  /* ---- Starting again ---- */

  lemma CurrentIsOne(upload: Upload, r: Ready, s: Ready)
    requires Current(upload, r) && Current(upload, s)
    ensures r == s
  {
  }

  lemma AgainStarted(t: Tables, u: Id, r: Ready)
    requires TablesInv(t) && u in t.uploads && InPhase(t, u, r, CommitStarted)
    ensures Drive(t, u, Loading) == Drive(t, u, CheckingFinal(r)) && r.staged.Some?
    ensures r.size == r.manifest.size && SoundManifest(r.manifest) && StagedBy(u, r.staged)
  {
    hide Drive, TablesInv;
    RowOf(t, u);
    ReadyFits(t, u);
    CurrentIsOne(t.uploads[u], r, ReadyCommit(t, u).value);
    Unfold(t, u, Loading);
  }

  lemma AgainFinalizing(t: Tables, u: Id, r: Ready)
    requires TablesInv(t) && u in t.uploads && InPhase(t, u, r, Finalizing)
    ensures Drive(t, u, Loading) == Drive(t, u, Rechecking(r))
  {
    hide Drive, TablesInv;
    RowOf(t, u);
    ReadyFits(t, u);
    CurrentIsOne(t.uploads[u], r, ReadyCommit(t, u).value);
    Unfold(t, u, Loading);
  }

  lemma AgainReceiving(t: Tables, u: Id)
    requires u in t.uploads && t.uploads[u].phase == Receiving && SoundManifest(t.uploads[u].manifest)
    ensures Drive(t, u, Loading) == Drive(t, u, Counting)
    ensures AllReceived(t.uploads[u]) ==> Drive(t, u, Loading) == Drive(t, u, Beginning)
  {
    hide Drive, AllReceived, SoundManifest;
    Unfold(t, u, Loading);
    Unfold(t, u, Counting);
  }

  lemma ManifestOf(t: Tables, u: Id)
    requires TablesInv(t) && u in t.uploads
    ensures SoundManifest(t.uploads[u].manifest) && PartsHeld(t.files, u, t.uploads[u])
    ensures PreCommit(t.uploads[u]) ==> ReadyCommit(t, u).Some? && Current(t.uploads[u], ReadyCommit(t, u).value)
  {
    hide TablesInv;
    RowOf(t, u);
  }

  /** What assembly needs is there. */
  lemma AssemblingHere(t: Tables, u: Id, r: Ready, pc: Pc)
    requires TablesInv(t) && Alone(t, u, pc) && InPhase(t, u, r, CommitStarted)
    ensures Assembling(t, u, r) && SoundManifest(r.manifest) && r.size == r.manifest.size
    ensures StageOf(r) in t.files ==> t.files[StageOf(r)] <= Whole(t, u)
  {
    hide TablesInv, AloneAt, Whole;
    RowOf(t, u);
  }

  /** Without the object, the request goes on to assembly. */
  lemma AgainAssembling(t: Tables, u: Id, r: Ready, pc: Pc)
    requires TablesInv(t) && Alone(t, u, pc) && InPhase(t, u, r, CommitStarted) && r.final !in t.files
    ensures Drive(t, u, Loading) == Drive(t, u, OpeningStage(r)) == AssembledEnd(t, u, r)
  {
    hide Drive, TablesInv, AloneAt, Whole, AllReceived;
    AgainStarted(t, u, r);
    Unfold(t, u, CheckingFinal(r));
    AssemblingHere(t, u, r, pc);
    OpeningEnds(t, u, r);
  }

  lemma AgainAdvancing(t: Tables, u: Id, r: Ready)
    requires TablesInv(t) && Alone(t, u, Advancing(r)) && InPhase(t, u, r, CommitStarted)
    ensures Drive(t, u, Loading) == Drive(t, u, Advancing(r))
  {
    hide Drive, TablesInv, AllReceived, Whole;
    AgainStarted(t, u, r);
    Unfold(t, u, CheckingFinal(r));
    if r.final !in t.files {
      Unfold(t, u, OpeningStage(r));
    }
  }

  lemma AgainWriting(t: Tables, u: Id, r: Ready, k: nat, read: Bytes, tear: nat)
    requires TablesInv(t) && Alone(t, u, Writing(r, k, read)) && InPhase(t, u, r, CommitStarted)
    requires k <= |r.manifest.parts| && ReadyShape(u, r) && r.staged.Some?
    requires TablesInv(Cut(t, Writing(r, k, read), tear))
    ensures Drive(Cut(t, Writing(r, k, read), tear), u, Loading) == Drive(t, u, Writing(r, k, read))
  {
    hide Drive, TablesInv, Whole, AllReceived, PartsHeld, Current;
    var cut := Cut(t, Writing(r, k, read), tear);
    AssemblingHere(t, u, r, Writing(r, k, read));
    WritingEnds(t, u, r, k, read);
    assert cut.files - {StageOf(r)} == t.files - {StageOf(r)};
    StageIsOverwritten(t, u, r, cut.files);
    CutIsAlone(t, u, r, k, read, tear);
    AgainAssembling(cut, u, r, Loading);
  }

  /** Whatever beginning of what was read is left in the stage. */
  lemma CutFilesAlone(t: Tables, u: Id, r: Ready, k: nat, read: Bytes, files: Files)
    requires Alone(t, u, Writing(r, k, read)) && Assembling(t, u, r)
    requires files - {StageOf(r)} == t.files - {StageOf(r)}
    requires StageOf(r) in files && files[StageOf(r)] <= read
    requires Assembling(t.(files := files), u, r) && Whole(t.(files := files), u) == Whole(t, u)
    ensures Alone(t.(files := files), u, Loading)
  {
    hide AllReceived, PartsHeld, Whole, Joined;
  }

  lemma CutIsAlone(t: Tables, u: Id, r: Ready, k: nat, read: Bytes, tear: nat)
    requires Alone(t, u, Writing(r, k, read)) && Assembling(t, u, r)
    ensures Alone(Cut(t, Writing(r, k, read), tear), u, Loading)
    ensures InPhase(Cut(t, Writing(r, k, read), tear), u, r, CommitStarted)
  {
    var cut := Cut(t, Writing(r, k, read), tear);
    assert cut == t.(files := cut.files);
    CutFiles(t, u, r, k, read, tear);
    hide Alone, Assembling, Cut;
    StageIsOverwritten(t, u, r, cut.files);
    CutFilesAlone(t, u, r, k, read, cut.files);
    AssemblingPhase(cut, u, r);
  }

  lemma AssemblingPhase(t: Tables, u: Id, r: Ready)
    requires Assembling(t, u, r)
    ensures u in t.uploads && InPhase(t, u, r, CommitStarted)
  {
  }

  lemma CutFiles(t: Tables, u: Id, r: Ready, k: nat, read: Bytes, tear: nat)
    requires Alone(t, u, Writing(r, k, read))
    ensures var files := Cut(t, Writing(r, k, read), tear).files;
            && files - {StageOf(r)} == t.files - {StageOf(r)}
            && StageOf(r) in files && files[StageOf(r)] <= read
  {
    hide Whole, AllReceived;
  }

  lemma AgainFailing(t: Tables, u: Id)
    requires TablesInv(t) && SessionInv(t, u, Failing) && Alone(t, u, Failing)
    ensures Drive(t, u, Loading) == Drive(t, u, Failing)
  {
    hide Drive, TablesInv, Whole, AllReceived;
    RowOf(t, u);
    ReadyFits(t, u);
    var r := ReadyCommit(t, u).value;
    AgainAssembling(t, u, r, Failing);
    AssemblingHere(t, u, r, Failing);
    assert t.files - {StageOf(r)} == t.files;
    Unfold(t, u, Failing);
    Finished(MarkFailed(t, u), u, FailedCommit);
  }

  /** In the window and just before it every request ends in the same metadata transaction. */
  lemma AgainInWindow(t: Tables, u: Id, pc: Pc)
    requires TablesInv(t) && SessionInv(t, u, pc) && u in t.uploads && InWindow(pc)
    ensures Drive(t, u, Loading) == Drive(t, u, pc)
  {
    hide Drive, TablesInv, CommitEnd, RowIs, ReadyShape, Proven;
    var r := pc.r;
    assert InPhase(t, u, r, Finalizing) && Holds(t.files, r.final, r.size, r.hash) by { ProvenPhase(t, u, pc); }
    AgainFinalizing(t, u, r);
    Unfold(t, u, Rechecking(r));
    LookingFirst(t, u, pc);
    WindowEnds(t, u, Looking(r, 0, None));
    WindowEnds(t, u, pc);
  }

  lemma ProvenPhase(t: Tables, u: Id, pc: Pc)
    requires SessionInv(t, u, pc) && u in t.uploads && InWindow(pc)
    ensures InPhase(t, u, pc.r, Finalizing) && Holds(t.files, pc.r.final, pc.r.size, pc.r.hash)
  {
  }

  lemma LookingFirst(t: Tables, u: Id, pc: Pc)
    requires SessionInv(t, u, pc) && InWindow(pc)
    ensures SessionInv(t, u, Looking(pc.r, 0, None))
  {
    hide Proven, RowIs;
  }

  lemma AgainPublishing(t: Tables, u: Id, pc: Pc)
    requires TablesInv(t) && SessionInv(t, u, pc) && Alone(t, u, pc)
    requires pc.Rechecking? || pc.CheckingStage? || pc.Linking? || pc.Verifying?
    ensures Drive(t, u, Loading) == Drive(t, u, pc)
  {
    hide Drive, TablesInv, AllReceived, Whole;
    var r := pc.r;
    AgainFinalizing(t, u, r);
    Unfold(t, u, Rechecking(r));
    match pc
    case Rechecking(_) =>
    case CheckingStage(_) =>
    case Linking(_) => Unfold(t, u, CheckingStage(r));
    case Verifying(_) => Unfold(t, u, pc);
  }

  lemma AgainTidying(t: Tables, u: Id, r: Ready, outcome: Reply, strict: bool)
    requires TablesInv(t) && SessionInv(t, u, Tidying(r, outcome, strict)) && u in t.uploads
    ensures Drive(t, u, Loading) == Drive(t, u, Tidying(r, outcome, strict))
  {
    hide Drive, TablesInv;
    CompletingAgain(t, u);
    Unfold(t, u, Tidying(r, outcome, strict));
    Finished(TidyStage(t, u, StageOf(r)), u, outcome);
  }

  lemma AgainConfirming(t: Tables, u: Id, r: Ready, resource: Id, deduplicated: bool)
    requires TablesInv(t) && SessionInv(t, u, Confirming(r, resource, deduplicated)) && u in t.uploads
    ensures Drive(t, u, Loading) == Drive(t, u, Confirming(r, resource, deduplicated))
  {
    hide Drive, TablesInv;
    RowOf(t, u);
    ReadyFits(t, u);
    CurrentIsOne(t.uploads[u], r, ReadyCommit(t, u).value);
    Unfold(t, u, Loading);
  }

  /** Same reply, same rows, same parts and objects; stages of the upload may differ. */
  ghost predicate Alike(one: (Tables, Reply), two: (Tables, Reply), u: Id) {
    && one.1 == two.1 && one.0.(files := map[]) == two.0.(files := map[])
    && forall k: Key :: !(k.StageKey? && k.upload == u) ==>
         (k in one.0.files <==> k in two.0.files) && (k in one.0.files ==> one.0.files[k] == two.0.files[k])
  }

  lemma AgainDiscarding(t: Tables, u: Id, r: Ready)
    requires SessionInv(t, u, Discarding(r)) && u in t.uploads
    ensures Alike(Drive(t, u, Loading), Drive(t, u, Discarding(r)), u)
  {
    hide Drive;
    Unfold(t, u, Loading);
    Finished(t, u, Overtaken);
    Unfold(t, u, Discarding(r));
    Finished(Micro(t, u, Discarding(r), true).0, u, Overtaken);
  }

  /** A request whose reply was given gives it again. */
  ghost predicate Answers(t: Tables, u: Id, pc: Pc) {
    match pc
    case Done(reply) =>
      u in t.uploads &&
      (match reply
       case Ok(_, _, _) => t.uploads[u].phase == Committed && t.uploads[u].staged.None?
       case MissingParts => t.uploads[u].phase == Receiving && !AllReceived(t.uploads[u])
       case QuotaExceeded => t.uploads[u].phase == Receiving && AllReceived(t.uploads[u])
                               && BeginCommit(t, u).1 == BeginNoSpace
       case Overtaken => t.uploads[u].phase == Failed(true)
       case FailedCommit => t.uploads[u].phase == Failed(false)
       case NeedsReview => t.uploads[u].phase == Unknown
       case _ => false)
    case _ => true
  }

  lemma AgainAnswering(t: Tables, u: Id, reply: Reply)
    requires TablesInv(t) && SessionInv(t, u, Done(reply)) && Answers(t, u, Done(reply))
    ensures Drive(t, u, Loading) == (t, reply) == Drive(t, u, Done(reply))
  {
    hide Drive, TablesInv, AllReceived, BeginCommit;
    Finished(t, u, reply);
    if reply.Ok? {
      CompletingAgain(t, u);
    } else if reply.MissingParts? || reply.QuotaExceeded? {
      ManifestOf(t, u);
      AgainReceiving(t, u);
      Unfold(t, u, Counting);
      if reply.QuotaExceeded? {
        BeginRefused(t, u);
        Unfold(t, u, Beginning);
      }
    } else {
      Unfold(t, u, Loading);
    }
  }

  lemma BeginRefused(t: Tables, u: Id)
    requires BeginCommit(t, u).1 == BeginNoSpace
    ensures BeginCommit(t, u).0 == t
  {
  }

  /** Wherever a request is interrupted, and whatever is left of the stage it was writing, starting
      again gives what it would have given. */
  lemma Again(t: Tables, u: Id, pc: Pc, tear: nat)
    requires TablesInv(t) && SessionInv(t, u, pc) && Alone(t, u, pc) && Answers(t, u, pc)
    ensures Alike(Drive(Cut(t, pc, tear), u, Loading), Drive(t, u, pc), u)
  {
    hide Drive, TablesInv, Alike, Answers, Proven, AllReceived, Whole, Cut, RowIs, AloneAt;
    AlikeSelf(Drive(t, u, pc), u);
    if !pc.Writing? {
      CutNothing(t, pc, tear);
    }
    match pc
    case Loading =>
    case Counting => ManifestOf(t, u); AgainReceiving(t, u);
    case Beginning => ManifestOf(t, u); AgainReceiving(t, u);
    case Reloading => AgainReloading(t, u);
    case CheckingFinal(r) => AgainStarted(t, u, r);
    case OpeningStage(r) => assert r.final !in t.files by { NoFinal(t, u, r); } AgainAssembling(t, u, r, pc);
    case Writing(r, k, read) => CutStage(t, u, pc, tear); AgainWriting(t, u, r, k, read, tear);
    case Failing => AgainFailing(t, u);
    case Advancing(r) => AgainAdvancing(t, u, r);
    case Rechecking(_) => AgainPublishing(t, u, pc);
    case CheckingStage(_) => AgainPublishing(t, u, pc);
    case Linking(_) => AgainPublishing(t, u, pc);
    case Verifying(_) => AgainPublishing(t, u, pc);
    case Looking(_, _, _) => AgainInWindow(t, u, pc);
    case Vetting(_, _, _, _) => AgainInWindow(t, u, pc);
    case Recording(_, _, _) => AgainInWindow(t, u, pc);
    case Tidying(r, outcome, strict) => AgainTidying(t, u, r, outcome, strict);
    case Discarding(r) => AgainDiscarding(t, u, r);
    case Confirming(r, resource, deduplicated) => AgainConfirming(t, u, r, resource, deduplicated);
    case Done(reply) => AgainAnswering(t, u, reply);
  }

  lemma NoFinal(t: Tables, u: Id, r: Ready)
    requires Alone(t, u, OpeningStage(r))
    ensures r.final !in t.files
  {
  }

  lemma AgainReloading(t: Tables, u: Id)
    requires TablesInv(t) && SessionInv(t, u, Reloading) && u in t.uploads
    ensures Drive(t, u, Loading) == Drive(t, u, Reloading)
  {
    hide Drive, TablesInv;
    ManifestOf(t, u);
    Unfold(t, u, Loading);
    Unfold(t, u, Reloading);
  }

  lemma CutNothing(t: Tables, pc: Pc, tear: nat)
    requires !pc.Writing?
    ensures Cut(t, pc, tear) == t
  {
  }

  lemma AlikeSelf(one: (Tables, Reply), u: Id)
    ensures Alike(one, one, u)
  {
  }

  lemma AlikeOn(one: (Tables, Reply), two: (Tables, Reply), three: (Tables, Reply), u: Id)
    requires Alike(one, two, u) && Alike(two, three, u)
    ensures Alike(one, three, u)
  {
  }

  /* ---- Steps taken alone ---- */

  lemma UnknownAlone(t: Tables, u: Id)
    requires u in t.uploads
    ensures Alone(GiveUp(t, u).0, u, GiveUp(t, u).1) && Answers(GiveUp(t, u).0, u, GiveUp(t, u).1)
  {
  }

  lemma LoadAlone(t: Tables, u: Id)
    requires TablesInv(t) && Alone(t, u, Loading)
    ensures Alone(Load(t, u).0, u, Load(t, u).1) && Answers(Load(t, u).0, u, Load(t, u).1)
  {
    hide TablesInv, AllReceived, Whole;
    RowOf(t, u);
    if Started(t.uploads[u]) {
      ReadyFits(t, u);
    }
  }

  lemma ReloadAlone(t: Tables, u: Id)
    requires TablesInv(t) && SessionInv(t, u, Reloading) && Alone(t, u, Reloading)
    ensures Alone(Reload(t, u).0, u, Reload(t, u).1) && Answers(Reload(t, u).0, u, Reload(t, u).1)
  {
    hide TablesInv, AllReceived, Whole;
    ManifestOf(t, u);
  }

  lemma CheckFinalAlone(t: Tables, u: Id, r: Ready)
    requires Alone(t, u, CheckingFinal(r))
    ensures var (t', pc') := CheckFinal(t, u, r, true); Alone(t', u, pc') && Answers(t', u, pc')
  {
    hide AllReceived, Whole;
    UnknownAlone(t, u);
  }

  lemma OpenStageAlone(t: Tables, u: Id, r: Ready)
    requires Assembling(t, u, r) && Alone(t, u, OpeningStage(r)) && ReadyShape(u, r)
    ensures Alone(OpenStage(t, r, true).0, u, OpenStage(t, r, true).1)
  {
    hide AllReceived;
    JoinedSame(t.files, t.files[StageOf(r) := []], u, |r.manifest.parts|);
  }

  lemma WriteAlone(t: Tables, u: Id, r: Ready, k: nat, read: Bytes)
    requires Assembling(t, u, r) && Alone(t, u, Writing(r, k, read)) && ReadyShape(u, r) && k <= |r.manifest.parts|
    ensures Alone(Write(t, u, r, k, read, true).0, u, Write(t, u, r, k, read, true).1)
  {
    hide AllReceived, Fits;
    var stage := StageOf(r);
    if k < |r.manifest.parts| {
      assert k in t.uploads[u].received by { ReceivedAt(t.uploads[u], k); }
      var files := t.files[stage := read + t.files[PartKey(u, k)]];
      JoinedSame(t.files, files, u, k + 1);
      JoinedSame(t.files, files, u, |r.manifest.parts|);
      JoinedPrefix(files, u, k + 1, |r.manifest.parts|);
    } else {
      var files := t.files - {stage};
      JoinedSame(t.files, files, u, |r.manifest.parts|);
      assert Whole(t.(files := files), u) == Whole(t, u) == read;
    }
  }

  lemma ReceivedAt(upload: Upload, k: nat)
    requires AllReceived(upload) && k < |upload.manifest.parts|
    ensures k in upload.received
  {
  }

  lemma AdvanceAlone(t: Tables, u: Id, r: Ready)
    requires Alone(t, u, Advancing(r)) && InPhase(t, u, r, CommitStarted)
    ensures Alone(Advance(t, u, r).0, u, Advance(t, u, r).1) && Answers(Advance(t, u, r).0, u, Advance(t, u, r).1)
  {
    hide AllReceived, Whole;
  }

  lemma RecheckAlone(t: Tables, u: Id, r: Ready)
    requires u in t.uploads && InPhase(t, u, r, Finalizing)
    ensures var (t', pc') := Recheck(t, u, r, true); Alone(t', u, pc') && Answers(t', u, pc')
  {
    hide Current;
    UnknownAlone(t, u);
  }

  lemma CheckStageAlone(t: Tables, u: Id, r: Ready)
    requires Alone(t, u, CheckingStage(r)) && InPhase(t, u, r, Finalizing)
    ensures var (t', pc') := CheckStage(t, u, r, true); Alone(t', u, pc') && Answers(t', u, pc')
  {
    hide Current;
    UnknownAlone(t, u);
  }

  lemma LinkAlone(t: Tables, u: Id, r: Ready)
    requires Alone(t, u, Linking(r)) && InPhase(t, u, r, Finalizing)
    ensures var (t', pc') := Link(t, u, r, true); Alone(t', u, pc') && Answers(t', u, pc')
  {
    hide Current;
    UnknownAlone(t, u);
  }

  lemma VerifyAlone(t: Tables, u: Id, r: Ready)
    requires Alone(t, u, Verifying(r)) && InPhase(t, u, r, Finalizing)
    ensures var (t', pc') := Verify(t, u, r, true); Alone(t', u, pc') && Answers(t', u, pc')
  {
    hide Current;
    UnknownAlone(t, u);
  }

  lemma CountAlone(t: Tables, u: Id)
    requires TablesInv(t) && SessionInv(t, u, Counting) && Alone(t, u, Counting)
    ensures Alone(Count(t, u).0, u, Count(t, u).1) && Answers(Count(t, u).0, u, Count(t, u).1)
  {
    hide TablesInv, AllReceived, SoundManifest;
    ManifestOf(t, u);
  }

  lemma BeginAlone(t: Tables, u: Id)
    requires TablesInv(t) && SessionInv(t, u, Beginning) && Alone(t, u, Beginning)
    ensures Alone(Begin(t, u).0, u, Begin(t, u).1) && Answers(Begin(t, u).0, u, Begin(t, u).1)
  {
    hide TablesInv, Whole, LoadCandidate, CommitOverQuota;
    AccountThere(t, u) by { RowOf(t, u); }
    if BeginCommit(t, u).1 == BeginNoSpace {
      BeginRefused(t, u);
    }
  }

  lemma WindowAlone(t: Tables, u: Id, pc: Pc)
    requires TablesInv(t) && SessionInv(t, u, pc) && u in t.uploads && (pc.Looking? || pc.Vetting?)
    ensures var (t', pc') := Micro(t, u, pc, true); Alone(t', u, pc') && Answers(t', u, pc')
  {
    hide TablesInv, LoadCandidate, RowIs, Current, ReadyShape;
    if pc.Vetting? {
      VetPasses(t, u, pc.r, pc.candidate);
    }
  }

  lemma RecordAlone(t: Tables, u: Id, r: Ready, round: nat, approved: Option<Candidate>)
    requires TablesInv(t) && SessionInv(t, u, Recording(r, round, approved)) && u in t.uploads
    ensures u in Record(t, u, r, round, approved).0.uploads
    ensures var (t', pc') := Record(t, u, r, round, approved); Alone(t', u, pc') && Answers(t', u, pc')
  {
    hide TablesInv, RecordMetadata, LoadCandidate, RowIs, ReadyShape;
    RecordedRow(t, u, r, round, approved);
    RecordingTouches(t, u, r, approved);
  }

  lemma TidyAlone(t: Tables, u: Id, r: Ready, outcome: Reply, strict: bool)
    requires SessionInv(t, u, Tidying(r, outcome, strict)) && u in t.uploads
    ensures var (t', pc') := Tidy(t, u, r, outcome, strict, true); Alone(t', u, pc') && Answers(t', u, pc')
  {
  }

  lemma ConfirmAlone(t: Tables, u: Id, r: Ready, resource: Id, deduplicated: bool)
    requires SessionInv(t, u, Confirming(r, resource, deduplicated)) && u in t.uploads
    ensures var (t', pc') := Confirm(t, u, r, resource, deduplicated, true); Alone(t', u, pc') && Answers(t', u, pc')
  {
    hide Holds;
    UnknownAlone(t, u);
  }

  lemma EndAlone(t: Tables, u: Id, pc: Pc)
    requires SessionInv(t, u, pc) && Alone(t, u, pc) && (pc.Failing? || pc.Discarding?)
    ensures var (t', pc') := Micro(t, u, pc, true); Alone(t', u, pc') && Answers(t', u, pc')
  {
  }

  lemma AssemblingAlone(t: Tables, u: Id, pc: Pc)
    requires TablesInv(t) && SessionInv(t, u, pc) && Alone(t, u, pc) && (pc.OpeningStage? || pc.Writing?)
    ensures var (t', pc') := Micro(t, u, pc, true); Alone(t', u, pc') && Answers(t', u, pc')
  {
    hide TablesInv, Assembling, ReadyShape, AllReceived, Whole, AloneAt;
    AssemblingHere(t, u, pc.r, pc);
    if pc.Writing? {
      WriteAlone(t, u, pc.r, pc.k, pc.read);
    } else {
      OpenStageAlone(t, u, pc.r);
    }
  }

  /** Each step of a request that runs alone keeps this, and a reply is one it would give again. */
  lemma StepAlone(t: Tables, u: Id, pc: Pc)
    requires TablesInv(t) && SessionInv(t, u, pc) && Alone(t, u, pc) && Answers(t, u, pc)
    ensures var (t', pc') := Micro(t, u, pc, true); Alone(t', u, pc') && Answers(t', u, pc')
  {
    hide TablesInv, AloneAt, AllReceived, Whole, Answers, RowIs, Proven;
    match pc
    case Loading => LoadAlone(t, u);
    case Counting => CountAlone(t, u);
    case Beginning => BeginAlone(t, u);
    case Reloading => ReloadAlone(t, u);
    case CheckingFinal(r) => CheckFinalAlone(t, u, r);
    case OpeningStage(_) => AssemblingAlone(t, u, pc);
    case Writing(_, _, _) => AssemblingAlone(t, u, pc);
    case Failing => EndAlone(t, u, pc);
    case Advancing(r) => AdvanceAlone(t, u, r);
    case Rechecking(r) => RecheckAlone(t, u, r);
    case CheckingStage(r) => CheckStageAlone(t, u, r);
    case Linking(r) => LinkAlone(t, u, r);
    case Verifying(r) => VerifyAlone(t, u, r);
    case Looking(_, _, _) => WindowAlone(t, u, pc);
    case Vetting(_, _, _, _) => WindowAlone(t, u, pc);
    case Recording(r, round, approved) => RecordAlone(t, u, r, round, approved);
    case Tidying(r, outcome, strict) => TidyAlone(t, u, r, outcome, strict);
    case Discarding(_) => EndAlone(t, u, pc);
    case Confirming(r, resource, deduplicated) => ConfirmAlone(t, u, r, resource, deduplicated);
    case Done(_) =>
  }

  lemma {:induction false} StepsAlone(t: Tables, u: Id, pc: Pc, n: nat)
    requires TablesInv(t) && SessionInv(t, u, pc) && Alone(t, u, pc) && Answers(t, u, pc) && Shaped(pc)
    ensures var (t', pc') := Steps(t, u, pc, n);
            && TablesInv(t') && SessionInv(t', u, pc') && Alone(t', u, pc') && Answers(t', u, pc')
            && Drive(t', u, pc') == Drive(t, u, pc)
    decreases n
  {
    hide TablesInv, SessionInv, Alone, Answers, Drive, Micro, Shaped, Effect;
    if n > 0 {
      var (t', pc') := Micro(t, u, pc, true);
      MicroTables(t, u, pc, true);
      MicroSession(t, u, pc, true);
      StepAlone(t, u, pc);
      MicroLowers(t, u, pc, true);
      if pc.Done? {
        DoneStays(t, u, pc);
      } else {
        Unfold(t, u, pc);
      }
      StepsAlone(t', u, pc', n - 1);
    }
  }

  lemma DoneStays(t: Tables, u: Id, pc: Pc)
    requires pc.Done?
    ensures Micro(t, u, pc, true) == (t, pc)
  {
  }

  /* ---- Crashes ---- */

  datatype CrashPoint = CrashPoint(steps: nat, tear: nat)

  /** The tables after attempts at completion that were cut short, or finished, one after another. */
  ghost function Interrupted(t: Tables, u: Id, crashes: seq<CrashPoint>): Tables
    decreases |crashes|
  {
    if crashes == [] then t
    else
      var (t', pc') := Steps(t, u, Loading, crashes[0].steps);
      Interrupted(Cut(t', pc', crashes[0].tear), u, crashes[1..])
  }

  lemma CutAlone(t: Tables, u: Id, pc: Pc, tear: nat)
    requires TablesInv(t) && SessionInv(t, u, pc) && Alone(t, u, pc)
    ensures Alone(Cut(t, pc, tear), u, Loading) && TablesInv(Cut(t, pc, tear))
  {
    hide TablesInv, AllReceived, Whole, Assembling, AloneAt, RowIs, Proven;
    CutStage(t, u, pc, tear);
    if pc.Writing? {
      AssemblingHere(t, u, pc.r, pc);
      CutIsAlone(t, u, pc.r, pc.k, pc.read, tear);
    } else {
      CutNothing(t, pc, tear);
      LoadingAlone(t, u, pc);
    }
  }

  lemma LoadingAlone(t: Tables, u: Id, pc: Pc)
    requires Alone(t, u, pc)
    ensures Alone(t, u, Loading)
  {
  }

  /** For one upload alone, completing it after any number of crashes (also in the middle of writing
      its stage, and also after attempts that ran to their reply) gives the reply, the rows, the
      parts and the objects that completing it once without a crash gives. */
  lemma {:induction false} CrashesDoNotMatter(t: Tables, u: Id, crashes: seq<CrashPoint>)
    requires TablesInv(t) && u < t.next && Alone(t, u, Loading)
    ensures Alike(Drive(Interrupted(t, u, crashes), u, Loading), Drive(t, u, Loading), u)
    decreases |crashes|
  {
    hide TablesInv, Alone, Drive, Alike, Cut, Steps;
    if crashes == [] {
      AlikeSelf(Drive(t, u, Loading), u);
    } else {
      var (t', pc') := Steps(t, u, Loading, crashes[0].steps);
      var cut := Cut(t', pc', crashes[0].tear);
      LoadingSession(t, u);
      StepsAlone(t, u, Loading, crashes[0].steps);
      Again(t', u, pc', crashes[0].tear);
      CutAlone(t', u, pc', crashes[0].tear);
      assert u < cut.next by { BelowNext(t', u, pc'); CutNext(t', pc', crashes[0].tear); }
      CrashesDoNotMatter(cut, u, crashes[1..]);
      AlikeOn(Drive(Interrupted(t, u, crashes), u, Loading), Drive(cut, u, Loading), Drive(t, u, Loading), u);
    }
  }

  lemma CutNext(t: Tables, pc: Pc, tear: nat)
    ensures Cut(t, pc, tear).next == t.next
  {
  }

  lemma LoadingSession(t: Tables, u: Id)
    requires u < t.next
    ensures SessionInv(t, u, Loading)
  {
  }
}

/** The result of completing an upload, with or without crashes, and where the hypotheses come from. */
module Completion {
  import opened Prelude
  import opened Content
  import opened Durable
  import opened Session
  import opened World
  import opened TableInvariant
  import opened TableProofs
  import opened RequestInvariant
  import opened RequestProofs
  import opened SessionProofs
  import opened ServerProofs
  import opened Protocol
  import opened LoneRun
  import opened Recovery

  /* ---- The result ---- */

  /** What a request that runs alone leaves behind. */
  lemma {:induction false} DriveAlone(t: Tables, u: Id, pc: Pc)
    requires TablesInv(t) && SessionInv(t, u, pc) && Alone(t, u, pc) && Answers(t, u, pc) && Shaped(pc)
    requires u in t.uploads
    ensures var (t', reply) := Drive(t, u, pc);
            && TablesInv(t') && SessionInv(t', u, Done(reply)) && Answers(t', u, Done(reply))
            && u in t'.uploads && Evolves(t.uploads[u], t'.uploads[u])
    decreases Major(pc), Minor(pc)
  {
    hide TablesInv, SessionInv, Alone, Answers, Micro, Effect, Evolves;
    SameEvolves(t.uploads[u]);
    if !pc.Done? {
      var (t', pc') := Micro(t, u, pc, true);
      MicroTables(t, u, pc, true);
      MicroSession(t, u, pc, true);
      EffectKeys(t, t', u);
      RowOf(t, u);
      SoundOf(t, u, pc);
      MicroEvolves(t, u, pc, true);
      StepAlone(t, u, pc);
      MicroLowers(t, u, pc, true);
      DriveAlone(t', u, pc');
      EvolvesOn(t.uploads[u], t'.uploads[u], Drive(t', u, pc').0.uploads[u]);
    }
  }

  lemma RecordingSucceeds(t: Tables, u: Id, r: Ready)
    requires TablesInv(t) && SessionInv(t, u, Looking(r, 0, None)) && u in t.uploads && !NewerCommitted(t, u)
    ensures Drive(t, u, Looking(r, 0, None)).1.Ok?
  {
    hide TablesInv, Drive, NewerCommitted, RowIs, ReadyShape, LoadCandidate;
    LookingEnds(t, u, r, 0, None);
    var found := LoadCandidate(t, r.account, r.hash);
    ApprovalAside(t, u, r, found);
    IndexOf(t);
    if found.Some? {
      CandidateIs(t, r);
    }
    RecordedRow(t, u, r, 0, found);
    NotOvertaken(t, u, r, found);
  }

  lemma NotOvertaken(t: Tables, u: Id, r: Ready, approved: Option<Candidate>)
    requires u in t.uploads && !NewerCommitted(t, u)
    ensures !RecordMetadata(t, u, r, approved).1.Superseded?
  {
  }

  /** The order of commits is about other rows. */
  lemma NewerSame(t: Tables, t': Tables, u: Id)
    requires u in t.uploads && u in t'.uploads && t'.uploads == t.uploads[u := t'.uploads[u]]
    requires t.uploads[u].phase != Committed && Evolves(t.uploads[u], t'.uploads[u])
    requires !NewerCommitted(t, u)
    ensures !NewerCommitted(t', u)
  {
  }

  /** A step, with everything a lone request keeps. */
  predicate AllWell(t: Tables, u: Id, pc: Pc) {
    TablesInv(t) && SessionInv(t, u, pc) && Alone(t, u, pc) && u in t.uploads && !NewerCommitted(t, u)
  }

  lemma StepWell(t: Tables, u: Id, pc: Pc, t': Tables, pc': Pc)
    requires AllWell(t, u, pc) && !pc.Done? && Micro(t, u, pc, true) == (t', pc')
    requires t.uploads[u].phase != Committed
    ensures AllWell(t', u, pc') && Drive(t, u, pc) == Drive(t', u, pc')
  {
    hide TablesInv, SessionInv, Alone, Micro, Evolves, NewerCommitted, Drive, Shaped;
    MicroTables(t, u, pc, true);
    MicroSession(t, u, pc, true);
    ShapedOf(t, u, pc);
    StepAlone(t, u, pc);
    Unfold(t, u, pc);
    RowOf(t, u);
    SoundOf(t, u, pc);
    EffectKeys(t, t', u);
    MicroEvolves(t, u, pc, true);
    assert t'.uploads == t.uploads[u := t'.uploads[u]];
    NewerSame(t, t', u);
  }

  lemma ShapedOf(t: Tables, u: Id, pc: Pc)
    requires SessionInv(t, u, pc)
    ensures Shaped(pc)
  {
  }

  lemma RecheckingSucceeds(t: Tables, u: Id, r: Ready)
    requires AllWell(t, u, Rechecking(r))
    requires Holds(t.files, r.final, r.size, r.hash)
             || (r.final !in t.files && r.staged.Some? && Holds(t.files, r.staged.value, r.size, r.hash))
    ensures Drive(t, u, Rechecking(r)).1.Ok?
  {
    hide AllWell, Drive, Current;
    assert t.uploads[u].phase == Finalizing by { PhaseAt(t, u, Rechecking(r)); }
    if r.final in t.files {
      StepWell(t, u, Rechecking(r), t, Looking(r, 0, None));
      LookingSucceeds(t, u, r);
    } else {
      StepWell(t, u, Rechecking(r), t, CheckingStage(r));
      StepWell(t, u, CheckingStage(r), t, Linking(r));
      var linked := t.(files := t.files[r.final := t.files[r.staged.value]]);
      StepWell(t, u, Linking(r), linked, Verifying(r));
      StepWell(linked, u, Verifying(r), linked, Looking(r, 0, None));
      LookingSucceeds(linked, u, r);
    }
  }

  lemma LookingSucceeds(t: Tables, u: Id, r: Ready)
    requires AllWell(t, u, Looking(r, 0, None))
    ensures Drive(t, u, Looking(r, 0, None)).1.Ok?
  {
    hide TablesInv, SessionInv, Alone, Drive, NewerCommitted;
    RecordingSucceeds(t, u, r);
  }

  lemma PhaseAt(t: Tables, u: Id, pc: Pc)
    requires AllWell(t, u, pc)
    ensures u in t.uploads && PcSound(t, u, pc)
  {
    hide TablesInv, Alone, NewerCommitted;
  }

  lemma AdvancingSucceeds(t: Tables, u: Id, r: Ready)
    requires AllWell(t, u, Advancing(r)) && r.staged.Some?
    ensures Drive(t, u, Advancing(r)).1.Ok?
  {
    hide AllWell, Drive, Current;
    PhaseAt(t, u, Advancing(r));
    assert AloneAt(t, u, Advancing(r)) by { AllAlone(t, u, Advancing(r)); }
    var moved := ToFinalizing(t, u).0;
    StepWell(t, u, Advancing(r), moved, Rechecking(r));
    RecheckingSucceeds(moved, u, r);
  }

  lemma AllAlone(t: Tables, u: Id, pc: Pc)
    requires AllWell(t, u, pc)
    ensures Alone(t, u, pc) && AloneAt(t, u, pc)
  {
    hide TablesInv, SessionInv, NewerCommitted;
  }

  /** With the commit started, the parts decide, unless the object is there already. */
  lemma StartedResult(t: Tables, u: Id, r: Ready)
    requires AllWell(t, u, CheckingFinal(r))
    requires r.final in t.files ==> Holds(t.files, r.final, r.size, r.hash)
    ensures if r.final in t.files || Fits(Whole(t, u), r.size, r.hash)
            then Drive(t, u, CheckingFinal(r)).1.Ok? else Drive(t, u, CheckingFinal(r)).1 == FailedCommit
  {
    hide AllWell, Drive, Whole, TablesInv, AloneAt;
    PhaseAt(t, u, CheckingFinal(r));
    AllAlone(t, u, CheckingFinal(r));
    TablesOf(t, u, CheckingFinal(r));
    AgainStarted(t, u, r);
    if r.final in t.files {
      StepWell(t, u, CheckingFinal(r), t, Advancing(r));
      AdvancingSucceeds(t, u, r);
    } else {
      AgainAssembling(t, u, r, CheckingFinal(r));
      if Fits(Whole(t, u), r.size, r.hash) {
        AssembledWell(t, u, r);
        AdvancingSucceeds(t.(files := t.files[StageOf(r) := Whole(t, u)]), u, r);
      }
    }
  }

  lemma TablesOf(t: Tables, u: Id, pc: Pc)
    requires AllWell(t, u, pc)
    ensures TablesInv(t) && SessionInv(t, u, pc)
  {
  }

  lemma AssembledWell(t: Tables, u: Id, r: Ready)
    requires AllWell(t, u, CheckingFinal(r)) && r.final !in t.files && r.staged.Some?
    requires Fits(Whole(t, u), r.size, r.hash)
    ensures AllWell(t.(files := t.files[StageOf(r) := Whole(t, u)]), u, Advancing(r))
  {
    hide TablesInv, NewerCommitted;
    var files := t.files[StageOf(r) := Whole(t, u)];
    FilesKeep(t, files);
    JoinedSame(t.files, files, u, |t.uploads[u].manifest.parts|);
    SameNewer(t, files, u);
  }

  lemma SameNewer(t: Tables, files: Files, u: Id)
    requires u in t.uploads && !NewerCommitted(t, u)
    ensures !NewerCommitted(t.(files := files), u)
  {
  }

  /** The object an upload is to become. */
  function FinalKey(t: Tables, u: Id): Key
    requires u in t.uploads && t.uploads[u].account in t.accounts
  {
    ObjectOf(t.accounts[t.uploads[u].account].path, t.uploads[u].manifest.hash)
  }

  /** All parts are there, no newer upload is committed, the quota admits the commit, and the object
      is absent or already correct (and present if its row is). */
  ghost predicate ReadyToComplete(t: Tables, u: Id) {
    && TablesInv(t) && u in t.uploads && u < t.next && Alone(t, u, Loading)
    && t.uploads[u].phase == Receiving && AllReceived(t.uploads[u]) && !NewerCommitted(t, u)
    && t.uploads[u].account in t.accounts && BeginCommit(t, u).1 == Begun
    && (FinalKey(t, u) in t.files ==>
          Holds(t.files, FinalKey(t, u), t.uploads[u].manifest.size, t.uploads[u].manifest.hash))
    && (LoadCandidate(t, t.uploads[u].account, t.uploads[u].manifest.hash).Some? ==> FinalKey(t, u) in t.files)
  }

  lemma BegunWell(t: Tables, u: Id)
    requires ReadyToComplete(t, u)
    ensures AllWell(BeginCommit(t, u).0, u, Reloading)
    ensures Drive(t, u, Loading) == Drive(BeginCommit(t, u).0, u, Reloading)
  {
    hide TablesInv, BeginCommit, Drive, Alone, LoadCandidate, AllReceived, NewerCommitted, Holds;
    LoadingSession(t, u);
    ManifestOf(t, u);
    StepWell(t, u, Loading, t, Counting);
    StepWell(t, u, Counting, t, Beginning);
    StepWell(t, u, Beginning, BeginCommit(t, u).0, Reloading);
  }

  /** The record that `begin_commit` leaves. */
  lemma BegunRecord(t: Tables, u: Id)
    requires ReadyToComplete(t, u)
    ensures var t1 := BeginCommit(t, u).0;
            && u in t1.uploads && t1.files == t.files && t1.uploads[u].manifest == t.uploads[u].manifest
            && t1.uploads[u].proof.Some? && t1.uploads[u].proof.value.final == FinalKey(t, u)
            && t1.uploads[u].proof.value.size == t.uploads[u].manifest.size
            && t1.uploads[u].proof.value.hash == t.uploads[u].manifest.hash
            && PreCommit(t1.uploads[u])
            && (t1.uploads[u].phase == CommitStarted || FinalKey(t, u) in t.files)
  {
    hide TablesInv, Alone, AllReceived, NewerCommitted, CommitOverQuota, Holds;
    var hash := t.uploads[u].manifest.hash;
    if LoadCandidate(t, t.uploads[u].account, hash).Some? {
      FoundCandidate(t, t.uploads[u].account, hash);
    }
  }

  lemma ReloadedResult(t: Tables, u: Id, t1: Tables)
    requires ReadyToComplete(t, u) && t1 == BeginCommit(t, u).0 && AllWell(t1, u, Reloading)
    ensures Drive(t, u, Loading) == Drive(t1, u, Reloading)
    ensures if FinalKey(t, u) in t.files || Fits(Whole(t, u), t.uploads[u].manifest.size, t.uploads[u].manifest.hash)
            then Drive(t1, u, Reloading).1.Ok? else Drive(t1, u, Reloading).1 == FailedCommit
  {
    hide ReadyToComplete, AllWell, Drive, BeginCommit, NewerCommitted, Fits;
    BegunWell(t, u);
    BegunRecord(t, u);
    PhaseAt(t1, u, Reloading);
    TablesOf(t1, u, Reloading);
    assert ReadyCommit(t1, u).Some? && Current(t1.uploads[u], ReadyCommit(t1, u).value) by {
      hide TablesInv;
      ManifestOf(t1, u);
    }
    var r := ReadyCommit(t1, u).value;
    FinalIsCorrect(t, u);
    hide TablesInv, ReadyCommit;
    if t1.uploads[u].phase == CommitStarted {
      StepWellReload(t1, u, r, CheckingFinal(r));
      StartedResult(t1, u, r);
    } else {
      StepWellReload(t1, u, r, Rechecking(r));
      RecheckingSucceeds(t1, u, r);
    }
  }

  lemma StepWellReload(t: Tables, u: Id, r: Ready, pc: Pc)
    requires AllWell(t, u, Reloading) && u in t.uploads && ReadyCommit(t, u) == Some(r) && PreCommit(t.uploads[u])
    requires pc == if t.uploads[u].phase == CommitStarted then CheckingFinal(r) else Rechecking(r)
    ensures AllWell(t, u, pc) && Drive(t, u, Reloading) == Drive(t, u, pc)
  {
    hide AllWell, Drive, ReadyCommit;
    StepWell(t, u, Reloading, t, pc);
  }

  lemma FinalIsCorrect(t: Tables, u: Id)
    requires ReadyToComplete(t, u)
    ensures u in t.uploads && t.uploads[u].account in t.accounts
    ensures FinalKey(t, u) in t.files ==>
              Holds(t.files, FinalKey(t, u), t.uploads[u].manifest.size, t.uploads[u].manifest.hash)
  {
    hide TablesInv, Alone, AllReceived, NewerCommitted, BeginCommit, LoadCandidate;
  }

  /** The upload is committed and its content is stored, as declared. */
  predicate Delivered(t: Tables, u: Id, manifest: Manifest) {
    && u in t.uploads && t.uploads[u].phase == Committed && t.uploads[u].blob.Some?
    && t.uploads[u].blob.value in t.blobs
    && Holds(t.files, t.blobs[t.uploads[u].blob.value].key, manifest.size, manifest.hash)
    && t.blobs[t.uploads[u].blob.value].key.ObjectKey?
  }

  lemma CommittedIsDelivered(t: Tables, u: Id)
    requires TablesInv(t) && u in t.uploads && t.uploads[u].phase == Committed
    ensures Delivered(t, u, t.uploads[u].manifest)
  {
    hide TablesInv;
    RowOf(t, u);
    BlobAccount(t, t.uploads[u].blob.value);
  }

  /** One uninterrupted completion: if the parts concatenate to the declared content, or the content
      is stored already, the upload is committed with that content; otherwise it is failed. */
  lemma CompletionResult(t: Tables, u: Id)
    requires ReadyToComplete(t, u)
    ensures var (t', reply) := Drive(t, u, Loading);
            var manifest := t.uploads[u].manifest;
            if FinalKey(t, u) in t.files || Fits(Whole(t, u), manifest.size, manifest.hash)
            then reply.Ok? && Delivered(t', u, manifest)
            else reply == FailedCommit && u in t'.uploads && t'.uploads[u].phase == Failed(false)
  {
    hide ReadyToComplete, AllWell, Drive, Fits, Whole, Delivered, TablesInv, Alone;
    BegunWell(t, u);
    ReloadedResult(t, u, BeginCommit(t, u).0);
    ReadyLoading(t, u);
    DriveAlone(t, u, Loading);
    var (t', reply) := Drive(t, u, Loading);
    if reply.Ok? {
      CommittedIsDelivered(t', u);
    }
  }

  lemma ReadyLoading(t: Tables, u: Id)
    requires ReadyToComplete(t, u)
    ensures TablesInv(t) && SessionInv(t, u, Loading) && Alone(t, u, Loading) && u < t.next && u in t.uploads
  {
    hide TablesInv, Alone;
  }

  /** The same after any number of crashes. */
  lemma CompletionAfterCrashes(t: Tables, u: Id, crashes: seq<CrashPoint>)
    requires ReadyToComplete(t, u)
    ensures var (t', reply) := Drive(Interrupted(t, u, crashes), u, Loading);
            var manifest := t.uploads[u].manifest;
            if FinalKey(t, u) in t.files || Fits(Whole(t, u), manifest.size, manifest.hash)
            then reply.Ok? && Delivered(t', u, manifest)
            else reply == FailedCommit && u in t'.uploads && t'.uploads[u].phase == Failed(false)
  {
    hide ReadyToComplete, Drive, Fits, Whole, TablesInv, Alone, Interrupted;
    CompletionResult(t, u);
    ReadyLoading(t, u);
    CrashesDoNotMatter(t, u, crashes);
  }

  /** A request that reaches its window after a newer upload of its source committed is overtaken:
      its upload fails without a blob and a stage, and the resources stay as they are. */
  lemma LateRequestIsOvertaken(t: Tables, u: Id, pc: Pc)
    requires TablesInv(t) && SessionInv(t, u, pc) && u in t.uploads && InWindow(pc) && NewerCommitted(t, u)
    ensures var (t', reply) := Drive(t, u, pc);
            && reply == Overtaken && t'.resources == t.resources && u in t'.uploads
            && t'.uploads[u].phase == Failed(true) && t'.uploads[u].blob.None? && t'.uploads[u].staged.None?
            && (pc.r.staged.Some? ==> pc.r.staged.value !in t'.files)
  {
    hide TablesInv, Drive, NewerCommitted, RowIs, ReadyShape, LoadCandidate;
    var r := pc.r;
    WindowEnds(t, u, pc);
    var found := LoadCandidate(t, r.account, r.hash);
    ApprovalAside(t, u, r, found);
    IndexOf(t);
    if found.Some? {
      CandidateIs(t, r);
    }
    RecordedRow(t, u, r, 0, found);
    OvertakenMetadata(t, u, r, found);
  }

  lemma OvertakenMetadata(t: Tables, u: Id, r: Ready, approved: Option<Candidate>)
    requires u in t.uploads && NewerCommitted(t, u)
    ensures var (t', reply) := RecordMetadata(t, u, r, approved);
            && !reply.Recorded?
            && (reply.Superseded? ==>
                  && t'.resources == t.resources && u in t'.uploads && t'.uploads[u].blob.None?
                  && t'.uploads[u].staged.None?)
  {
    hide LoadCandidate, Approved;
  }
}

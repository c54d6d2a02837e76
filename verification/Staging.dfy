/** What stage files hold in every reachable state, and so where recovery may start. */
module Staging {
  import opened Prelude
  import opened Content
  import opened Durable
  import opened Session
  import opened World
  import opened TableInvariant
  import opened TableProofs
  import opened RequestInvariant
  import opened RequestProofs
  import opened SessionProofs
  import opened WorldProofs
  import opened Protocol
  import opened Supersession
  import opened LoneRun
  import opened Recovery

  /* ---- Stages before a commit ---- */

  /** Stages are written only once a commit has started, under ids already given out. */
  predicate StagesStarted(t: Tables) {
    forall k :: k in t.files && k.StageKey? ==>
      k.upload < t.next && (k.upload in t.uploads ==> t.uploads[k.upload].phase != Receiving)
  }

  lemma StepStages(w: World, action: Action)
    requires Inv(w) && StagesStarted(w.t)
    ensures StagesStarted(Step(w, action).t)
  {
    hide Inv, Step, Evolves;
    var t' := Step(w, action).t;
    forall k | k in t'.files && k.StageKey?
      ensures k.upload < t'.next && (k.upload in t'.uploads ==> t'.uploads[k.upload].phase != Receiving)
    {
      StepIds(w, action, k.upload);
      if k !in w.t.files {
        NewStage(w, action, k);
      }
      if k.upload in t'.uploads && k.upload in w.t.uploads {
        StepEvolves(w, action, k.upload);
        NotReceivingAgain(w.t.uploads[k.upload], t'.uploads[k.upload]);
      }
    }
  }

  lemma NotReceivingAgain(before: Upload, after: Upload)
    requires Evolves(before, after) && before.phase != Receiving
    ensures after.phase != Receiving
  {
  }

  /** Only a request that assembles makes a stage. */
  lemma NewStage(w: World, action: Action, k: Key)
    requires Inv(w) && k.StageKey? && k in Step(w, action).t.files && k !in w.t.files
    ensures k.upload < w.t.next && (k.upload in w.t.uploads ==> w.t.uploads[k.upload].phase != Receiving)
  {
    hide TablesInv, SessionInv, DuplicateInv;
    if IsGentle(action) {
      GentleStep(w, action);
      assert false by { NoStageAdded(w.t, Step(w, action).t, k); }
    } else if action.Progress? && action.upload in w.sessions {
      MicroStage(w.t, action.upload, w.sessions[action.upload], action.io, k);
    } else {
      assert false by { RoughStage(w, action, k); }
    }
  }

  lemma NoStageAdded(t: Tables, t': Tables, k: Key)
    requires Gentle(t, t') && k.StageKey? && k !in t.files
    ensures k !in t'.files
  {
  }

  lemma RoughStage(w: World, action: Action, k: Key)
    requires !IsGentle(action) && !(action.Progress? && action.upload in w.sessions) && k !in w.t.files
    ensures k !in Step(w, action).t.files
  {
    hide AccountInUse, Referenced;
  }

  lemma MicroStage(t: Tables, u: Id, pc: Pc, io: bool, k: Key)
    requires TablesInv(t) && SessionInv(t, u, pc) && k.StageKey? && k !in t.files && k in Micro(t, u, pc, io).0.files
    ensures k.upload == u && u < t.next && (u in t.uploads ==> t.uploads[u].phase != Receiving)
  {
    hide TablesInv, SessionInv, Micro;
    BelowNext(t, u, pc);
    MicroTables(t, u, pc, io);
    if u in t.uploads && t.uploads[u].phase == Receiving {
      SoundOf(t, u, pc);
      ReceivingFiles(t, u, pc, io);
    }
  }

  lemma ReceivingFiles(t: Tables, u: Id, pc: Pc, io: bool)
    requires u in t.uploads && PcSound(t, u, pc) && t.uploads[u].phase == Receiving
    ensures Micro(t, u, pc, io).0.files == t.files
  {
    hide RowIs, Current, ReadyCommit, AllReceived, LoadCandidate, CommitOverQuota;
    match pc
    case Loading =>
    case Counting =>
    case Beginning =>
    case Done(_) =>
    case _ =>
  }

  /* ---- Stages while a commit assembles ---- */

  /** A started commit has all its parts, and its stage, if it is there, the beginning of the content. */
  predicate Staged(files: Files, upload: Upload) {
    && (PreCommit(upload) ==> AllReceived(upload))
    && (upload.phase == CommitStarted && upload.staged.Some? && upload.staged.value in files ==>
          files[upload.staged.value] <= Concatenated(upload.manifest.parts))
  }

  /** A request that writes has read the parts before, and its stage, if it is still there, holds them. */
  predicate StagedAt(files: Files, pc: Pc) {
    match pc
    case Writing(r, k, read) =>
      && k <= |r.manifest.parts| && read == Concatenated(r.manifest.parts[..k])
      && (StageOf(r) in files ==> files[StageOf(r)] == read)
    case _ => true
  }

  predicate StagingInv(w: World) {
    && StagesStarted(w.t)
    && (forall u :: u in w.t.uploads ==> Staged(w.t.files, w.t.uploads[u]))
    && (forall u :: u in w.sessions ==> StagedAt(w.t.files, w.sessions[u]))
  }

  lemma {:induction false} ConcatenatedPrefix(parts: seq<PartSpec>, k: nat)
    requires k <= |parts|
    ensures Concatenated(parts[..k]) <= Concatenated(parts)
  {
    if k < |parts| {
      ConcatenatedPrefix(parts[..|parts| - 1], k);
      assert parts[..|parts| - 1][..k] == parts[..k];
    } else {
      assert parts[..k] == parts;
    }
  }

  lemma ConcatenatedMore(parts: seq<PartSpec>, k: nat)
    requires k < |parts|
    ensures Concatenated(parts[..k + 1]) == Concatenated(parts[..k]) + parts[k].hash.preimage
  {
    assert parts[..k + 1][..k] == parts[..k];
  }

  /* ---- The request's own steps ---- */

  lemma WritingStaged(t: Tables, u: Id, r: Ready, k: nat, read: Bytes, io: bool)
    requires SessionInv(t, u, Writing(r, k, read)) && StagedAt(t.files, Writing(r, k, read))
    requires u in t.uploads ==> Staged(t.files, t.uploads[u])
    ensures var (t', pc') := Write(t, u, r, k, read, io);
            t'.uploads == t.uploads && StagedAt(t'.files, pc') && (u in t.uploads ==> Staged(t'.files, t'.uploads[u]))
  {
    hide AllReceived, Concatenated;
    if k < |r.manifest.parts| {
      ConcatenatedMore(r.manifest.parts, k);
      ConcatenatedPrefix(r.manifest.parts, k + 1);
    }
  }

  lemma OpeningStaged(t: Tables, u: Id, r: Ready, io: bool)
    requires SessionInv(t, u, OpeningStage(r)) && (u in t.uploads ==> Staged(t.files, t.uploads[u]))
    ensures var (t', pc') := OpenStage(t, r, io);
            t'.uploads == t.uploads && StagedAt(t'.files, pc') && (u in t.uploads ==> Staged(t'.files, t'.uploads[u]))
  {
    hide AllReceived, Holds;
  }

  lemma BeginningStaged(t: Tables, u: Id)
    requires SessionInv(t, u, Beginning) && StagesStarted(t)
    ensures var (t', pc') := Begin(t, u);
            StagedAt(t'.files, pc') && (u in t'.uploads ==> Staged(t'.files, t'.uploads[u]))
  {
    hide LoadCandidate, CommitOverQuota, Concatenated;
  }

  /** Elsewhere a request neither writes its stage nor goes back to writing it. */
  lemma ElsewhereStaged(t: Tables, u: Id, pc: Pc, io: bool)
    requires SessionInv(t, u, pc) && (u in t.uploads ==> Staged(t.files, t.uploads[u]))
    requires pc.Counting? || pc.Failing? || pc.Advancing? || pc.Linking? || pc.Tidying? || pc.Discarding?
    ensures var (t', pc') := Micro(t, u, pc, io);
            StagedAt(t'.files, pc') && (u in t'.uploads ==> Staged(t'.files, t'.uploads[u]))
  {
    hide Concatenated, SoundManifest, Current, ReadyShape;
  }

  lemma RecordingStaged(t: Tables, u: Id, r: Ready, round: nat, approved: Option<Candidate>)
    requires u in t.uploads ==> Staged(t.files, t.uploads[u])
    ensures var (t', pc') := Record(t, u, r, round, approved);
            StagedAt(t'.files, pc') && (u in t'.uploads ==> Staged(t'.files, t'.uploads[u]))
  {
    hide Concatenated, LoadCandidate, Approved, NewerCommitted, AllReceived;
  }

  lemma ReadingStaged(t: Tables, u: Id, pc: Pc, io: bool)
    requires Reads(pc) && (u in t.uploads ==> Staged(t.files, t.uploads[u]))
    ensures var (t', pc') := Micro(t, u, pc, io);
            StagedAt(t'.files, pc') && (u in t'.uploads ==> Staged(t'.files, t'.uploads[u]))
  {
    hide Concatenated, LoadCandidate, AllReceived, Holds, Inspect, ReadyCommit;
    QuietSteps(t, u, pc, io);
  }

  lemma MicroStaged(t: Tables, u: Id, pc: Pc, io: bool)
    requires SessionInv(t, u, pc) && StagesStarted(t) && StagedAt(t.files, pc)
    requires u in t.uploads ==> Staged(t.files, t.uploads[u])
    ensures var (t', pc') := Micro(t, u, pc, io);
            StagedAt(t'.files, pc') && (u in t'.uploads ==> Staged(t'.files, t'.uploads[u]))
  {
    hide SessionInv, StagesStarted, Staged, StagedAt, Begin, Record, Write, OpenStage, Confirm, Count, MarkFailure,
         Advance, Link, Tidy, Discard, Load, Reload, CheckFinal, Recheck, CheckStage, Verify, Look, Vet;
    match pc
    case Beginning => BeginningStaged(t, u);
    case OpeningStage(r) => OpeningStaged(t, u, r, io);
    case Writing(r, k, read) => WritingStaged(t, u, r, k, read, io);
    case Recording(r, round, approved) => RecordingStaged(t, u, r, round, approved);
    case _ =>
      if Reads(pc) {
        ReadingStaged(t, u, pc, io);
      } else {
        ElsewhereStaged(t, u, pc, io);
      }
  }

  /* ---- Everything else ---- */

  lemma OthersStaged(t: Tables, t': Tables, u: Id, v: Id)
    requires TablesInv(t) && Effect(t, t', u) && v != u && v in t.uploads && Staged(t.files, t.uploads[v])
    ensures v in t'.uploads && Staged(t'.files, t'.uploads[v])
  {
    hide TablesInv, AllReceived, Concatenated;
    RowOf(t, v);
  }

  lemma OtherStagedAt(t: Tables, t': Tables, u: Id, v: Id, pc: Pc)
    requires Effect(t, t', u) && v != u && SessionInv(t, v, pc) && StagedAt(t.files, pc)
    ensures StagedAt(t'.files, pc)
  {
    hide Concatenated;
  }

  lemma ProgressStaged(w: World, u: Id, io: bool)
    requires Inv(w) && StagingInv(w) && u in w.sessions
    ensures var w' := Step(w, Progress(u, io));
            && (forall v :: v in w'.t.uploads ==> Staged(w'.t.files, w'.t.uploads[v]))
            && (forall v :: v in w'.sessions ==> StagedAt(w'.t.files, w'.sessions[v]))
  {
    hide TablesInv, SessionInv, DuplicateInv, Micro, Effect, Staged, StagedAt, StagesStarted;
    var (t', pc') := Micro(w.t, u, w.sessions[u], io);
    MicroTables(w.t, u, w.sessions[u], io);
    MicroStaged(w.t, u, w.sessions[u], io);
    EffectKeys(w.t, t', u);
    forall v | v in t'.uploads ensures Staged(t'.files, t'.uploads[v]) {
      if v != u {
        OthersStaged(w.t, t', u, v);
      }
    }
    forall v | v in w.sessions && v != u ensures StagedAt(t'.files, w.sessions[v]) {
      OtherStagedAt(w.t, t', u, v, w.sessions[v]);
    }
  }

  /** A stage that is cut short is still the beginning of the content. */
  lemma CutStaged(t: Tables, u: Id, pc: Pc, tear: nat)
    requires TablesInv(t) && SessionInv(t, u, pc) && StagedAt(t.files, pc)
    requires u in t.uploads && Staged(t.files, t.uploads[u])
    ensures Staged(Cut(t, pc, tear).files, t.uploads[u])
  {
    hide TablesInv, AllReceived, Concatenated;
    RowOf(t, u);
    if pc.Writing? {
      ConcatenatedPrefix(pc.r.manifest.parts, pc.k);
    }
  }

  lemma AbandonStaged(w: World, u: Id, tear: nat)
    requires Inv(w) && StagingInv(w) && u in w.sessions
    ensures var w' := Step(w, Abandon(u, tear));
            && (forall v :: v in w'.t.uploads ==> Staged(w'.t.files, w'.t.uploads[v]))
            && (forall v :: v in w'.sessions ==> StagedAt(w'.t.files, w'.sessions[v]))
  {
    hide TablesInv, SessionInv, DuplicateInv, Effect, Staged, StagedAt, StagesStarted;
    var t' := Cut(w.t, w.sessions[u], tear);
    CutStage(w.t, u, w.sessions[u], tear);
    hide Cut;
    CutRows(w.t, w.sessions[u], tear);
    forall v | v in t'.uploads ensures Staged(t'.files, t'.uploads[v]) {
      if v == u {
        CutStaged(w.t, u, w.sessions[u], tear);
      } else {
        OthersStaged(w.t, t', u, v);
      }
    }
    forall v | v in w.sessions && v != u ensures StagedAt(t'.files, w.sessions[v]) {
      OtherStagedAt(w.t, t', u, v, w.sessions[v]);
    }
  }

  lemma CutRows(t: Tables, pc: Pc, tear: nat)
    ensures Cut(t, pc, tear).uploads == t.uploads
  {
  }

  /** Every other action leaves uploads as they are, or receives parts, and writes no stage. */
  lemma OthersKeepRows(w: World, action: Action)
    requires TablesInv(w.t) && !((action.Progress? || action.Abandon?) && action.upload in w.sessions)
    ensures UploadsKept(w.t, Step(w, action).t) && NoNewStages(w.t, Step(w, action).t)
  {
    hide TablesInv, UploadsKept, NoNewStages, AccountInUse, Referenced;
    SameRows(w.t, w.t);
    if IsGentle(action) {
      GentleStep(w, action);
      GentleKeepsRows(w.t, Step(w, action).t);
    } else {
      match action
      case RemoveAccount(a) => SameRows(w.t, Durable.RemoveAccount(w.t, a));
      case Reclaim(b) => ReclaimFrame(w.t, b);
      case ReclaimTorn(b) => ReclaimFrame(w.t, b);
      case _ =>
    }
  }

  lemma SameRows(t: Tables, t': Tables)
    requires t'.uploads == t.uploads && t'.files == t.files
    ensures UploadsKept(t, t') && NoNewStages(t, t')
  {
  }

  lemma GentleKeepsRows(t: Tables, t': Tables)
    requires Gentle(t, t')
    ensures UploadsKept(t, t') && NoNewStages(t, t')
  {
  }

  lemma KeptStaged(t: Tables, t': Tables, u: Id)
    requires UploadsKept(t, t') && NoNewStages(t, t') && u in t'.uploads
    requires u in t.uploads ==> Staged(t.files, t.uploads[u]) && StagedBy(u, t.uploads[u].staged)
    ensures Staged(t'.files, t'.uploads[u])
  {
    hide Concatenated;
  }

  lemma KeptStagedAt(t: Tables, t': Tables, u: Id, pc: Pc)
    requires NoNewStages(t, t') && SessionInv(t, u, pc) && StagedAt(t.files, pc)
    ensures StagedAt(t'.files, pc)
  {
    hide Concatenated;
  }

  lemma OthersKeepStaged(w: World, action: Action)
    requires Inv(w) && StagingInv(w) && !((action.Progress? || action.Abandon?) && action.upload in w.sessions)
    ensures var w' := Step(w, action);
            && (forall v :: v in w'.t.uploads ==> Staged(w'.t.files, w'.t.uploads[v]))
            && (forall v :: v in w'.sessions ==> StagedAt(w'.t.files, w'.sessions[v]))
  {
    hide TablesInv, SessionInv, DuplicateInv, Staged, StagedAt, StagesStarted, UploadsKept, NoNewStages, Step;
    var w' := Step(w, action);
    OthersKeepRows(w, action);
    forall v | v in w'.t.uploads ensures Staged(w'.t.files, w'.t.uploads[v]) {
      if v in w.t.uploads {
        RowOf(w.t, v);
      }
      KeptStaged(w.t, w'.t, v);
    }
    OthersKeepSessions(w, action);
    forall v | v in w'.sessions ensures StagedAt(w'.t.files, w'.sessions[v]) {
      if v in w.sessions {
        KeptStagedAt(w.t, w'.t, v, w.sessions[v]);
      } else {
        LoadingStaged(w'.t.files);
      }
    }
  }

  lemma LoadingStaged(files: Files)
    ensures StagedAt(files, Loading)
  {
  }

  /** Only its own progress moves a request; otherwise it enters or leaves. */
  lemma OthersKeepSessions(w: World, action: Action)
    requires !((action.Progress? || action.Abandon?) && action.upload in w.sessions)
    ensures forall v :: v in Step(w, action).sessions ==>
              Step(w, action).sessions[v] == if v in w.sessions then w.sessions[v] else Loading
  {
    hide OpenUpload;
  }

  lemma StepStaged(w: World, action: Action)
    requires Inv(w) && StagingInv(w)
    ensures StagingInv(Step(w, action))
  {
    hide Inv, Step, Staged, StagedAt, StagesStarted;
    assert StagesStarted(w.t);
    StepStages(w, action);
    if action.Progress? && action.upload in w.sessions {
      ProgressStaged(w, action.upload, action.io);
    } else if action.Abandon? && action.upload in w.sessions {
      AbandonStaged(w, action.upload, action.tear);
    } else {
      OthersKeepStaged(w, action);
    }
  }

  /** So in every reachable state the stage of a started commit is the beginning of its content. */
  lemma {:induction false} StagesArePrefixes(actions: seq<Action>)
    requires AdmissibleRun(actions)
    ensures StagingInv(Run(actions))
  {
    hide Inv, Step, StagingInv;
    if actions == [] {
      assert StagingInv(START) by { StartStaged(); }
    } else {
      var earlier, last := actions[..|actions| - 1], actions[|actions| - 1];
      RunKeeps(earlier);
      StagesArePrefixes(earlier);
      StepStaged(Run(earlier), last);
    }
  }

  lemma StartStaged()
    ensures StagingInv(START)
  {
  }

  lemma {:induction false} ReceivingHasNoStage(actions: seq<Action>)
    requires AdmissibleRun(actions)
    ensures StagesStarted(Run(actions).t)
  {
    hide Run, StagesStarted;
    StagesArePrefixes(actions);
  }

  /* ---- Recovery from reachable states ---- */

  lemma {:induction false} JoinedIsConcatenated(files: Files, u: Id, upload: Upload, n: nat)
    requires AllReceived(upload) && PartsHeld(files, u, upload) && n <= |upload.manifest.parts|
    ensures Joined(files, u, n) == Concatenated(upload.manifest.parts[..n])
  {
    if n > 0 {
      JoinedIsConcatenated(files, u, upload, n - 1);
      ConcatenatedMore(upload.manifest.parts, n - 1);
      assert n - 1 in upload.received;
    }
  }

  /** With all parts received, what they make up is what their hashes say. */
  lemma WholeIsConcatenated(t: Tables, u: Id)
    requires TablesInv(t) && u in t.uploads && AllReceived(t.uploads[u])
    ensures Whole(t, u) == Concatenated(t.uploads[u].manifest.parts)
  {
    hide TablesInv;
    RowOf(t, u);
    var parts := t.uploads[u].manifest.parts;
    JoinedIsConcatenated(t.files, u, t.uploads[u], |parts|);
    assert parts[..|parts|] == parts;
  }

  lemma ReachableIsAlone(w: World, u: Id)
    requires Inv(w) && StagingInv(w) && u in w.t.uploads
    ensures Alone(w.t, u, Loading)
  {
    hide TablesInv, SessionInv, DuplicateInv, StagedAt, Whole, Concatenated;
    var upload := w.t.uploads[u];
    assert Staged(w.t.files, upload);
    RowOf(w.t, u);
    if upload.phase == CommitStarted {
      WholeIsConcatenated(w.t, u);
    }
  }

  /** Any upload of any reachable server, however far a crash left it, once nothing else is going on,
      can be completed through any further crashes as if there had been none. */
  lemma {:induction false} ReachableRecovers(actions: seq<Action>, u: Id, crashes: seq<CrashPoint>)
    requires AdmissibleRun(actions) && u in Run(actions).t.uploads
    ensures var t := Run(actions).t; Alike(Drive(Interrupted(t, u, crashes), u, Loading), Drive(t, u, Loading), u)
  {
    hide Run, AdmissibleRun, TablesInv, SessionInv, DuplicateInv, Alike, Interrupted, Drive, StagingInv, Alone;
    var t := Run(actions).t;
    RunKeeps(actions);
    StagesArePrefixes(actions);
    ReachableIsAlone(Run(actions), u);
    Below(t);
    CrashesDoNotMatter(t, u, crashes);
  }
}

/** What answers and marks mean: which uploads fail, which are marked as deduplicated, and exactly when a
    completion is refused. */
module Answers {
  import opened Prelude
  import opened Content
  import opened Durable
  import opened Session
  import opened World
  import opened TableInvariant
  import opened TableProofs
  import opened RequestInvariant
  import opened RequestProofs
  import opened SessionProofs
  import opened WorldProofs
  import opened Protocol
  import opened Supersession
  import opened LoneRun
  import opened Recovery
  import opened Completion
  import opened Staging
  import opened Delivery
  import opened Opening
  import opened Journey

  /* ---- Only what the client sent makes an upload fail ---- */

  /** An upload whose declared parts make up its declared content is not failed by validation. */
  predicate Sturdy(upload: Upload) {
    Coherent(upload.manifest) ==> upload.phase != Failed(false)
  }

  predicate SturdyAt(t: Tables, u: Id, pc: Pc) {
    u in t.uploads && Coherent(t.uploads[u].manifest) ==> !pc.Failing?
  }

  predicate SturdyInv(w: World) {
    && (forall u :: u in w.t.uploads ==> Sturdy(w.t.uploads[u]))
    && (forall u :: u in w.sessions ==> SturdyAt(w.t, u, w.sessions[u]))
  }

  predicate Unfailed(t: Tables, u: Id, pc: Pc) {
    u in t.uploads && t.uploads[u].phase != Failed(false) && !pc.Failing?
  }

  lemma ReadingStands(t: Tables, u: Id, pc: Pc, io: bool)
    requires Reads(pc) && Unfailed(t, u, pc)
    ensures Unfailed(Micro(t, u, pc, io).0, u, Micro(t, u, pc, io).1)
  {
    QuietSteps(t, u, pc, io);
    hide LoadCandidate, ReadyCommit, Holds, Inspect, MarkUnknown;
    assert !Micro(t, u, pc, io).1.Failing?;
    hide Micro;
    MarkedUnknown(t, u);
  }

  lemma MarkedUnknown(t: Tables, u: Id)
    requires u in t.uploads
    ensures u in MarkUnknown(t, u).uploads && MarkUnknown(t, u).uploads[u].phase == Unknown
  {
  }

  lemma CountingStands(t: Tables, u: Id)
    requires Unfailed(t, u, Counting) && SoundManifest(t.uploads[u].manifest)
    ensures Unfailed(Count(t, u).0, u, Count(t, u).1)
  {
    hide AllReceived, SoundManifest;
  }

  lemma BeginningStands(t: Tables, u: Id)
    requires Unfailed(t, u, Beginning)
    ensures Unfailed(Begin(t, u).0, u, Begin(t, u).1)
  {
    hide LoadCandidate, CommitOverQuota;
  }

  lemma RowStands(t: Tables, u: Id, pc: Pc, io: bool)
    requires Unfailed(t, u, pc)
    requires pc.OpeningStage? || pc.Advancing? || pc.Linking? || pc.Tidying? || pc.Discarding?
    ensures Unfailed(Micro(t, u, pc, io).0, u, Micro(t, u, pc, io).1)
  {
    hide Holds, Fits;
  }

  lemma RecordingStands(t: Tables, u: Id, r: Ready, round: nat, approved: Option<Candidate>)
    requires Unfailed(t, u, Recording(r, round, approved))
    ensures Unfailed(Record(t, u, r, round, approved).0, u, Record(t, u, r, round, approved).1)
  {
    hide LoadCandidate, Approved, NewerCommitted, InsertBlob, UpsertResource, ResourceRow;
    RecordMetadataCases(t, u, r, approved);
    hide RecordMetadata;
  }

  /** Every part is there as declared, and so is the whole. */
  lemma WritingStands(t: Tables, u: Id, r: Ready, k: nat, read: Bytes, io: bool)
    requires Unfailed(t, u, Writing(r, k, read)) && GoodReady(t, u, r) && AllReceived(t.uploads[u])
    requires PartsHeld(t.files, u, t.uploads[u]) && StagedAt(t.files, Writing(r, k, read))
    ensures Unfailed(Write(t, u, r, k, read, io).0, u, Write(t, u, r, k, read, io).1)
  {
    hide Concatenated;
    if k < |r.manifest.parts| {
      assert k in t.uploads[u].received;
    } else {
      assert r.manifest.parts[..k] == r.manifest.parts;
    }
  }

  lemma MicroStands(t: Tables, u: Id, pc: Pc, io: bool)
    requires TablesInv(t) && SessionInv(t, u, pc) && Unfailed(t, u, pc) && Coherent(t.uploads[u].manifest)
    requires Staged(t.files, t.uploads[u]) && StagedAt(t.files, pc)
    ensures Unfailed(Micro(t, u, pc, io).0, u, Micro(t, u, pc, io).1)
  {
    hide TablesInv, SessionInv, Unfailed, Coherent, StagedAt, Concatenated, Begin, Record, Write, Count, MarkFailure,
         Advance, Link, Tidy, Discard, OpenStage, Load, Reload, CheckFinal, Recheck, CheckStage, Verify, Look, Vet,
         Confirm, AllReceived;
    NotFailing(t, u, pc);
    RowOf(t, u);
    match pc
    case Counting => CountingStands(t, u);
    case Beginning => BeginningStands(t, u);
    case Writing(r, k, read) =>
      CopyPhase(t, u, pc);
      CopyIsGood(t, u, pc);
      WritingStands(t, u, r, k, read, io);
    case Recording(r, round, approved) => RecordingStands(t, u, r, round, approved);
    case _ =>
      if Reads(pc) {
        ReadingStands(t, u, pc, io);
      } else {
        RowStands(t, u, pc, io);
      }
  }

  lemma NotFailing(t: Tables, u: Id, pc: Pc)
    requires Unfailed(t, u, pc)
    ensures u in t.uploads && !pc.Failing?
  {
  }

  lemma ProgressStands(w: World, u: Id, io: bool)
    requires Inv(w) && StagingInv(w) && SturdyInv(w) && u in w.sessions
    ensures SturdyInv(Step(w, Progress(u, io)))
  {
    hide TablesInv, SessionInv, DuplicateInv, Micro, Effect, Staged, StagedAt, StagesStarted, Coherent;
    var pc := w.sessions[u];
    var t' := Micro(w.t, u, pc, io).0;
    MicroTables(w.t, u, pc, io);
    EffectKeys(w.t, t', u);
    EffectOthers(w.t, t', u);
    if u in w.t.uploads {
      SoundOf(w.t, u, pc);
      StepEvolves(w, Progress(u, io), u);
      if Coherent(w.t.uploads[u].manifest) {
        MicroStands(w.t, u, pc, io);
      }
    }
  }

  lemma KeptSturdy(t: Tables, t': Tables, v: Id)
    requires UploadsKept(t, t') && v in t'.uploads && (v in t.uploads ==> Sturdy(t.uploads[v]))
    ensures Sturdy(t'.uploads[v])
    ensures v in t.uploads ==> t'.uploads[v].manifest == t.uploads[v].manifest
    ensures v !in t.uploads ==> v >= t.next
  {
    hide Coherent;
  }

  lemma OthersStand(w: World, action: Action)
    requires Inv(w) && SturdyInv(w) && !(action.Progress? && action.upload in w.sessions)
    ensures SturdyInv(Step(w, action))
  {
    hide TablesInv, SessionInv, DuplicateInv, Coherent, Step, UploadsKept;
    var w' := Step(w, action);
    if action.Abandon? && action.upload in w.sessions {
      AbandonedRows(w, action.upload, action.tear);
    } else {
      OthersKeepRows(w, action);
      OthersKeepSessions(w, action);
      forall v | v in w'.t.uploads ensures Sturdy(w'.t.uploads[v]) {
        KeptSturdy(w.t, w'.t, v);
      }
      forall v | v in w'.sessions ensures SturdyAt(w'.t, v, w'.sessions[v]) {
        if v in w'.t.uploads {
          KeptSturdy(w.t, w'.t, v);
          if v in w.sessions {
            BelowNext(w.t, v, w.sessions[v]);
          }
        }
      }
    }
  }

  lemma AbandonedRows(w: World, u: Id, tear: nat)
    requires u in w.sessions
    ensures var w' := Step(w, Abandon(u, tear));
            w'.t.uploads == w.t.uploads && w'.sessions == w.sessions - {u}
  {
    CutRows(w.t, w.sessions[u], tear);
    hide Cut;
  }

  /** With whatever storage errors, lost stages, crashes and reclamations: an upload fails validation
      only if its declared parts do not make up its declared content. */
  lemma {:induction false} OnlyBadContentFails(actions: seq<Action>)
    requires AdmissibleRun(actions)
    ensures var t := Run(actions).t;
            forall u :: u in t.uploads && t.uploads[u].phase == Failed(false) ==>
              !Fits(Concatenated(t.uploads[u].manifest.parts), t.uploads[u].manifest.size, t.uploads[u].manifest.hash)
  {
    hide Run, AdmissibleRun, Concatenated, Fits;
    RunStands(actions);
  }

  lemma {:induction false} RunStands(actions: seq<Action>)
    requires AdmissibleRun(actions)
    ensures SturdyInv(Run(actions))
  {
    hide Inv, Step, SturdyInv, StagingInv;
    if actions == [] {
      assert SturdyInv(START) by { StartStands(); }
    } else {
      var earlier, last := actions[..|actions| - 1], actions[|actions| - 1];
      RunKeeps(earlier);
      StagesArePrefixes(earlier);
      RunStands(earlier);
      if last.Progress? && last.upload in Run(earlier).sessions {
        ProgressStands(Run(earlier), last.upload, last.io);
      } else {
        OthersStand(Run(earlier), last);
      }
    }
  }

  lemma StartStands()
    ensures SturdyInv(START)
  {
  }

  /* ---- Storage errors ---- */

  /** The request looks at an object or at its stage. */
  predicate Inspecting(pc: Pc) {
    || pc.CheckingFinal? || pc.Rechecking? || pc.CheckingStage? || pc.Linking? || pc.Verifying? || pc.Vetting?
    || pc.Confirming?
  }

  /** An upload whose object or stage cannot be inspected or linked becomes unknown, for a person to review;
      one whose stage cannot be written is left as it is, for a later attempt. */
  lemma StorageErrors(t: Tables, u: Id, pc: Pc)
    requires u in t.uploads
    ensures Inspecting(pc) ==>
              var (t', pc') := Micro(t, u, pc, false);
              && pc' == Done(NeedsReview) && u in t'.uploads && t'.uploads[u].phase == Unknown
              && t' == t.(uploads := t.uploads[u := t'.uploads[u]])
    ensures pc.OpeningStage? || pc.Writing? ==> Micro(t, u, pc, false) == (t, Done(IoError))
  {
  }

  /** A request that has recorded a commit answers with success, even if the stage cannot be removed; one
      that confirms an earlier commit answers with success only when it has been. */
  lemma RecordedIsAnswered(t: Tables, u: Id, r: Ready, round: nat, approved: Option<Candidate>, after: Tables, io: bool)
    requires RecordMetadata(t, u, r, approved).1.Recorded?
    ensures var reply := RecordMetadata(t, u, r, approved).1;
            var outcome := Ok(reply.resource, r.asset, reply.deduplicated);
            var pc := Record(t, u, r, round, approved).1;
            && (pc == Done(outcome) || (pc.Tidying? && Micro(after, u, pc, io).1 == Done(outcome)))
            && (Micro(after, u, Tidying(r, outcome, true), io).1 == Done(outcome) <==> io)
  {
    hide RecordMetadata, TidyStage;
  }

  /* ---- Deduplication marks ---- */

  predicate Original(upload: Upload) {
    upload.phase == Committed && !upload.deduplicated
  }

  /** Committed uploads that are not marked as deduplicated have blobs of their own. */
  predicate OriginalsApart(uploads: map<Id, Upload>) {
    forall u, v :: u in uploads && v in uploads && u != v && Original(uploads[u]) && Original(uploads[v]) ==>
      uploads[u].blob != uploads[v].blob
  }

  /** An upload that was committed before keeps its blob and mark as long as it is committed. */
  predicate OutcomeKept(before: Upload, after: Upload) {
    after.phase == Committed ==>
      before.phase == Committed && after.blob == before.blob && after.deduplicated == before.deduplicated
  }

  lemma KeptApart(uploads: map<Id, Upload>, uploads': map<Id, Upload>)
    requires OriginalsApart(uploads)
    requires forall u :: u in uploads' ==>
               if u in uploads then OutcomeKept(uploads[u], uploads'[u]) else uploads'[u].phase != Committed
    ensures OriginalsApart(uploads')
  {
  }

  lemma RecordedApart(t: Tables, u: Id, r: Ready, approved: Option<Candidate>)
    requires TablesInv(t) && u in t.uploads && Proven(t, u, r) && OriginalsApart(t.uploads)
    requires RecordMetadata(t, u, r, approved).1.Recorded?
    requires Effect(t, RecordMetadata(t, u, r, approved).0, u)
    ensures OriginalsApart(RecordMetadata(t, u, r, approved).0.uploads)
  {
    hide TablesInv, RecordMetadata, Proven;
    FlagIsExact(t, u, r, approved);
    var uploads := RecordMetadata(t, u, r, approved).0.uploads;
    forall v | v in uploads && v != u && Original(uploads[v]) && Original(uploads[u])
      ensures uploads[u].blob != uploads[v].blob
    {
      RowOf(t, v);
    }
  }

  lemma RecordingApart(t: Tables, u: Id, r: Ready, round: nat, approved: Option<Candidate>)
    requires TablesInv(t) && u in t.uploads && SessionInv(t, u, Recording(r, round, approved))
    requires OriginalsApart(t.uploads) && Effect(t, Record(t, u, r, round, approved).0, u)
    ensures OriginalsApart(Record(t, u, r, round, approved).0.uploads)
  {
    hide TablesInv, RecordMetadata, OriginalsApart, Proven, RowIs, Effect, NewerCommitted, Record, MarkUnknown;
    RecordCases(t, u, r, round, approved);
    var (t', reply) := RecordMetadata(t, u, r, approved);
    if reply.Recorded? {
      RecordedApart(t, u, r, approved);
    } else {
      RecordMetadataCases(t, u, r, approved);
      MarkedApart(t, u, r);
    }
  }

  lemma MarkedApart(t: Tables, u: Id, r: Ready)
    requires u in t.uploads && OriginalsApart(t.uploads)
    ensures OriginalsApart(MarkUnknown(t, u).uploads)
    ensures OriginalsApart(PutRow(InsertBlob(t, r), u, OvertakenRow(t.uploads[u])).uploads)
  {
  }

  lemma OutcomeStays(t: Tables, u: Id, pc: Pc, io: bool)
    requires TablesInv(t) && u in t.uploads && PcSound(t, u, pc) && !pc.Recording?
    requires u in Micro(t, u, pc, io).0.uploads
    ensures OutcomeKept(t.uploads[u], Micro(t, u, pc, io).0.uploads[u])
  {
    hide TablesInv, PcSound, Micro;
    OnlyRecordingAttaches(t, u, pc, io);
    if t.uploads[u].phase == Committed {
      if pc.Confirming? && !io {
        ConfirmingFails(t, u, pc.r, pc.resource, pc.deduplicated);
      } else {
        StaysCommitted(t, u, pc, io);
      }
    }
  }

  lemma ConfirmingFails(t: Tables, u: Id, r: Ready, resource: Id, deduplicated: bool)
    requires u in t.uploads
    ensures var t' := Micro(t, u, Confirming(r, resource, deduplicated), false).0;
            u in t'.uploads && t'.uploads[u].phase == Unknown
  {
  }

  lemma ProgressApart(w: World, u: Id, io: bool)
    requires Inv(w) && OriginalsApart(w.t.uploads) && u in w.sessions
    ensures OriginalsApart(Step(w, Progress(u, io)).t.uploads)
  {
    hide TablesInv, SessionInv, DuplicateInv, Micro, Effect, OriginalsApart;
    var pc := w.sessions[u];
    var t' := Micro(w.t, u, pc, io).0;
    MicroTables(w.t, u, pc, io);
    EffectKeys(w.t, t', u);
    EffectOthers(w.t, t', u);
    if u in w.t.uploads && pc.Recording? {
      MicroRecords(w.t, u, pc.r, pc.round, pc.approved, io);
      RecordingApart(w.t, u, pc.r, pc.round, pc.approved);
    } else {
      if u in w.t.uploads {
        SoundOf(w.t, u, pc);
        OutcomeStays(w.t, u, pc, io);
      }
      KeptApart(w.t.uploads, t'.uploads);
    }
  }

  lemma OthersApart(w: World, action: Action)
    requires Inv(w) && OriginalsApart(w.t.uploads) && !(action.Progress? && action.upload in w.sessions)
    ensures OriginalsApart(Step(w, action).t.uploads)
  {
    hide TablesInv, SessionInv, DuplicateInv, Step, UploadsKept, OriginalsApart;
    var w' := Step(w, action);
    if action.Abandon? && action.upload in w.sessions {
      AbandonedRows(w, action.upload, action.tear);
    } else {
      OthersKeepRows(w, action);
      GrownOutcomes(w.t, w'.t);
      KeptApart(w.t.uploads, w'.t.uploads);
    }
  }

  lemma GrownOutcomes(t: Tables, t': Tables)
    requires UploadsKept(t, t')
    ensures forall u :: u in t'.uploads ==>
              if u in t.uploads then OutcomeKept(t.uploads[u], t'.uploads[u]) else t'.uploads[u].phase != Committed
  {
  }

  lemma {:induction false} RunApart(actions: seq<Action>)
    requires AdmissibleRun(actions)
    ensures OriginalsApart(Run(actions).t.uploads)
  {
    hide Inv, Step, OriginalsApart;
    if actions == [] {
      assert OriginalsApart(EMPTY.uploads) by { NoOriginals(); }
    } else {
      var earlier, last := actions[..|actions| - 1], actions[|actions| - 1];
      RunKeeps(earlier);
      RunApart(earlier);
      if last.Progress? && last.upload in Run(earlier).sessions {
        ProgressApart(Run(earlier), last.upload, last.io);
      } else {
        OthersApart(Run(earlier), last);
      }
    }
  }

  lemma NoOriginals()
    ensures OriginalsApart(EMPTY.uploads)
  {
  }

  /** Of all committed uploads of one content in an account at most one is not marked as deduplicated:
      the one that stored it. */
  lemma {:induction false} OneOriginal(actions: seq<Action>, u: Id, v: Id)
    requires AdmissibleRun(actions) && u in Run(actions).t.uploads && v in Run(actions).t.uploads && u != v
    requires var uploads := Run(actions).t.uploads;
             && uploads[u].phase == Committed && uploads[v].phase == Committed
             && uploads[u].account == uploads[v].account && uploads[u].manifest.hash == uploads[v].manifest.hash
    ensures Run(actions).t.uploads[u].deduplicated || Run(actions).t.uploads[v].deduplicated
  {
    hide Run, AdmissibleRun, TablesInv, SessionInv, DuplicateInv;
    RunKeeps(actions);
    RunApart(actions);
    ContentIsShared(Run(actions).t, u, v);
  }

  /* ---- Exactly when a completion is refused ---- */

  /** Stored bytes and the reservations of uploads that are not unknown exceed the quota. */
  ghost predicate CommitExceeds(t: Tables, account: Id)
    requires account in t.accounts
  {
    var quota := t.accounts[account].quota;
    quota != 0 && Total(StoredSizes(t, account)) + Total(ReservedSizes(t, account, false)) > quota
  }

  lemma BeginsUnless(t: Tables, u: Id)
    requires TablesInv(t) && u in t.uploads && t.uploads[u].phase == Receiving
    requires t.uploads[u].account in t.accounts && t.accounts[t.uploads[u].account].quota <= MAX_JSON_INTEGER
    ensures var refused := !Stored(t, t.uploads[u].account, t.uploads[u].manifest.hash)
                           && CommitExceeds(t, t.uploads[u].account);
            BeginCommit(t, u) == if refused then (t, BeginNoSpace) else (BeginCommit(t, u).0, Begun)
    ensures BeginCommit(t, u).1 == Begun ==>
              u in BeginCommit(t, u).0.uploads && PreCommit(BeginCommit(t, u).0.uploads[u])
  {
    hide TablesInv, LoadCandidate, Stored, StoredSizes, ReservedSizes, SizesOf, HeldBy, Total;
    StoredIsFound(t, t.uploads[u].account, t.uploads[u].manifest.hash);
    ReservedIs(t, t.uploads[u].account, false);
    StoredIs(t, t.uploads[u].account);
  }

  /** Once a commit has started, a lone completion neither misses parts nor is refused for space. */
  lemma StartedNotRefused(t: Tables, u: Id)
    requires TablesInv(t) && SessionInv(t, u, Reloading) && Alone(t, u, Reloading) && u in t.uploads
    ensures Drive(t, u, Reloading).1 !in {MissingParts, QuotaExceeded, NotFound, Unauthorized}
  {
    hide TablesInv, Alone, Drive;
    assert PreCommit(t.uploads[u]);
    DriveAlone(t, u, Reloading);
    var (t', reply) := Drive(t, u, Reloading);
    SoundOf(t', u, Done(reply));
  }

  /** The refusals of a completion, when nothing else goes on, by what the tables hold. */
  lemma CompletionRefuses(t: Tables, u: Id)
    requires TablesInv(t) && u in t.uploads && Alone(t, u, Loading) && u < t.next
    requires t.uploads[u].account in t.accounts && t.accounts[t.uploads[u].account].quota <= MAX_JSON_INTEGER
    ensures var (t', reply) := Drive(t, u, Loading);
            var upload := t.uploads[u];
            var receiving := upload.phase == Receiving;
            var missing := exists i :: 0 <= i < |upload.manifest.parts| && i !in upload.received;
            var full := !Stored(t, upload.account, upload.manifest.hash) && CommitExceeds(t, upload.account);
            && (reply == MissingParts <==> receiving && missing)
            && (reply == QuotaExceeded <==> receiving && !missing && full)
            && (upload.phase == Failed(true) ==> reply == Overtaken)
            && (upload.phase == Failed(false) ==> reply == FailedCommit)
            && (upload.phase == Unknown ==> reply == NeedsReview)
            && (reply == MissingParts || reply == QuotaExceeded || upload.phase.Failed? || upload.phase == Unknown ==>
                  t' == t)
            && reply !in {NotFound, Unauthorized, Changed, Exhausted, IoError}
  {
    hide TablesInv, Alone, Drive, Stored, CommitExceeds, BeginCommit;
    LoadingSession(t, u);
    DriveAlone(t, u, Loading);
    var (t', reply) := Drive(t, u, Loading);
    SoundOf(t', u, Done(reply));
    ManifestOf(t, u);
    var upload := t.uploads[u];
    if upload.phase == Receiving {
      AgainReceiving(t, u);
      if AllReceived(upload) {
        BeginsUnless(t, u);
        BeginningOn(t, u);
      } else {
        CountingMisses(t, u);
      }
    } else {
      NotRefused(t, u, t', reply);
    }
  }

  lemma CountingMisses(t: Tables, u: Id)
    requires u in t.uploads && SoundManifest(t.uploads[u].manifest) && !AllReceived(t.uploads[u])
    ensures Drive(t, u, Counting) == (t, MissingParts)
  {
    hide Drive, SoundManifest, AllReceived;
    Unfold(t, u, Counting);
    Finished(t, u, MissingParts);
  }

  lemma NotRefused(t: Tables, u: Id, t': Tables, reply: Reply)
    requires u in t.uploads && u in t'.uploads && Evolves(t.uploads[u], t'.uploads[u])
    requires t.uploads[u].phase != Receiving
    requires (t', reply) == Drive(t, u, Loading) && PcSound(t', u, Done(reply))
    ensures reply !in {MissingParts, QuotaExceeded, NotFound, Unauthorized, Changed, Exhausted}
    ensures t.uploads[u].phase == Failed(true) ==> reply == Overtaken && t' == t
    ensures t.uploads[u].phase == Failed(false) ==> reply == FailedCommit && t' == t
    ensures t.uploads[u].phase == Unknown ==> reply == NeedsReview && t' == t
  {
    hide Drive, ReadyCommit;
    if t.uploads[u].phase.Failed? || t.uploads[u].phase == Unknown {
      Unfold(t, u, Loading);
      Finished(t, u, Overtaken);
      Finished(t, u, FailedCommit);
      Finished(t, u, NeedsReview);
    }
  }

  lemma BeginningOn(t: Tables, u: Id)
    requires TablesInv(t) && SessionInv(t, u, Loading) && Alone(t, u, Loading) && u in t.uploads
    requires t.uploads[u].phase == Receiving && AllReceived(t.uploads[u])
    requires BeginCommit(t, u).1 == Begun || BeginCommit(t, u) == (t, BeginNoSpace)
    ensures if BeginCommit(t, u).1 == Begun
            then Drive(t, u, Beginning).1 !in {MissingParts, QuotaExceeded, NotFound, Unauthorized}
            else Drive(t, u, Beginning) == (t, QuotaExceeded)
  {
    hide TablesInv, SessionInv, Alone, Drive, BeginCommit, AllReceived;
    Unfold(t, u, Beginning);
    if BeginCommit(t, u).1 == Begun {
      BeginningSession(t, u);
      MicroTables(t, u, Beginning, true);
      MicroSession(t, u, Beginning, true);
      StepAlone(t, u, Beginning);
      MicroBegins(t, u);
      EffectKeys(t, BeginCommit(t, u).0, u);
      StartedNotRefused(BeginCommit(t, u).0, u);
    } else {
      Finished(t, u, QuotaExceeded);
    }
  }

  lemma BeginningSession(t: Tables, u: Id)
    requires SessionInv(t, u, Loading) && Alone(t, u, Loading) && u in t.uploads
    requires t.uploads[u].phase == Receiving && AllReceived(t.uploads[u])
    ensures SessionInv(t, u, Beginning) && Alone(t, u, Beginning) && Recovery.Answers(t, u, Beginning)
  {
  }
}

/** Whole journeys: from the first request to the stored content, and to a second copy of it. */
module Journey {
  import opened Prelude
  import opened Content
  import opened Durable
  import opened Session
  import opened World
  import opened TableInvariant
  import opened TableProofs
  import opened RequestInvariant
  import opened RequestProofs
  import opened SessionProofs
  import opened ServerProofs
  import opened WorldProofs
  import opened Protocol
  import opened Supersession
  import opened LoneRun
  import opened Recovery
  import opened Completion
  import opened Staging
  import opened Settling
  import opened Delivery
  import opened Quota
  import opened Parts
  import opened Opening
  import opened Administration

  /* ---- Where a lone completion leads ---- */

  /** What holds of an upload while it is completed alone, when `before` are the blob rows at the start:
      its slot points at its blob once it is committed, it is marked as deduplicated exactly if that
      blob was there before, and it has no stage file but the one on record. */
  predicate Landing(t: Tables, u: Id, pc: Pc, before: map<Id, Blob>) {
    && u in t.uploads
    && (t.uploads[u].phase == Receiving || PreCommit(t.uploads[u]) ==> t.blobs == before)
    && (t.uploads[u].phase == Committed ==>
          && t.uploads[u].blob.Some? && PointsAt(t, Slot(t.uploads[u]), t.uploads[u].blob.value)
          && (t.uploads[u].deduplicated <==> t.uploads[u].blob.value in before))
    && OwnStage(t, u, pc)
  }

  predicate OwnStage(t: Tables, u: Id, pc: Pc)
    requires u in t.uploads
  {
    t.uploads[u].phase == Receiving || PreCommit(t.uploads[u]) || t.uploads[u].phase == Committed ==>
      forall k :: k in t.files && k.StageKey? && k.upload == u ==> t.uploads[u].staged == Some(k)
  }

  lemma RecordingLands(t: Tables, u: Id, r: Ready, round: nat, approved: Option<Candidate>, before: map<Id, Blob>)
    requires TablesInv(t) && SessionInv(t, u, Recording(r, round, approved)) && u in t.uploads
    requires Landing(t, u, Recording(r, round, approved), before)
    ensures var (t', pc') := Record(t, u, r, round, approved); Landing(t', u, pc', before)
  {
    hide TablesInv, RowIs, ReadyShape, LoadCandidate, NewerCommitted, RecordMetadata;
    RecordedRow(t, u, r, round, approved);
    MetadataCommits(t, u, r, approved);
    RecordingTouches(t, u, r, approved);
    RowOf(t, u);
    var (t', reply) := RecordMetadata(t, u, r, approved);
    MetadataFiles(t, u, r, approved);
    if reply.Recorded? {
      FlagIsExact(t, u, r, approved);
    }
  }

  lemma MetadataFiles(t: Tables, u: Id, r: Ready, approved: Option<Candidate>)
    requires u in t.uploads
    ensures RecordMetadata(t, u, r, approved).0.files == t.files
    ensures Slot(RecordMetadata(t, u, r, approved).0.uploads[u]) == Slot(t.uploads[u])
  {
    hide LoadCandidate, NewerCommitted, Approved;
    RecordMetadataCases(t, u, r, approved);
    hide RecordMetadata;
  }

  /** A commit is marked as deduplicated exactly if its blob row was there before it. */
  lemma FlagIsExact(t: Tables, u: Id, r: Ready, approved: Option<Candidate>)
    requires TablesInv(t) && u in t.uploads && Proven(t, u, r) && RecordMetadata(t, u, r, approved).1.Recorded?
    ensures var upload := RecordMetadata(t, u, r, approved).0.uploads[u];
            upload.blob.Some? && (upload.deduplicated <==> upload.blob.value in t.blobs)
  {
    hide TablesInv, NewerCommitted, Approved;
    RecordedBlob(t, u, r);
    RowOf(t, u);
    IndexOf(t);
  }

  lemma BeginningLands(t: Tables, u: Id, before: map<Id, Blob>)
    requires SessionInv(t, u, Beginning) && u in t.uploads && Landing(t, u, Beginning, before)
    requires forall k :: k in t.files && k.StageKey? ==> k.upload != u
    ensures Landing(Begin(t, u).0, u, Begin(t, u).1, before)
  {
    hide LoadCandidate, CommitOverQuota, AllReceived;
  }

  lemma UnknownLands(t: Tables, u: Id, pc: Pc, pc': Pc)
    requires u in t.uploads && OwnStage(t, u, pc)
    ensures OwnStage(t, u, pc')
    ensures u in MarkUnknown(t, u).uploads && OwnStage(MarkUnknown(t, u), u, pc')
  {
  }

  lemma ReadingLands(t: Tables, u: Id, pc: Pc)
    requires u in t.uploads && Reads(pc) && OwnStage(t, u, pc)
    ensures var (t', pc') := Micro(t, u, pc, true); u in t'.uploads && OwnStage(t', u, pc')
  {
    hide Micro, OwnStage, MarkUnknown;
    QuietSteps(t, u, pc, true);
    UnknownLands(t, u, pc, Micro(t, u, pc, true).1);
  }

  lemma AssemblingLands(t: Tables, u: Id, pc: Pc)
    requires SessionInv(t, u, pc) && u in t.uploads && OwnStage(t, u, pc) && (pc.OpeningStage? || pc.Writing?)
    ensures var (t', pc') := Micro(t, u, pc, true); u in t'.uploads && OwnStage(t', u, pc')
  {
    hide Holds, Fits;
  }

  /** Rows are marked, or the stage is linked under its final key. */
  lemma RowLands(t: Tables, u: Id, pc: Pc)
    requires SessionInv(t, u, pc) && u in t.uploads && OwnStage(t, u, pc)
    requires pc.Counting? || pc.Failing? || pc.Advancing? || pc.Linking?
    ensures var (t', pc') := Micro(t, u, pc, true); u in t'.uploads && OwnStage(t', u, pc')
  {
    hide AllReceived, SoundManifest, Current;
  }

  /** The stage on record is removed. */
  lemma EndLands(t: Tables, u: Id, pc: Pc)
    requires SessionInv(t, u, pc) && u in t.uploads && OwnStage(t, u, pc) && (pc.Tidying? || pc.Discarding?)
    ensures var (t', pc') := Micro(t, u, pc, true); u in t'.uploads && OwnStage(t', u, pc')
  {
  }

  lemma FilesLand(t: Tables, u: Id, pc: Pc)
    requires SessionInv(t, u, pc) && u in t.uploads && OwnStage(t, u, pc) && !pc.Recording? && !pc.Beginning?
    ensures var (t', pc') := Micro(t, u, pc, true); u in t'.uploads && OwnStage(t', u, pc')
  {
    hide SessionInv, OwnStage, Micro;
    if Reads(pc) {
      ReadingLands(t, u, pc);
    } else if pc.OpeningStage? || pc.Writing? {
      AssemblingLands(t, u, pc);
    } else if pc.Tidying? || pc.Discarding? {
      EndLands(t, u, pc);
    } else {
      RowLands(t, u, pc);
    }
  }

  /** Steps other than the metadata transaction leave a committed upload's outcome. */
  lemma OthersLand(t: Tables, u: Id, pc: Pc, before: map<Id, Blob>)
    requires TablesInv(t) && u in t.uploads && PcSound(t, u, pc) && !pc.Recording? && Landing(t, u, pc, before)
    requires u in Micro(t, u, pc, true).0.uploads && Evolves(t.uploads[u], Micro(t, u, pc, true).0.uploads[u])
    requires OwnStage(Micro(t, u, pc, true).0, u, Micro(t, u, pc, true).1)
    ensures var (t', pc') := Micro(t, u, pc, true); Landing(t', u, pc', before)
  {
    hide TablesInv, PcSound, Micro, OwnStage;
    OnlyRecordingAttaches(t, u, pc, true);
    if t.uploads[u].phase == Committed {
      StaysCommitted(t, u, pc, true);
    }
  }

  lemma MicroLands(t: Tables, u: Id, pc: Pc, before: map<Id, Blob>)
    requires TablesInv(t) && SessionInv(t, u, pc) && Alone(t, u, pc) && Landing(t, u, pc, before)
    ensures var (t', pc') := Micro(t, u, pc, true); Landing(t', u, pc', before)
  {
    hide TablesInv, SessionInv, Micro, Effect, OwnStage, AllReceived, Whole;
    MicroTables(t, u, pc, true);
    EffectKeys(t, Micro(t, u, pc, true).0, u);
    SoundOf(t, u, pc);
    RowOf(t, u);
    MicroEvolves(t, u, pc, true);
    match pc
    case Recording(r, round, approved) =>
      MicroRecords(t, u, r, round, approved, true);
      RecordingLands(t, u, r, round, approved, before);
    case Beginning =>
      MicroBegins(t, u);
      ReceivingAt(t, u);
      BeginningLands(t, u, before);
    case _ =>
      FilesLand(t, u, pc);
      OthersLand(t, u, pc, before);
  }

  lemma MicroBegins(t: Tables, u: Id)
    ensures Micro(t, u, Beginning, true) == Begin(t, u)
  {
    hide Begin;
  }

  lemma ReceivingAt(t: Tables, u: Id)
    requires u in t.uploads && PcSound(t, u, Beginning)
    ensures t.uploads[u].phase == Receiving
  {
  }

  predicate BlobsKept(before: map<Id, Blob>, blobs: map<Id, Blob>) {
    forall b :: b in before ==> b in blobs && blobs[b] == before[b]
  }

  lemma EffectKeepsBlobs(t: Tables, t': Tables, u: Id, before: map<Id, Blob>)
    requires Effect(t, t', u) && BlobsKept(before, t.blobs)
    ensures BlobsKept(before, t'.blobs)
  {
  }

  lemma {:induction false} DriveLands(t: Tables, u: Id, pc: Pc, before: map<Id, Blob>)
    requires TablesInv(t) && SessionInv(t, u, pc) && Alone(t, u, pc) && Answers(t, u, pc) && Shaped(pc)
    requires Landing(t, u, pc, before) && BlobsKept(before, t.blobs)
    ensures var (t', reply) := Drive(t, u, pc);
            Landing(t', u, Done(reply), before) && BlobsKept(before, t'.blobs)
    decreases Major(pc), Minor(pc)
  {
    hide TablesInv, SessionInv, Alone, Answers, Micro, Effect, Landing, BlobsKept;
    if !pc.Done? {
      var (t', pc') := Micro(t, u, pc, true);
      MicroTables(t, u, pc, true);
      MicroSession(t, u, pc, true);
      EffectKeepsBlobs(t, t', u, before);
      StepAlone(t, u, pc);
      MicroLands(t, u, pc, before);
      MicroLowers(t, u, pc, true);
      DriveLands(t', u, pc', before);
    }
  }

  /* ---- Actions and steps ---- */

  function Progressing(u: Id, n: nat): seq<Action> {
    if n == 0 then [] else [Progress(u, true)] + Progressing(u, n - 1)
  }

  lemma OneMore(actions: seq<Action>, action: Action)
    ensures Run(actions + [action]) == Step(Run(actions), action)
    ensures AdmissibleRun(actions + [action]) <==> AdmissibleRun(actions) && Admissible(Run(actions), action)
  {
    hide Step, Admissible;
    assert (actions + [action])[..|actions|] == actions;
  }

  /** A request that goes on without interruption takes the steps of its machine. */
  lemma {:induction false} ProgressIsSteps(actions: seq<Action>, u: Id, n: nat)
    requires u in Run(actions).sessions && Shaped(Run(actions).sessions[u])
    ensures var w := Run(actions);
            var (t', pc') := Steps(w.t, u, w.sessions[u], n);
            Run(actions + Progressing(u, n)) == w.(t := t', sessions := w.sessions[u := pc'])
    decreases n
  {
    hide Run, Micro, Shaped;
    var w := Run(actions);
    if n == 0 {
      assert actions + [] == actions;
      assert w.sessions[u := w.sessions[u]] == w.sessions;
    } else {
      OneMore(actions, Progress(u, true));
      MicroLowers(w.t, u, w.sessions[u], true);
      ProgressIsSteps(actions + [Progress(u, true)], u, n - 1);
      assert actions + Progressing(u, n) == actions + [Progress(u, true)] + Progressing(u, n - 1);
    }
  }

  /** Enough steps lead to the reply. */
  lemma {:induction false} StepsReachReply(t: Tables, u: Id, pc: Pc)
    requires Shaped(pc)
    ensures exists n: nat :: Steps(t, u, pc, n) == (Drive(t, u, pc).0, Done(Drive(t, u, pc).1))
    decreases Major(pc), Minor(pc)
  {
    hide Micro, Shaped;
    if pc.Done? {
      assert Steps(t, u, pc, 0) == (Drive(t, u, pc).0, Done(Drive(t, u, pc).1));
    } else {
      MicroLowers(t, u, pc, true);
      var (t', pc') := Micro(t, u, pc, true);
      StepsReachReply(t', u, pc');
      var n: nat :| Steps(t', u, pc', n) == (Drive(t', u, pc').0, Done(Drive(t', u, pc').1));
      assert Steps(t, u, pc, n + 1) == Steps(t', u, pc', n);
    }
  }

  /** Completing an upload that no other request completes, as actions of the server. */
  lemma CompletingRuns(actions: seq<Action>, u: Id)
    requires u in Run(actions).t.uploads && u !in Run(actions).sessions
    ensures exists n: nat ::
              var w := Run(actions);
              var (t', reply) := Drive(w.t, u, Loading);
              Run(actions + [Action.Complete(u)] + Progressing(u, n))
              == w.(t := t', sessions := w.sessions[u := Done(reply)])
  {
    hide Run, Drive, Steps;
    var w := Run(actions);
    OneMore(actions, Action.Complete(u));
    StepsReachReply(w.t, u, Loading);
    var n: nat :| Steps(w.t, u, Loading, n) == (Drive(w.t, u, Loading).0, Done(Drive(w.t, u, Loading).1));
    ProgressIsSteps(actions + [Action.Complete(u)], u, n);
    var reply := Drive(w.t, u, Loading).1;
    assert w.sessions[u := Loading][u := Done(reply)] == w.sessions[u := Done(reply)];
  }

  /* ---- The first copy ---- */

  function Together(contents: seq<Bytes>): Bytes {
    if contents == [] then [] else Together(contents[..|contents| - 1]) + contents[|contents| - 1]
  }

  lemma {:induction false} MatchingJoin(parts: seq<PartSpec>, contents: seq<Bytes>)
    requires Matching(parts, contents)
    ensures Concatenated(parts) == Together(contents)
  {
    if parts != [] {
      var n := |parts| - 1;
      assert Matching(parts[..n], contents[..n]) by {
        hide Concatenated, Together;
      }
      MatchingJoin(parts[..n], contents[..n]);
    }
  }

  lemma ReservedSame(t: Tables, t': Tables, u: Id, n: nat, account: Id)
    requires u in t.uploads && Receipts(t, t', u, n)
    ensures Charge(t', account) == Charge(t, account)
  {
    hide UpTo;
    assert HeldBy(t'.uploads, account, true) == HeldBy(t.uploads, account, true);
    assert SizesOf(t'.blobs, account) == SizesOf(t.blobs, account);
  }

  lemma OverQuotaGrows(quota: nat, less: nat, more: nat)
    requires less <= more && !OverQuota(quota, more)
    ensures !OverQuota(quota, less)
  {
  }

  /** The upload that was opened, with all its parts sent. */
  predicate Filled(t: Tables, t2: Tables, u: Id, account: Id, slot: ResourceKey, manifest: Manifest) {
    && u !in t.uploads && u in t2.uploads && t2.uploads[u].account == account && Slot(t2.uploads[u]) == slot
    && t2.uploads[u].manifest == manifest && t2.uploads[u].phase == Receiving && AllReceived(t2.uploads[u])
    && (forall v :: v in t2.uploads && v != u ==> t2.uploads[v].rowid < t2.uploads[u].rowid)
    && t2.blobs == t.blobs && t2.content == t.content && t2.resources == t.resources && t2.accounts == t.accounts
  }

  lemma SentIsFilled(
    t: Tables, t1: Tables, t2: Tables, u: Id, account: Id, asset: Id, source: string, manifest: Manifest)
    requires OpenedOnly(t, t1, u, account, asset, source, manifest)
    requires Receipts(t1, t2, u, |manifest.parts|)
    ensures Filled(t, t2, u, account, (asset, source), manifest)
  {
    hide UpTo;
    assert AllReceived(t2.uploads[u]) by {
      forall i | 0 <= i < |manifest.parts| ensures i in t2.uploads[u].received {
        assert i in UpTo(|manifest.parts|);
      }
    }
    forall v | v in t2.uploads && v != u ensures t2.uploads[v].rowid < t2.uploads[u].rowid {
      assert v in t1.uploads - {u} && t2.uploads[v] == t1.uploads[v];
    }
  }

  lemma FilledIsReady(t: Tables, t2: Tables, u: Id, account: Id, slot: ResourceKey, manifest: Manifest)
    requires Filled(t, t2, u, account, slot, manifest) && TablesInv(t2) && Alone(t2, u, Loading) && Coherent(manifest)
    requires LoadCandidate(t, account, manifest.hash).None?
    requires account in t.accounts && !OverQuota(t.accounts[account].quota, Charge(t2, account))
    ensures ReadyToComplete(t2, u)
  {
    hide Alone, AllReceived, Charge, OverQuota, TablesInv;
    Below(t2);
    NoneNewer(t2, u);
    OpenIsLess(t2, account);
    OverQuotaGrows(t.accounts[account].quota, Used(t2, account) + Total(OpenReservations(t2, account)),
                   Charge(t2, account));
    assert BeginCommit(t2, u).1 == Begun by { hide NewerCommitted, Coherent, Used, Total, OpenReservations; }
    FinalKeyHolds(t2, u);
  }

  lemma NoneNewer(t: Tables, u: Id)
    requires u in t.uploads && forall v :: v in t.uploads && v != u ==> t.uploads[v].rowid < t.uploads[u].rowid
    ensures !NewerCommitted(t, u)
  {
  }

  lemma FinalKeyHolds(t: Tables, u: Id)
    requires TablesInv(t) && u in t.uploads && t.uploads[u].account in t.accounts && Coherent(t.uploads[u].manifest)
    ensures FinalKey(t, u) in t.files ==>
              Holds(t.files, FinalKey(t, u), t.uploads[u].manifest.size, t.uploads[u].manifest.hash)
  {
    assert ObjectsIntact(t.files);
    hide TablesInv, Concatenated;
  }

  /** The slot's resource has a blob of the account whose object holds these bytes; the upload is
      committed, not marked as deduplicated, and has left no stage. */
  predicate Landed(t: Tables, u: Id, account: Id, slot: ResourceKey, resource: Id, hash: Blake3, bytes: Bytes) {
    && u in t.uploads && t.uploads[u].phase == Committed && !t.uploads[u].deduplicated
    && slot in t.resources && t.resources[slot].id == resource && t.resources[slot].blob in t.blobs
    && (var blob := t.blobs[t.resources[slot].blob];
        && blob.account == account && blob.hash == hash && blob.size == |bytes|
        && blob.key in t.files && t.files[blob.key] == bytes)
    && (forall k :: k in t.files && k.StageKey? ==> k.upload != u)
  }

  lemma ReadyLands(t: Tables, u: Id, slot: ResourceKey)
    requires ReadyToComplete(t, u) && StagesStarted(t) && Coherent(t.uploads[u].manifest) && Slot(t.uploads[u]) == slot
    requires LoadCandidate(t, t.uploads[u].account, t.uploads[u].manifest.hash).None?
    ensures var (t', reply) := Drive(t, u, Loading);
            && reply.Ok? && reply.asset == slot.0 && !reply.deduplicated
            && Landed(t', u, t.uploads[u].account, slot, reply.resource, t.uploads[u].manifest.hash,
                      Concatenated(t.uploads[u].manifest.parts))
  {
    hide Drive, TablesInv, AllReceived, Whole, Concatenated, LoadCandidate, Alone, NewerCommitted, StagesStarted,
         BeginCommit, Settled;
    var upload := t.uploads[u];
    ReadyLoading(t, u);
    assert Landing(t, u, Loading, t.blobs) by { StartsLanding(t, u); }
    hide Landing;
    WholeIsConcatenated(t, u);
    CompletionResult(t, u);
    DriveAlone(t, u, Loading);
    DriveLands(t, u, Loading, t.blobs);
    CompletionSettles(t, u);
    LandingEnds(t, u, Drive(t, u, Loading).0, Drive(t, u, Loading).1);
  }

  lemma StartsLanding(t: Tables, u: Id)
    requires u in t.uploads && t.uploads[u].phase == Receiving && StagesStarted(t)
    ensures Landing(t, u, Loading, t.blobs)
  {
  }

  lemma LandingEnds(t: Tables, u: Id, t': Tables, reply: Reply)
    requires TablesInv(t) && u in t.uploads && LoadCandidate(t, t.uploads[u].account, t.uploads[u].manifest.hash).None?
    requires TablesInv(t') && SessionInv(t', u, Done(reply)) && reply.Ok?
    requires Landing(t', u, Done(reply), t.blobs) && BlobsKept(t.blobs, t'.blobs)
    requires Settled(t'.uploads[u]) && Evolves(t.uploads[u], t'.uploads[u])
    ensures reply.asset == t.uploads[u].asset && !reply.deduplicated
    ensures forall bytes :: Fits(bytes, t.uploads[u].manifest.size, t.uploads[u].manifest.hash) ==>
              Landed(t', u, t.uploads[u].account, Slot(t.uploads[u]), reply.resource, t.uploads[u].manifest.hash, bytes)
  {
    hide TablesInv;
    RowOf(t', u);
    IndexOf(t);
    StoredIsFound(t, t.uploads[u].account, t.uploads[u].manifest.hash);
  }

  lemma OpenedCharged(t: Tables, account: Id, asset: Option<Id>, source: string, manifest: Manifest, maxPart: nat)
    requires TablesInv(t) && OpenUpload(t, account, asset, source, manifest, maxPart).1.Opened?
    ensures var t' := OpenUpload(t, account, asset, source, manifest, maxPart).0;
            account in t.accounts && !OverQuota(t.accounts[account].quota, Charge(t', account))
    ensures LoadCandidate(t, account, manifest.hash).None? && ValidManifest(manifest, maxPart)
  {
    hide TablesInv, Charge, OverQuota, AssetRow, UpsertAsset, ActiveTwin;
    Below(t);
    OpenedCharge(t, account, asset, source, manifest, maxPart, account);
  }

  lemma OpenedIsOnly(t: Tables, account: Id, asset: Option<Id>, source: string, manifest: Manifest, maxPart: nat)
    requires TablesInv(t) && OpenUpload(t, account, asset, source, manifest, maxPart).1.Opened?
    ensures var (t', reply) := OpenUpload(t, account, asset, source, manifest, maxPart);
            OpenedOnly(t, t', reply.upload, account, AssetRow(t, account, asset), source, manifest)
  {
    hide TablesInv, Charge, OverQuota, AssetRow, UpsertAsset, ActiveTwin, OpenUpload, OpenedOnly, ValidManifest;
    Below(t);
    OpenedCharged(t, account, asset, source, manifest, maxPart);
    OpensOnly(t, account, asset, source, manifest, maxPart);
  }

  lemma OpeningRun(
    actions: seq<Action>, account: Id, asset: Option<Id>, source: string, manifest: Manifest, maxPart: nat)
    requires AdmissibleRun(actions)
    requires OpenUpload(Run(actions).t, account, asset, source, manifest, maxPart).1.Opened?
    ensures var run := actions + [Open(account, asset, source, manifest, maxPart)];
            var (t', reply) := OpenUpload(Run(actions).t, account, asset, source, manifest, maxPart);
            && AdmissibleRun(run) && Run(run) == Run(actions).(t := t') && reply.upload !in Run(actions).sessions
            && reply.upload in t'.uploads && t'.uploads[reply.upload].manifest == manifest
  {
    hide Run, AdmissibleRun, TablesInv, SessionInv, DuplicateInv, OpenUpload, AssetRow;
    var w := Run(actions);
    OneMore(actions, Open(account, asset, source, manifest, maxPart));
    RunKeeps(actions);
    OpenedIsOnly(w.t, account, asset, source, manifest, maxPart);
    var u := OpenUpload(w.t, account, asset, source, manifest, maxPart).1.upload;
    OpenedId(w.t, account, asset, source, manifest, maxPart);
    if u in w.sessions {
      BelowNext(w.t, u, w.sessions[u]);
    }
  }

  lemma OpenedId(t: Tables, account: Id, asset: Option<Id>, source: string, manifest: Manifest, maxPart: nat)
    requires OpenUpload(t, account, asset, source, manifest, maxPart).1.Opened?
    ensures OpenUpload(t, account, asset, source, manifest, maxPart).1.upload >= t.next
  {
    hide OverQuota, ActiveTwin, ValidManifest, LoadCandidate, AssetRow, UpsertAsset, Charge;
    UpsertAssetOnly(t, account, asset);
  }

  /** Create the upload, send its parts one after the other, complete it. */
  function Uploading(open: Action, u: Id, contents: seq<Bytes>): seq<Action> {
    [open] + Sending(u, contents, |contents|)
  }

  lemma UploadedIsReady(
    actions: seq<Action>, account: Id, asset: Option<Id>, source: string, manifest: Manifest, maxPart: nat,
    contents: seq<Bytes>)
    requires AdmissibleRun(actions)
    requires OpenUpload(Run(actions).t, account, asset, source, manifest, maxPart).1.Opened?
    requires Matching(manifest.parts, contents) && Fits(Together(contents), manifest.size, manifest.hash)
    ensures var t := Run(actions).t;
            var u := OpenUpload(t, account, asset, source, manifest, maxPart).1.upload;
            var w := Run(actions + Uploading(Open(account, asset, source, manifest, maxPart), u, contents));
            && w.sessions == Run(actions).sessions && u !in w.sessions && ReadyToComplete(w.t, u)
            && StagesStarted(w.t) && w.t.uploads[u].account == account && w.t.uploads[u].manifest == manifest
            && Slot(w.t.uploads[u]) == (AssetRow(t, account, asset), source)
            && LoadCandidate(w.t, account, manifest.hash).None?
  {
    hide Run, AdmissibleRun, TablesInv, SessionInv, DuplicateInv, OpenUpload, AssetRow, Fits, Receipts, OpenedOnly,
         Filled, Alone, ReadyToComplete, StagesStarted, Charge, OverQuota, Together, Concatenated, StagedAt, Staged;
    var t := Run(actions).t;
    RunKeeps(actions);
    OpeningRun(actions, account, asset, source, manifest, maxPart);
    var begun := actions + [Open(account, asset, source, manifest, maxPart)];
    var (t1, reply) := OpenUpload(t, account, asset, source, manifest, maxPart);
    var u := reply.upload;
    SendingReceives(begun, u, contents, |contents|);
    var sent := begun + Sending(u, contents, |contents|);
    assert actions + Uploading(Open(account, asset, source, manifest, maxPart), u, contents) == sent;
    var t2 := Run(sent).t;
    RunKeeps(sent);
    StagesArePrefixes(sent);
    OpenedIsOnly(t, account, asset, source, manifest, maxPart);
    OpenedCharged(t, account, asset, source, manifest, maxPart);
    SentIsFilled(t, t1, t2, u, account, AssetRow(t, account, asset), source, manifest);
    assert u in t2.uploads by { FilledRow(t, t2, u, account, (AssetRow(t, account, asset), source), manifest); }
    ReachableIsAlone(Run(sent), u);
    ReservedSame(t1, t2, u, |contents|, account);
    MatchingJoin(manifest.parts, contents);
    FilledIsReady(t, t2, u, account, (AssetRow(t, account, asset), source), manifest);
    FilledRow(t, t2, u, account, (AssetRow(t, account, asset), source), manifest);
  }

  lemma FilledRow(t: Tables, t2: Tables, u: Id, account: Id, slot: ResourceKey, manifest: Manifest)
    requires Filled(t, t2, u, account, slot, manifest)
    ensures u in t2.uploads && t2.uploads[u].account == account && Slot(t2.uploads[u]) == slot
    ensures t2.uploads[u].manifest == manifest && t2.blobs == t.blobs && t2.content == t.content
    ensures LoadCandidate(t2, account, manifest.hash) == LoadCandidate(t, account, manifest.hash)
  {
  }

  /** From every reachable state: when a client creates an upload, sends its parts and completes it, with
      nothing else in between, and what it sends is what it declared, the upload is committed; the slot's
      resource has a new blob whose object holds exactly the bytes that were sent. */
  lemma UploadIsDelivered(
    actions: seq<Action>, account: Id, asset: Option<Id>, source: string, manifest: Manifest, maxPart: nat,
    contents: seq<Bytes>)
    requires AdmissibleRun(actions)
    requires OpenUpload(Run(actions).t, account, asset, source, manifest, maxPart).1.Opened?
    requires Matching(manifest.parts, contents) && Fits(Together(contents), manifest.size, manifest.hash)
    ensures var t := Run(actions).t;
            var u := OpenUpload(t, account, asset, source, manifest, maxPart).1.upload;
            var slot := (AssetRow(t, account, asset), source);
            var sent := actions + Uploading(Open(account, asset, source, manifest, maxPart), u, contents);
            exists n: nat, resource: Id ::
              var w := Run(sent + [Action.Complete(u)] + Progressing(u, n));
              && u in w.sessions && w.sessions[u] == Done(Ok(resource, slot.0, false))
              && Landed(w.t, u, account, slot, resource, manifest.hash, Together(contents))
  {
    hide Run, AdmissibleRun, OpenUpload, AssetRow, Fits, ReadyToComplete, StagesStarted, Together, Concatenated,
         Drive, Landed, Matching, LoadCandidate;
    var t := Run(actions).t;
    var u := OpenUpload(t, account, asset, source, manifest, maxPart).1.upload;
    var slot := (AssetRow(t, account, asset), source);
    var sent := actions + Uploading(Open(account, asset, source, manifest, maxPart), u, contents);
    UploadedIsReady(actions, account, asset, source, manifest, maxPart, contents);
    MatchingJoin(manifest.parts, contents);
    assert u in Run(sent).t.uploads by { ReadyLoading(Run(sent).t, u); }
    ReadyLands(Run(sent).t, u, slot);
    CompletingRuns(sent, u);
    var (t', reply) := Drive(Run(sent).t, u, Loading);
    var n: nat :| Run(sent + [Action.Complete(u)] + Progressing(u, n))
                  == Run(sent).(t := t', sessions := Run(sent).sessions[u := Done(reply)]);
    var w := Run(sent + [Action.Complete(u)] + Progressing(u, n));
    assert w.sessions[u] == Done(Ok(reply.resource, slot.0, false));
    assert Landed(w.t, u, account, slot, reply.resource, manifest.hash, Together(contents));
  }

  /* ---- A second copy ---- */

  /** When the content is stored, a second request for it ends with a resource of its own that has the
      same blob, and nothing is sent; if its object is missing or has another size, nothing happens. */
  lemma CopyIsAttached(
    actions: seq<Action>, account: Id, asset: Option<Id>, source: string, manifest: Manifest, maxPart: nat)
    requires AdmissibleRun(actions)
    requires OpenUpload(Run(actions).t, account, asset, source, manifest, maxPart).1.Duplicate?
    ensures var w := Run(actions);
            var reply := OpenUpload(w.t, account, asset, source, manifest, maxPart).1;
            var open := Open(account, asset, source, manifest, maxPart);
            var t' := Run(actions + [open, CheckDuplicate(w.t.next), Action.AttachDuplicate(w.t.next)]).t;
            var slot := (AssetRow(w.t.(next := w.t.next + 1), account, asset), source);
            if reply.row.size == manifest.size && Holds(w.t.files, reply.row.key, manifest.size, manifest.hash) then
              && slot in t'.resources && t'.resources[slot].blob == reply.blob
              && (slot in w.t.resources ==> t'.resources[slot].id == w.t.resources[slot].id)
              && t'.resources - {slot} == w.t.resources - {slot}
              && t'.blobs == w.t.blobs && t'.uploads == w.t.uploads && t'.files == w.t.files
            else t' == w.t.(next := w.t.next + 1)
  {
    hide Run, AdmissibleRun, TablesInv, SessionInv, DuplicateInv, AssetRow, Holds, Durable.AttachDuplicate, OpenUpload;
    var w := Run(actions);
    RunKeeps(actions);
    var open := Open(account, asset, source, manifest, maxPart);
    var reply := OpenUpload(w.t, account, asset, source, manifest, maxPart).1;
    OneMore(actions, open);
    TwoMore(actions + [open], CheckDuplicate(w.t.next), Action.AttachDuplicate(w.t.next));
    assert actions + [open, CheckDuplicate(w.t.next), Action.AttachDuplicate(w.t.next)]
           == actions + [open] + [CheckDuplicate(w.t.next), Action.AttachDuplicate(w.t.next)];
    FoundStored(w.t, account, asset, source, manifest, maxPart);
    var w1 := Step(w, open);
    ChecksThenAttaches(w1, w.t.next);
    AttachesIff(w1.t, asset, source, reply.blob, reply.row);
  }

  lemma FoundStored(t: Tables, account: Id, asset: Option<Id>, source: string, manifest: Manifest, maxPart: nat)
    requires TablesInv(t) && OpenUpload(t, account, asset, source, manifest, maxPart).1.Duplicate?
    ensures var (t', reply) := OpenUpload(t, account, asset, source, manifest, maxPart);
            t' == t && reply.blob in t.blobs && t.blobs[reply.blob] == reply.row && reply.row.account == account
  {
    hide TablesInv;
    OpenReplies(t, account, asset, source, manifest, maxPart);
    StoredIsFound(t, account, manifest.hash);
    hide AssetRow, UpsertAsset, ActiveTwin, OverQuota, ValidManifest, Charge;
  }

  /** A deduplicating request that nothing comes between. */
  lemma ChecksThenAttaches(w: World, d: Id)
    requires d in w.duplicates && !w.duplicates[d].checked
    ensures var t' := Step(Step(w, CheckDuplicate(d)), Action.AttachDuplicate(d)).t;
            var r := w.duplicates[d];
            t' == if r.row.size == r.manifest.size && Holds(w.t.files, r.row.key, r.manifest.size, r.manifest.hash)
                  then Durable.AttachDuplicate(w.t, r.asset, r.source, r.blob, r.row).0 else w.t
  {
    hide Durable.AttachDuplicate, Holds;
  }
}

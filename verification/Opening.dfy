/** Creating uploads: when the answer is a stored blob, an upload under way, a refusal or a new upload,
    and what a second request for the same content finds. */
module Opening {
  import opened Prelude
  import opened Content
  import opened Durable
  import opened Session
  import opened World
  import opened TableInvariant
  import opened TableProofs
  import opened RequestInvariant
  import opened RequestProofs
  import opened ServerProofs
  import opened WorldProofs
  import opened Protocol
  import opened Supersession

  /* ---- The answers ---- */

  /** The asset a request resolves to: the caller's own, or a new one. */
  lemma ResolvedAsset(t: Tables, account: Id, asset: Option<Id>)
    requires forall a :: a in t.assets ==> a < t.next
    ensures var row := AssetRow(t, account, asset);
            var t' := UpsertAsset(t, account, asset);
            && row in t'.assets && t'.assets[row].account == account
            && (forall a :: a in t'.assets && a !in t.assets ==> a == row && t'.assets[a] == Asset(account, false))
            && (forall a :: a in t.assets ==> a in t'.assets && t'.assets[a] == t.assets[a])
            && (asset.Some? && asset.value in t.assets && t.assets[asset.value].account == account ==>
                  row == asset.value && t' == t)
            && (!(asset.Some? && asset.value in t.assets && t.assets[asset.value].account == account) ==>
                  row !in t.assets)
  {
  }

  /** Some blob of the account has the content. */
  predicate Stored(t: Tables, account: Id, hash: Blake3) {
    exists b :: b in t.blobs && t.blobs[b].account == account && t.blobs[b].hash == hash
  }

  lemma StoredIsFound(t: Tables, account: Id, hash: Blake3)
    requires TablesInv(t)
    ensures Stored(t, account, hash) <==> LoadCandidate(t, account, hash).Some?
    ensures LoadCandidate(t, account, hash).Some? ==>
              var b := t.content[(account, hash)];
              b in t.blobs && t.blobs[b].account == account && t.blobs[b].hash == hash
  {
    hide UploadsSound, AllApart, Safe, ResourcesOwned, ObjectsIntact, PathsApart, BlobsPlaced;
    if b :| b in t.blobs && t.blobs[b].account == account && t.blobs[b].hash == hash {
      assert (t.blobs[b].account, t.blobs[b].hash) in t.content;
    }
  }

  /** An upload of the slot with this content is under way. */
  predicate UnderWay(t: Tables, u: Id, account: Id, slot: ResourceKey, hash: Blake3) {
    && u in t.uploads && t.uploads[u].account == account && Slot(t.uploads[u]) == slot
    && t.uploads[u].manifest.hash == hash && t.uploads[u].row == Uploading
    && (t.uploads[u].phase == Receiving || t.uploads[u].phase == CommitStarted || t.uploads[u].phase == Finalizing)
  }

  ghost function StoredSizes(t: Tables, account: Id): map<Id, nat> {
    map b | b in t.blobs && t.blobs[b].account == account :: t.blobs[b].size
  }

  /** The upload is under way, or in an unknown state if those count. */
  predicate Reserves(upload: Upload, unknown: bool) {
    && upload.row == Uploading
    && (|| upload.phase == Receiving || upload.phase == CommitStarted || upload.phase == Finalizing
        || (unknown && upload.phase == Unknown))
  }

  /** The declared sizes of such uploads of an account. */
  ghost function ReservedSizes(t: Tables, account: Id, unknown: bool): map<Id, nat> {
    map u | u in t.uploads && t.uploads[u].account == account && Reserves(t.uploads[u], unknown)
      :: t.uploads[u].manifest.size
  }

  /** Stored, reserved and requested bytes exceed the quota; 0 means no limit. */
  ghost predicate Exceeds(t: Tables, account: Id, requested: nat)
    requires account in t.accounts
  {
    var quota := t.accounts[account].quota;
    quota != 0 && Total(StoredSizes(t, account)) + Total(ReservedSizes(t, account, true)) + requested > quota
  }

  lemma StoredIs(t: Tables, account: Id)
    ensures StoredSizes(t, account) == SizesOf(t.blobs, account)
  {
  }

  lemma ReservedIs(t: Tables, account: Id, unknown: bool)
    requires TablesInv(t)
    ensures ReservedSizes(t, account, unknown) == HeldBy(t.uploads, account, unknown)
  {
    hide TablesInv, PartSizes, Reserves, Reserving;
    forall u | u in t.uploads
      ensures t.uploads[u].manifest.size == PartSizes(t.uploads[u].manifest.parts)
      ensures Reserves(t.uploads[u], unknown)
              <==> Reserving(t.uploads[u]) && (unknown || t.uploads[u].phase != Unknown)
    {
      SizeDeclared(t, u);
      ReservesIff(t.uploads[u], unknown);
    }
  }

  lemma ReservesIff(upload: Upload, unknown: bool)
    ensures Reserves(upload, unknown) <==> Reserving(upload) && (unknown || upload.phase != Unknown)
  {
  }

  lemma SizeDeclared(t: Tables, u: Id)
    requires TablesInv(t) && u in t.uploads
    ensures t.uploads[u].manifest.size == PartSizes(t.uploads[u].manifest.parts)
  {
    hide TablesInv;
    RowOf(t, u);
  }

  /** The new upload and nothing else. */
  ghost predicate OpenedOnly(
    t: Tables, t': Tables, u: Id, account: Id, asset: Id, source: string, manifest: Manifest)
  {
    && u !in t.uploads && u in t'.uploads && t'.uploads - {u} == t.uploads
    && t'.uploads[u].account == account && Slot(t'.uploads[u]) == (asset, source)
    && t'.uploads[u].manifest == manifest && t'.uploads[u].received == {}
    && t'.uploads[u].row == Uploading && t'.uploads[u].phase == Receiving
    && t'.uploads[u].blob.None? && t'.uploads[u].staged.None? && t'.uploads[u].resource.None?
    && (forall v :: v in t.uploads ==> t.uploads[v].rowid < t'.uploads[u].rowid)
    && t' == t.(assets := t'.assets, uploads := t'.uploads, next := t'.next)
  }

  lemma Exceeding(t: Tables, t': Tables, account: Id, requested: nat)
    requires TablesInv(t) && account in t.accounts && t.accounts[account].quota <= MAX_JSON_INTEGER
    requires t'.blobs == t.blobs && t'.uploads == t.uploads
    ensures OverQuota(t.accounts[account].quota, Charge(t', account) + requested) <==> Exceeds(t, account, requested)
  {
    hide TablesInv, Total, StoredSizes, ReservedSizes, SizesOf, HeldBy;
    SameCharge(t, t', account);
    StoredIs(t, account);
    ReservedIs(t, account, true);
  }

  lemma UnderWayIs(t: Tables, t': Tables, account: Id, slot: ResourceKey, hash: Blake3)
    requires t'.uploads == t.uploads
    ensures ActiveTwin(t', account, slot, hash) <==> exists u :: UnderWay(t, u, account, slot, hash)
  {
    if u :| UnderWay(t, u, account, slot, hash) {
      assert t'.uploads[u].phase in {Receiving, CommitStarted, Finalizing};
    }
    if ActiveTwin(t', account, slot, hash) {
      var u :| u in t'.uploads && t'.uploads[u].account == account && Slot(t'.uploads[u]) == slot
               && t'.uploads[u].manifest.hash == hash && t'.uploads[u].row == Uploading
               && t'.uploads[u].phase in {Receiving, CommitStarted, Finalizing};
      assert UnderWay(t, u, account, slot, hash);
    }
  }

  lemma UnderWayStays(t: Tables, t': Tables, u: Id, account: Id, slot: ResourceKey, hash: Blake3)
    requires t'.uploads == t.uploads
    ensures UnderWay(t', u, account, slot, hash) == UnderWay(t, u, account, slot, hash)
  {
  }

  /** The list is the upload's parts that are not received, in ascending order. */
  ghost predicate MissingAre(upload: Upload, missing: seq<nat>) {
    && (forall i: nat :: i in missing <==> i < |upload.manifest.parts| && i !in upload.received)
    && (forall i, j :: 0 <= i < j < |missing| ==> missing[i] < missing[j])
  }

  /** The answer to a valid request for an account that exists, by what the tables hold. */
  lemma OpenAnswers(t: Tables, account: Id, asset: Option<Id>, source: string, manifest: Manifest, maxPart: nat)
    requires TablesInv(t) && ValidManifest(manifest, maxPart)
    requires account in t.accounts && t.accounts[account].quota <= MAX_JSON_INTEGER
    ensures var (t', reply) := OpenUpload(t, account, asset, source, manifest, maxPart);
            var row := AssetRow(t, account, asset);
            var active := exists u :: UnderWay(t, u, account, (row, source), manifest.hash);
            && (reply.Duplicate? <==> Stored(t, account, manifest.hash))
            && (reply.Duplicate? ==>
                  && t' == t && reply.blob in t.blobs && t.blobs[reply.blob] == reply.row
                  && reply.row.account == account && reply.row.hash == manifest.hash)
            && (reply.Resumed? <==> !Stored(t, account, manifest.hash) && active)
            && (reply.Resumed? ==> t' == UpsertAsset(t, account, asset))
            && (reply.BadManifest? <==>
                  !Stored(t, account, manifest.hash) && !active && manifest.size > I64_MAX)
            && (reply.NoSpace? <==>
                  && !Stored(t, account, manifest.hash) && !active && manifest.size <= I64_MAX
                  && Exceeds(t, account, manifest.size))
            && (reply.Opened? <==>
                  && !Stored(t, account, manifest.hash) && !active && manifest.size <= I64_MAX
                  && !Exceeds(t, account, manifest.size))
            && (reply.Opened? ==>
                  && OpenedOnly(t, t', reply.upload, account, row, source, manifest)
                  && t'.assets == UpsertAsset(t, account, asset).assets)
            && (reply.BadManifest? || reply.NoSpace? ==> t' == t)
  {
    hide TablesInv, Stored, UpsertAsset, AssetRow, ActiveTwin, UnderWay, OverQuota, Charge, ValidManifest, Exceeds,
         LoadCandidate;
    StoredIsFound(t, account, manifest.hash);
    UpsertAssetOnly(t, account, asset);
    var t1 := UpsertAsset(t, account, asset);
    var slot := (AssetRow(t, account, asset), source);
    UnderWayIs(t, t1, account, slot, manifest.hash);
    assert PartSizes(manifest.parts) == manifest.size by { SizesAdd(manifest, maxPart); }
    Exceeding(t, t1, account, manifest.size);
    Below(t);
    if LoadCandidate(t, account, manifest.hash).None? {
      OpensOnly(t, account, asset, source, manifest, maxPart);
    } else {
      FindsStored(t, account, asset, source, manifest, maxPart);
    }
  }

  /** A request is turned down for its manifest exactly if there is no part, a part is larger than the
      limit or is empty although the content is not, or the sizes do not add up to a 64-bit number; an
      unknown account comes next. A manifest beyond 63 bits is turned down last, if it has to be stored. */
  lemma BadManifestIff(
    t: Tables, account: Id, asset: Option<Id>, source: string, manifest: Manifest, maxPart: nat)
    ensures var (t', reply) := OpenUpload(t, account, asset, source, manifest, maxPart);
            var bad := || |manifest.parts| == 0 || PartSizes(manifest.parts) != manifest.size
                       || manifest.size >= 0x1_0000_0000_0000_0000
                       || (exists p :: p in manifest.parts && p.size > maxPart)
                       || (exists p :: p in manifest.parts && p.size == 0 && manifest.size > 0);
            && (bad ==> reply.BadManifest? && t' == t)
            && (reply.BadManifest? && !bad ==> manifest.size >= 0x8000_0000_0000_0000)
            && (reply.NoAccount? <==> !bad && account !in t.accounts) && (reply.NoAccount? ==> t' == t)
  {
    hide UpsertAsset, AssetRow, ActiveTwin, OverQuota, Charge, LoadCandidate, PartSizes;
    if p :| p in manifest.parts && (p.size > maxPart || (p.size == 0 && manifest.size > 0)) {
      var i :| 0 <= i < |manifest.parts| && manifest.parts[i] == p;
      assert !ValidManifest(manifest, maxPart);
    }
    if i :| 0 <= i < |manifest.parts|
            && (manifest.parts[i].size > maxPart || (manifest.parts[i].size == 0 && manifest.size > 0))
    {
      assert manifest.parts[i] in manifest.parts;
    }
  }

  lemma SizesAdd(manifest: Manifest, maxPart: nat)
    requires ValidManifest(manifest, maxPart)
    ensures PartSizes(manifest.parts) == manifest.size
  {
  }

  lemma FindsStored(t: Tables, account: Id, asset: Option<Id>, source: string, manifest: Manifest, maxPart: nat)
    requires ValidManifest(manifest, maxPart) && account in t.accounts
    requires LoadCandidate(t, account, manifest.hash).Some?
    ensures var (t', reply) := OpenUpload(t, account, asset, source, manifest, maxPart);
            && t' == t && reply.Duplicate? && reply.blob == t.content[(account, manifest.hash)]
            && reply.blob in t.blobs && t.blobs[reply.blob] == reply.row
  {
    hide ValidManifest, UpsertAsset, AssetRow, ActiveTwin, OverQuota, Charge;
  }

  lemma OpensOnly(t: Tables, account: Id, asset: Option<Id>, source: string, manifest: Manifest, maxPart: nat)
    requires ValidManifest(manifest, maxPart) && account in t.accounts
    requires LoadCandidate(t, account, manifest.hash).None? && forall u :: u in t.uploads ==> u < t.next
    ensures var (t', reply) := OpenUpload(t, account, asset, source, manifest, maxPart);
            var t1 := UpsertAsset(t, account, asset);
            var active := ActiveTwin(t1, account, (AssetRow(t, account, asset), source), manifest.hash);
            var over := OverQuota(t.accounts[account].quota, Charge(t1, account) + PartSizes(manifest.parts));
            && (reply.Resumed? <==> active)
            && (reply.BadManifest? <==> !active && manifest.size > I64_MAX)
            && (reply.NoSpace? <==> !active && manifest.size <= I64_MAX && over)
            && (reply.Opened? <==> !active && manifest.size <= I64_MAX && !over)
            && !reply.Duplicate? && !reply.NoAccount?
            && (reply.Resumed? ==> t' == t1)
            && (reply.Opened? ==>
                  && OpenedOnly(t, t', reply.upload, account, AssetRow(t, account, asset), source, manifest)
                  && t'.assets == t1.assets)
            && (reply.BadManifest? || reply.NoSpace? ==> t' == t)
  {
    hide ValidManifest, AssetRow, UpsertAsset, ActiveTwin, OverQuota, Charge;
    UpsertAssetOnly(t, account, asset);
    var t1 := UpsertAsset(t, account, asset);
    var row := NewUpload(account, AssetRow(t, account, asset), source, NextRow(t1), manifest);
    assert t1.next !in t.uploads;
    assert t1.uploads[t1.next := row] - {t1.next} == t1.uploads;
  }

  /* ---- Asking again ---- */

  /** A second request for an upload under way resumes it, or finds its content stored; for a committed
      one it finds the blob the upload has. */
  lemma AskingAgain(t: Tables, u: Id, maxPart: nat)
    requires TablesInv(t) && u in t.uploads && ValidManifest(t.uploads[u].manifest, maxPart)
    requires t.uploads[u].account in t.accounts && t.accounts[t.uploads[u].account].quota <= MAX_JSON_INTEGER
    ensures var upload := t.uploads[u];
            var asset := Some(upload.asset);
            var (t', reply) := OpenUpload(t, upload.account, asset, upload.source, upload.manifest, maxPart);
            && (upload.phase == Receiving || PreCommit(upload) ==> (reply.Resumed? || reply.Duplicate?) && t' == t)
            && (upload.phase == Committed ==> reply.Duplicate? && Some(reply.blob) == upload.blob)
  {
    hide TablesInv, OpenUpload, ValidManifest, Exceeds;
    var upload := t.uploads[u];
    RowOf(t, u);
    Below(t);
    IndexOf(t);
    ResolvedAsset(t, upload.account, Some(upload.asset));
    OpenAnswers(t, upload.account, Some(upload.asset), upload.source, upload.manifest, maxPart);
    if upload.phase == Receiving || PreCommit(upload) {
      assert UnderWay(t, u, upload.account, (upload.asset, upload.source), upload.manifest.hash);
    }
    if upload.phase == Committed {
      assert t.blobs[upload.blob.value].hash == upload.manifest.hash;
    }
  }

  /* ---- At most one upload is under way ---- */

  predicate Active(upload: Upload) {
    upload.row == Uploading && (upload.phase == Receiving || PreCommit(upload))
  }

  predicate Twins(one: Upload, two: Upload) {
    one.account == two.account && Slot(one) == Slot(two) && one.manifest.hash == two.manifest.hash
  }

  predicate OneActive(uploads: map<Id, Upload>) {
    forall u, v :: u in uploads && v in uploads && u != v && Active(uploads[u]) && Active(uploads[v]) ==>
      !Twins(uploads[u], uploads[v])
  }

  lemma ActiveBefore(t: Tables, t': Tables, u: Id)
    requires TablesInv(t) && u in t.uploads && u in t'.uploads && Evolves(t.uploads[u], t'.uploads[u])
    requires Active(t'.uploads[u])
    ensures Active(t.uploads[u])
  {
    hide TablesInv;
    RowOf(t, u);
  }

  lemma OpensNoTwin(t: Tables, account: Id, asset: Option<Id>, source: string, manifest: Manifest, maxPart: nat, v: Id)
    requires forall u :: u in t.uploads ==> u < t.next
    requires v in OpenUpload(t, account, asset, source, manifest, maxPart).0.uploads && v !in t.uploads
    ensures var uploads := OpenUpload(t, account, asset, source, manifest, maxPart).0.uploads;
            forall u :: u in uploads && u != v ==>
              u in t.uploads && uploads[u] == t.uploads[u] && !(Active(uploads[u]) && Twins(uploads[u], uploads[v]))
  {
    hide AssetRow, UpsertAsset, OverQuota, ValidManifest, Charge, LoadCandidate;
    UpsertAssetOnly(t, account, asset);
  }

  lemma StepOneActive(w: World, action: Action)
    requires Inv(w) && OneActive(w.t.uploads)
    ensures OneActive(Step(w, action).t.uploads)
  {
    hide TablesInv, SessionInv, DuplicateInv, Step, Evolves, OpenUpload;
    var t' := Step(w, action).t;
    Below(w.t);
    forall u, v | u in t'.uploads && v in t'.uploads && Active(t'.uploads[u]) && Active(t'.uploads[v])
                  && Twins(t'.uploads[u], t'.uploads[v])
      ensures u == v
    {
      if u in w.t.uploads && v in w.t.uploads {
        StepEvolves(w, action, u);
        StepEvolves(w, action, v);
        ActiveBefore(w.t, t', u);
        ActiveBefore(w.t, t', v);
        TwinsBefore(w.t.uploads[u], t'.uploads[u], w.t.uploads[v], t'.uploads[v]);
      } else {
        var latest := if u in w.t.uploads then v else u;
        StepOpens(w, action, latest);
        StepIsOpen(w, action);
        OpensNoTwin(w.t, action.account, action.asset, action.source, action.manifest, action.maxPart, latest);
      }
    }
  }

  lemma TwinsBefore(one: Upload, one': Upload, two: Upload, two': Upload)
    requires Evolves(one, one') && Evolves(two, two') && Twins(one', two')
    ensures Twins(one, two)
  {
  }

  /** In every reachable state at most one upload of a source has given content and is under way: the
      query for it never has to choose. */
  lemma {:induction false} OneUploadUnderWay(actions: seq<Action>)
    requires AdmissibleRun(actions)
    ensures OneActive(Run(actions).t.uploads)
  {
    hide Inv, Step, OneActive;
    if actions == [] {
      assert OneActive(EMPTY.uploads) by { NoneActive(); }
    } else {
      var earlier, last := actions[..|actions| - 1], actions[|actions| - 1];
      RunKeeps(earlier);
      OneUploadUnderWay(earlier);
      StepOneActive(Run(earlier), last);
    }
  }

  lemma NoneActive()
    ensures OneActive(EMPTY.uploads)
  {
  }

  /* ---- Quotas ---- */

  predicate QuotasFit(accounts: map<Id, Account>) {
    forall a :: a in accounts ==> accounts[a].quota <= MAX_JSON_INTEGER
  }

  lemma StepQuotas(w: World, action: Action)
    requires Inv(w) && QuotasFit(w.t.accounts)
    ensures QuotasFit(Step(w, action).t.accounts)
  {
    hide TablesInv, SessionInv, DuplicateInv, Micro, OpenUpload, AccountInUse, PathRefused, PathPinned, Referenced,
         ReferencedStages, Durable.AttachDuplicate, Durable.DeleteAsset;
    match action
    case Progress(u, io) =>
      if u in w.sessions {
        MicroAccounts(w.t, u, w.sessions[u], io);
      }
    case Open(account, asset, source, manifest, maxPart) =>
      OpenAccounts(w.t, account, asset, source, manifest, maxPart);
    case AttachDuplicate(d) =>
      if d in w.duplicates {
        var r := w.duplicates[d];
        AttachAccounts(w.t, r.asset, r.source, r.blob, r.row);
      }
    case DeleteAsset(asset) => DeleteAccounts(w.t, asset);
    case _ =>
  }

  lemma MicroAccounts(t: Tables, u: Id, pc: Pc, io: bool)
    requires TablesInv(t) && SessionInv(t, u, pc)
    ensures Micro(t, u, pc, io).0.accounts == t.accounts
  {
    hide TablesInv, SessionInv, Micro;
    MicroTables(t, u, pc, io);
  }

  lemma OpenAccounts(t: Tables, account: Id, asset: Option<Id>, source: string, manifest: Manifest, maxPart: nat)
    ensures OpenUpload(t, account, asset, source, manifest, maxPart).0.accounts == t.accounts
  {
    hide AssetRow, UpsertAsset, ActiveTwin, OverQuota, ValidManifest, Charge, LoadCandidate;
    UpsertAssetOnly(t, account, asset);
  }

  lemma AttachAccounts(t: Tables, asset: Option<Id>, source: string, blob: Id, row: Blob)
    ensures Durable.AttachDuplicate(t, asset, source, blob, row).0.accounts == t.accounts
  {
    hide AssetRow, UpsertAsset;
    UpsertAssetOnly(t, row.account, asset);
  }

  lemma DeleteAccounts(t: Tables, asset: Id)
    ensures Durable.DeleteAsset(t, asset).accounts == t.accounts
  {
  }

  /** Quotas are within the limit that keeps the sums exact. */
  lemma {:induction false} QuotasWithinLimit(actions: seq<Action>)
    requires AdmissibleRun(actions)
    ensures QuotasFit(Run(actions).t.accounts)
  {
    hide Inv, Step, QuotasFit;
    if actions == [] {
      assert QuotasFit(EMPTY.accounts) by { NoQuotas(); }
    } else {
      var earlier, last := actions[..|actions| - 1], actions[|actions| - 1];
      RunKeeps(earlier);
      QuotasWithinLimit(earlier);
      StepQuotas(Run(earlier), last);
    }
  }

  lemma NoQuotas()
    ensures QuotasFit(EMPTY.accounts)
  {
  }
}

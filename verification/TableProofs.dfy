/** The transactions and file operations of a completing request keep the tables' invariant. */
module TableProofs {
  import opened Prelude
  import opened Content
  import opened Durable
  import opened TableInvariant

  /** What a step of the request for `u` may change. */
  predicate Effect(t: Tables, t': Tables, u: Id) {
    && t'.accounts == t.accounts && t'.assets == t.assets && t.next <= t'.next
    && t'.uploads.Keys == t.uploads.Keys
    && (forall v :: v in t.uploads && v != u ==> t'.uploads[v] == t.uploads[v])
    && (forall b :: b in t.blobs ==> b in t'.blobs && t'.blobs[b] == t.blobs[b])
    && (forall b :: b in t'.blobs && b !in t.blobs ==>
          u in t.uploads && Proposing(t.uploads[u]) && t.uploads[u].blob == Some(b))
    && (forall k :: k in t.content ==> k in t'.content && t'.content[k] == t.content[k])
    && (forall k :: k in t.files && !(k.StageKey? && k.upload == u) ==> k in t'.files && t'.files[k] == t.files[k])
    && (forall k :: k in t'.files && k !in t.files ==> k.ObjectKey? || (k.StageKey? && k.upload == u))
    && (u in t.uploads && Proposing(t'.uploads[u]) ==>
          || (Proposing(t.uploads[u]) && t'.uploads[u].blob == t.uploads[u].blob)
          || (t'.uploads[u].blob.Some? && t'.uploads[u].blob.value >= t.next))
  }

  lemma EffectKeys(t: Tables, t': Tables, u: Id)
    requires Effect(t, t', u)
    ensures t'.uploads.Keys == t.uploads.Keys
  {
  }

  lemma EffectOthers(t: Tables, t': Tables, u: Id)
    requires Effect(t, t', u)
    ensures forall v :: v in t.uploads && v != u ==> v in t'.uploads && t'.uploads[v] == t.uploads[v]
  {
  }

  /* ---- One change at a time ---- */

  predicate RowFits(t: Tables, u: Id, row: Upload)
    requires u in t.uploads
  {
    && RowSound(t.accounts, t.assets, t.blobs, t.resources, t.files, u, row)
    && row.rowid == t.uploads[u].rowid
    && (row.blob.Some? ==> row.blob.value < t.next)
    && (row.phase == Committed ==> row.blob.Some? && Backed(t.blobs, t.files, row.blob.value))
    && (Proposing(row) ==>
          || (Proposing(t.uploads[u]) && row.blob == t.uploads[u].blob)
          || (forall v :: v in t.uploads && v != u ==> t.uploads[v].blob != row.blob))
  }

  lemma PutRowApart(t: Tables, u: Id, row: Upload)
    requires AllApart(t.uploads) && u in t.uploads && RowFits(t, u, row)
    ensures AllApart(PutRow(t, u, row).uploads)
  {
  }

  lemma PutRowUploads(t: Tables, u: Id, row: Upload)
    requires UploadsSound(t.accounts, t.assets, t.blobs, t.resources, t.files, t.uploads) && u in t.uploads
    requires RowFits(t, u, row)
    ensures UploadsSound(t.accounts, t.assets, t.blobs, t.resources, t.files, PutRow(t, u, row).uploads)
  {
    hide RowSound;
  }

  lemma PutRowSafe(t: Tables, u: Id, row: Upload)
    requires Safe(t.blobs, t.resources, t.uploads, t.files) && u in t.uploads && RowFits(t, u, row)
    ensures Safe(t.blobs, t.resources, PutRow(t, u, row).uploads, t.files)
  {
    hide RowSound, Backed;
  }

  lemma PutRowKeeps(t: Tables, u: Id, row: Upload)
    requires TablesInv(t) && u in t.uploads && RowFits(t, u, row)
    ensures TablesInv(PutRow(t, u, row))
  {
    hide RowSound, UploadsSound, Safe, AllApart, Backed, IndexSound, BlobsPlaced, ResourcesOwned, ObjectsIntact,
         PathsApart;
    PutRowApart(t, u, row);
    PutRowUploads(t, u, row);
    PutRowSafe(t, u, row);
  }

  lemma NextKeeps(t: Tables, next: Id)
    requires TablesInv(t) && t.next <= next
    ensures TablesInv(t.(next := next))
  {
  }

  /** Only stage files go or change; a new object is named by its bytes. */
  predicate FilesFit(t: Tables, files: Files) {
    && (forall k :: k in t.files && !k.StageKey? ==> k in files && files[k] == t.files[k])
    && (forall k :: k in files && k !in t.files && k.ObjectKey? ==> files[k] == k.name)
  }

  lemma FilesUploads(t: Tables, files: Files)
    requires UploadsSound(t.accounts, t.assets, t.blobs, t.resources, t.files, t.uploads) && FilesFit(t, files)
    ensures UploadsSound(t.accounts, t.assets, t.blobs, t.resources, files, t.uploads)
  {
    hide Owned, SoundManifest, StagedBy, RowStateFits, ProofFits, BlobFits, CommitFits;
  }

  lemma FilesSafe(t: Tables, files: Files)
    requires Safe(t.blobs, t.resources, t.uploads, t.files) && FilesFit(t, files) && BlobsPlaced(t.accounts, t.blobs)
    ensures Safe(t.blobs, t.resources, t.uploads, files)
  {
  }

  lemma FilesKeep(t: Tables, files: Files)
    requires TablesInv(t) && FilesFit(t, files)
    ensures TablesInv(t.(files := files))
  {
    FilesUploads(t, files);
    FilesSafe(t, files);
    hide RowSound, UploadsSound, Safe, AllApart, IndexSound, ResourcesOwned, PathsApart;
  }

  predicate BlobFresh(t: Tables, id: Id, blob: Blob) {
    && id !in t.blobs && id < t.next && (blob.account, blob.hash) !in t.content
    && Placed(t.accounts, blob)
    && (forall u :: u in t.uploads && Proposing(t.uploads[u]) ==> t.uploads[u].blob != Some(id))
  }

  lemma NewBlobUploads(t: Tables, id: Id, blob: Blob)
    requires UploadsSound(t.accounts, t.assets, t.blobs, t.resources, t.files, t.uploads) && BlobFresh(t, id, blob)
    ensures UploadsSound(t.accounts, t.assets, t.blobs[id := blob], t.resources, t.files, t.uploads)
  {
  }

  lemma NewBlobIndex(t: Tables, id: Id, blob: Blob)
    requires IndexSound(t.blobs, t.content) && BlobFresh(t, id, blob)
    ensures IndexSound(t.blobs[id := blob], t.content[(blob.account, blob.hash) := id])
  {
  }

  lemma NewBlobSafe(t: Tables, id: Id, blob: Blob)
    requires Safe(t.blobs, t.resources, t.uploads, t.files) && id !in t.blobs
    ensures Safe(t.blobs[id := blob], t.resources, t.uploads, t.files)
  {
  }

  lemma NewBlobKeeps(t: Tables, id: Id, blob: Blob)
    requires TablesInv(t) && BlobFresh(t, id, blob)
    ensures TablesInv(t.(blobs := t.blobs[id := blob], content := t.content[(blob.account, blob.hash) := id]))
  {
    hide RowSound, UploadsSound, Safe, AllApart, IndexSound, ObjectsIntact, PathsApart;
    NewBlobUploads(t, id, blob);
    NewBlobIndex(t, id, blob);
    NewBlobSafe(t, id, blob);
  }

  lemma NewResourceUploads(t: Tables, slot: ResourceKey, blob: Id)
    requires UploadsSound(t.accounts, t.assets, t.blobs, t.resources, t.files, t.uploads)
    ensures UploadsSound(t.accounts, t.assets, t.blobs, UpsertResource(t, slot, blob).resources, t.files, t.uploads)
  {
  }

  lemma NewResourceSafe(t: Tables, slot: ResourceKey, blob: Id)
    requires Safe(t.blobs, t.resources, t.uploads, t.files) && Backed(t.blobs, t.files, blob)
    ensures Safe(t.blobs, UpsertResource(t, slot, blob).resources, t.uploads, t.files)
  {
  }

  lemma UpsertResourceKeeps(t: Tables, slot: ResourceKey, blob: Id)
    requires TablesInv(t) && slot.0 in t.assets && Backed(t.blobs, t.files, blob)
    requires t.blobs[blob].account == t.assets[slot.0].account
    ensures TablesInv(UpsertResource(t, slot, blob))
  {
    hide RowSound, UploadsSound, Safe, AllApart, IndexSound, BlobsPlaced, ObjectsIntact, PathsApart;
    NewResourceUploads(t, slot, blob);
    NewResourceSafe(t, slot, blob);
  }

  /** Assets may be added and change, but not owner. */
  predicate AssetsFit(t: Tables, assets: map<Id, Asset>, next: Id) {
    && t.next <= next
    && (forall a :: a in t.assets ==> a in assets && assets[a].account == t.assets[a].account)
    && (forall a :: a in assets ==> a < next && assets[a].account in t.accounts)
  }

  lemma AssetsUploads(t: Tables, assets: map<Id, Asset>, next: Id)
    requires UploadsSound(t.accounts, t.assets, t.blobs, t.resources, t.files, t.uploads) && AssetsFit(t, assets, next)
    ensures UploadsSound(t.accounts, assets, t.blobs, t.resources, t.files, t.uploads)
  {
    hide CommitFits, BlobFits, ProofFits, RowStateFits, PartsHeld, SoundManifest;
  }

  lemma AssetsKeep(t: Tables, assets: map<Id, Asset>, next: Id)
    requires TablesInv(t) && AssetsFit(t, assets, next)
    ensures TablesInv(t.(assets := assets, next := next))
  {
    hide RowSound, UploadsSound, Safe, AllApart, IndexSound, BlobsPlaced, ObjectsIntact, PathsApart;
    AssetsUploads(t, assets, next);
  }

  lemma UpsertAssetFits(t: Tables, account: Id, asset: Option<Id>)
    requires IdsBelow(t.accounts, t.assets, t.blobs, t.uploads, t.next)
    requires ResourcesOwned(t.accounts, t.assets, t.blobs, t.resources) && account in t.accounts
    ensures AssetsFit(t, UpsertAsset(t, account, asset).assets, UpsertAsset(t, account, asset).next)
  {
    assert forall a :: a in t.assets ==> a < t.next && t.assets[a].account in t.accounts;
    hide IdsBelow, ResourcesOwned;
  }

  lemma UpsertAssetKeeps(t: Tables, account: Id, asset: Option<Id>)
    requires TablesInv(t) && account in t.accounts
    ensures TablesInv(UpsertAsset(t, account, asset))
    ensures AssetRow(t, account, asset) in UpsertAsset(t, account, asset).assets
    ensures UpsertAsset(t, account, asset).assets[AssetRow(t, account, asset)].account == account
  {
    hide TablesInv, AssetsFit, IdsBelow, ResourcesOwned;
    Below(t);
    Owners(t);
    UpsertAssetFits(t, account, asset);
    var t' := UpsertAsset(t, account, asset);
    AssetsKeep(t, t'.assets, t'.next);
    assert t' == t.(assets := t'.assets, next := t'.next);
  }

  lemma Below(t: Tables)
    requires TablesInv(t)
    ensures IdsBelow(t.accounts, t.assets, t.blobs, t.uploads, t.next)
  {
  }

  lemma IndexOf(t: Tables)
    requires TablesInv(t)
    ensures IndexSound(t.blobs, t.content)
  {
  }

  lemma PlacedOf(t: Tables, b: Id)
    requires TablesInv(t) && b in t.blobs
    ensures Placed(t.accounts, t.blobs[b])
  {
    hide UploadsSound, Safe, AllApart, IndexSound, ResourcesOwned, PathsApart;
  }

  lemma Owners(t: Tables)
    requires TablesInv(t)
    ensures ResourcesOwned(t.accounts, t.assets, t.blobs, t.resources)
  {
  }

  /* ---- Effects ---- */

  lemma PutRowEffect(t: Tables, u: Id, row: Upload, next: Id)
    requires u in t.uploads && t.next <= next
    requires Proposing(row) ==>
               || (Proposing(t.uploads[u]) && row.blob == t.uploads[u].blob)
               || (row.blob.Some? && row.blob.value >= t.next)
    ensures Effect(t, PutRow(t, u, row).(next := next), u)
  {
  }

  predicate OwnFiles(t: Tables, files: Files, u: Id) {
    && (forall k :: k in t.files && !(k.StageKey? && k.upload == u) ==> k in files && files[k] == t.files[k])
    && (forall k :: k in files && k !in t.files ==> k.ObjectKey? || (k.StageKey? && k.upload == u))
  }

  lemma FilesEffect(t: Tables, files: Files, u: Id)
    requires OwnFiles(t, files, u)
    ensures Effect(t, t.(files := files), u)
  {
  }

  lemma FilesThenRow(t: Tables, files: Files, u: Id, row: Upload)
    requires u in t.uploads && OwnFiles(t, files, u) && !Proposing(row)
    ensures Effect(t, PutRow(t.(files := files), u, row), u)
  {
  }

  /* ---- The transactions of a commit ---- */

  lemma MarkUnknownKeeps(t: Tables, u: Id)
    requires TablesInv(t)
    ensures TablesInv(MarkUnknown(t, u)) && Effect(t, MarkUnknown(t, u), u)
  {
    hide TablesInv, Effect;
    if u in t.uploads {
      var row := t.uploads[u].(phase := Unknown);
      RowOf(t, u);
      PutRowKeeps(t, u, row);
      PutRowEffect(t, u, row, t.next);
      assert PutRow(t, u, row).(next := t.next) == PutRow(t, u, row);
    }
    FilesEffect(t, t.files, u);
    assert t.(files := t.files) == t;
  }

  lemma MarkFailedKeeps(t: Tables, u: Id)
    requires TablesInv(t)
    ensures TablesInv(MarkFailed(t, u)) && Effect(t, MarkFailed(t, u), u)
  {
    hide TablesInv, Effect;
    if u in t.uploads {
      var row := t.uploads[u].(phase := Failed(false));
      RowOf(t, u);
      PutRowKeeps(t, u, row);
      PutRowEffect(t, u, row, t.next);
      assert PutRow(t, u, row).(next := t.next) == PutRow(t, u, row);
    }
    FilesEffect(t, t.files, u);
    assert t.(files := t.files) == t;
  }

  lemma ToFinalizingKeeps(t: Tables, u: Id)
    requires TablesInv(t)
    ensures TablesInv(ToFinalizing(t, u).0) && Effect(t, ToFinalizing(t, u).0, u)
  {
    hide TablesInv, Effect;
    if u in t.uploads && t.uploads[u].phase == CommitStarted {
      var row := t.uploads[u].(phase := Finalizing);
      RowOf(t, u);
      PutRowKeeps(t, u, row);
      PutRowEffect(t, u, row, t.next);
      assert PutRow(t, u, row).(next := t.next) == PutRow(t, u, row);
    }
    FilesEffect(t, t.files, u);
    assert t.(files := t.files) == t;
  }

  lemma RowOf(t: Tables, u: Id)
    requires TablesInv(t) && u in t.uploads
    ensures RowSound(t.accounts, t.assets, t.blobs, t.resources, t.files, u, t.uploads[u])
    ensures t.uploads[u].blob.Some? ==> t.uploads[u].blob.value < t.next
    ensures t.uploads[u].phase == Committed ==>
              t.uploads[u].blob.Some? && Backed(t.blobs, t.files, t.uploads[u].blob.value)
  {
  }

  lemma FoundCandidate(t: Tables, account: Id, hash: Blake3)
    requires TablesInv(t) && LoadCandidate(t, account, hash).Some?
    ensures var c := LoadCandidate(t, account, hash).value;
            && c.id in t.blobs && t.blobs[c.id] == Blob(account, hash, c.size, c.key) && c.hash == hash
            && t.content[(account, hash)] == c.id
            && account in t.accounts && c.key == ObjectOf(t.accounts[account].path, hash) && c.id < t.next
  {
  }

  /** The row `begin_commit` writes is sound, with a fresh proposal or on an existing blob row. */
  lemma BegunFits(t: Tables, u: Id)
    requires TablesInv(t) && u in t.uploads && t.uploads[u].account in t.accounts && t.uploads[u].phase == Receiving
    ensures RowFits(t.(next := BegunRow(t, u).1), u, BegunRow(t, u).0)
  {
    hide TablesInv;
    RowOf(t, u);
    Below(t);
    var upload := t.uploads[u];
    assert PartsHeld(t.files, u, BegunRow(t, u).0);
    if LoadCandidate(t, upload.account, upload.manifest.hash).Some? {
      FoundCandidate(t, upload.account, upload.manifest.hash);
    } else {
      assert forall v :: v in t.uploads ==> t.uploads[v].blob != Some(t.next + 1);
    }
  }

  lemma BeginCommitKeeps(t: Tables, u: Id)
    requires TablesInv(t)
    ensures TablesInv(BeginCommit(t, u).0) && Effect(t, BeginCommit(t, u).0, u)
  {
    hide TablesInv, Effect, LoadCandidate, CommitOverQuota;
    FilesEffect(t, t.files, u);
    assert t.(files := t.files) == t;
    if BeginCommit(t, u).1 == Begun {
      var (row, next) := BegunRow(t, u);
      BegunFits(t, u);
      NextKeeps(t, next);
      PutRowKeeps(t.(next := next), u, row);
      PutRowEffect(t, u, row, next);
      assert PutRow(t.(next := next), u, row) == PutRow(t, u, row).(next := next);
    }
  }

  /* ---- commit_metadata ---- */

  lemma ProposalsApart(t: Tables, u: Id, v: Id)
    requires TablesInv(t) && u in t.uploads && v in t.uploads && u != v
    requires Proposing(t.uploads[u]) && Proposing(t.uploads[v])
    ensures t.uploads[u].blob != t.uploads[v].blob
  {
  }

  /** With the upload's own row set aside, the blob row goes in. */
  lemma InsertBlobKeeps(t: Tables, u: Id, r: Ready)
    requires TablesInv(t) && u in t.uploads && Proven(t, u, r)
    ensures TablesInv(InsertBlob(MarkUnknown(t, u), r))
    ensures InsertBlob(MarkUnknown(t, u), r) == PutRow(InsertBlob(t, r), u, t.uploads[u].(phase := Unknown))
  {
    hide TablesInv;
    var aside := MarkUnknown(t, u);
    MarkUnknownKeeps(t, u);
    if (r.account, r.hash) !in t.content && r.proposed !in t.blobs {
      RowOf(t, u);
      assert Proposing(t.uploads[u]);
      forall v | v in aside.uploads && Proposing(aside.uploads[v]) ensures aside.uploads[v].blob != Some(r.proposed) {
        ProposalsApart(t, u, v);
      }
      NewBlobKeeps(aside, r.proposed, Blob(r.account, r.hash, r.size, r.final));
    }
  }

  /** The row the transaction then finds is the right one, and its object is there. */
  lemma RecordedBlob(t: Tables, u: Id, r: Ready)
    requires TablesInv(t) && u in t.uploads && Proven(t, u, r)
    ensures r.account in t.accounts && t.accounts[r.account].path == r.path
    ensures LoadCandidate(InsertBlob(t, r), r.account, r.hash).Some?
    ensures var c := LoadCandidate(InsertBlob(t, r), r.account, r.hash).value;
            && c.id in InsertBlob(t, r).blobs
            && InsertBlob(t, r).blobs[c.id] == Blob(r.account, r.hash, r.size, r.final)
            && c == Candidate(c.id, r.final, r.size, r.hash) && c.id < t.next
            && (LoadCandidate(t, r.account, r.hash).None? ==> c.id == r.proposed)
            && (LoadCandidate(t, r.account, r.hash).Some? ==> Some(c) == LoadCandidate(t, r.account, r.hash))
  {
    hide TablesInv;
    RowOf(t, u);
    IndexOf(t);
    if LoadCandidate(t, r.account, r.hash).Some? {
      FoundCandidate(t, r.account, r.hash);
      PlacedOf(t, LoadCandidate(t, r.account, r.hash).value.id);
    } else {
      assert Proposing(t.uploads[u]);
    }
  }

  lemma OvertakenSound(t: Tables, u: Id, row: Upload)
    requires RowSound(t.accounts, t.assets, t.blobs, t.resources, t.files, u, row)
    ensures RowSound(t.accounts, t.assets, t.blobs, t.resources, t.files, u, OvertakenRow(row))
  {
  }

  lemma CommittedSound(t: Tables, u: Id, row: Upload, r: Ready, c: Candidate, resource: Id, deduplicated: bool)
    requires RowSound(t.accounts, t.assets, t.blobs, t.resources, t.files, u, row.(phase := Unknown))
    requires row.phase == Finalizing && Current(row, r) && ProofFits(t.accounts, row)
    requires c.id in t.blobs && t.blobs[c.id] == Blob(r.account, r.hash, r.size, r.final) && c.key == r.final
    requires Slot(row) in t.resources && t.resources[Slot(row)].id == resource
    ensures RowSound(t.accounts, t.assets, t.blobs, t.resources, t.files, u,
                     CommittedRow(row, c, resource, deduplicated))
  {
  }

  /** Replacing a row twice is replacing it once. */
  lemma PutRowTwice(t: Tables, u: Id, first: Upload, second: Upload)
    ensures PutRow(PutRow(t, u, first), u, second) == PutRow(t, u, second)
  {
  }

  lemma SupersededKeeps(t: Tables, u: Id, r: Ready)
    requires TablesInv(t) && u in t.uploads && Proven(t, u, r)
    ensures TablesInv(PutRow(InsertBlob(t, r), u, OvertakenRow(t.uploads[u])))
  {
    hide TablesInv, Proven;
    InsertBlobKeeps(t, u, r);
    var aside := InsertBlob(MarkUnknown(t, u), r);
    var waiting := t.uploads[u].(phase := Unknown);
    RowOf(aside, u);
    OvertakenSound(aside, u, waiting);
    PutRowKeeps(aside, u, OvertakenRow(waiting));
    PutRowTwice(InsertBlob(t, r), u, waiting, OvertakenRow(waiting));
    assert OvertakenRow(waiting) == OvertakenRow(t.uploads[u]);
  }

  /** The state in which the blob row and the resource are in and the upload's row is set aside. */
  function Attached(t: Tables, u: Id, r: Ready, blob: Id): Tables {
    UpsertResource(InsertBlob(MarkUnknown(t, u), r), (r.asset, r.source), blob)
  }

  lemma PutRowAttached(t: Tables, u: Id, r: Ready, blob: Id, row: Upload)
    requires u in t.uploads
    ensures PutRow(Attached(t, u, r, blob), u, row)
            == PutRow(UpsertResource(InsertBlob(t, r), (r.asset, r.source), blob), u, row)
  {
  }

  lemma AttachedKeeps(t: Tables, u: Id, r: Ready, c: Candidate)
    requires TablesInv(t) && u in t.uploads && Proven(t, u, r)
    requires Some(c) == LoadCandidate(InsertBlob(t, r), r.account, r.hash)
    ensures TablesInv(Attached(t, u, r, c.id))
    ensures Backed(Attached(t, u, r, c.id).blobs, t.files, c.id)
  {
    RowOf(t, u);
    RecordedBlob(t, u, r);
    InsertBlobKeeps(t, u, r);
    UpsertResourceKeeps(InsertBlob(MarkUnknown(t, u), r), (r.asset, r.source), c.id);
  }

  lemma AttachedFits(t: Tables, u: Id, r: Ready, c: Candidate, deduplicated: bool)
    requires TablesInv(t) && u in t.uploads && Proven(t, u, r)
    requires Some(c) == LoadCandidate(InsertBlob(t, r), r.account, r.hash)
    ensures RowFits(Attached(t, u, r, c.id), u,
                    CommittedRow(t.uploads[u], c, ResourceRow(InsertBlob(t, r), (r.asset, r.source)), deduplicated))
  {
    hide TablesInv;
    RowOf(t, u);
    RecordedBlob(t, u, r);
    AttachedKeeps(t, u, r, c);
    RowOf(Attached(t, u, r, c.id), u);
    CommittedSound(Attached(t, u, r, c.id), u, t.uploads[u], r, c,
                   ResourceRow(InsertBlob(t, r), (r.asset, r.source)), deduplicated);
  }

  lemma RecordedKeeps(t: Tables, u: Id, r: Ready, c: Candidate, deduplicated: bool)
    requires TablesInv(t) && u in t.uploads && Proven(t, u, r)
    requires Some(c) == LoadCandidate(InsertBlob(t, r), r.account, r.hash)
    ensures var slot := (r.asset, r.source);
            var row := CommittedRow(t.uploads[u], c, ResourceRow(InsertBlob(t, r), slot), deduplicated);
            TablesInv(PutRow(UpsertResource(InsertBlob(t, r), slot, c.id), u, row))
  {
    var slot := (r.asset, r.source);
    var row := CommittedRow(t.uploads[u], c, ResourceRow(InsertBlob(t, r), slot), deduplicated);
    AttachedKeeps(t, u, r, c);
    AttachedFits(t, u, r, c, deduplicated);
    PutRowKeeps(Attached(t, u, r, c.id), u, row);
    PutRowAttached(t, u, r, c.id, row);
  }

  /** If the blob row is inserted, it is under the upload's own proposal. */
  predicate Insertable(t: Tables, u: Id, r: Ready) {
    u in t.uploads ==>
      && t.uploads[u].blob == Some(r.proposed)
      && (r.proposed in t.blobs || (r.account, r.hash) in t.content || Proposing(t.uploads[u]))
  }

  lemma ProvenInsertable(t: Tables, u: Id, r: Ready)
    requires TablesInv(t) && (u in t.uploads ==> Proven(t, u, r))
    ensures Insertable(t, u, r)
  {
  }

  lemma OvertakenEffect(t: Tables, u: Id, r: Ready, row: Upload)
    requires u in t.uploads && Insertable(t, u, r) && !Proposing(row)
    ensures Effect(t, PutRow(InsertBlob(t, r), u, row), u)
  {
  }

  lemma ResourcesEffect(t: Tables, t': Tables, u: Id, resources: map<ResourceKey, Resource>, next: Id)
    requires Effect(t, t', u) && t'.next <= next
    ensures Effect(t, t'.(resources := resources, next := next), u)
  {
  }

  lemma CommitEffect(t: Tables, u: Id, r: Ready, row: Upload, blob: Id)
    requires u in t.uploads && Insertable(t, u, r) && !Proposing(row)
    ensures Effect(t, PutRow(UpsertResource(InsertBlob(t, r), (r.asset, r.source), blob), u, row), u)
  {
    hide Effect, Insertable, InsertBlob;
    OvertakenEffect(t, u, r, row);
    var t' := PutRow(UpsertResource(InsertBlob(t, r), (r.asset, r.source), blob), u, row);
    ResourcesEffect(t, PutRow(InsertBlob(t, r), u, row), u, t'.resources, t'.next);
    assert PutRow(InsertBlob(t, r), u, row).(resources := t'.resources, next := t'.next) == t';
  }

  /** The three outcomes of `commit_metadata` on the tables. */
  lemma RecordMetadataCases(t: Tables, u: Id, r: Ready, approved: Option<Candidate>)
    requires u in t.uploads
    ensures var (t', reply) := RecordMetadata(t, u, r, approved);
            var c := LoadCandidate(InsertBlob(t, r), r.account, r.hash);
            && (!reply.Superseded? && !reply.Recorded? ==> t' == t)
            && (reply.Superseded? ==> t' == PutRow(InsertBlob(t, r), u, OvertakenRow(t.uploads[u])))
            && (reply.Recorded? ==>
                  && c.Some? && reply.deduplicated == (r.staged.None? || c.value.id != r.proposed)
                  && reply.resource == ResourceRow(InsertBlob(t, r), (r.asset, r.source))
                  && t' == PutRow(UpsertResource(InsertBlob(t, r), (r.asset, r.source), c.value.id), u,
                                  CommittedRow(t.uploads[u], c.value, reply.resource, reply.deduplicated)))
  {
  }

  lemma RecordMetadataKeeps(t: Tables, u: Id, r: Ready, approved: Option<Candidate>)
    requires TablesInv(t) && (u in t.uploads ==> Proven(t, u, r))
    ensures TablesInv(RecordMetadata(t, u, r, approved).0)
  {
    if u in t.uploads {
      RecordMetadataCases(t, u, r, approved);
      var reply := RecordMetadata(t, u, r, approved).1;
      if reply.Superseded? {
        SupersededKeeps(t, u, r);
      } else if reply.Recorded? {
        RecordedKeeps(t, u, r, LoadCandidate(InsertBlob(t, r), r.account, r.hash).value, reply.deduplicated);
      }
    }
  }

  lemma RecordMetadataEffect(t: Tables, u: Id, r: Ready, approved: Option<Candidate>)
    requires Insertable(t, u, r)
    ensures Effect(t, RecordMetadata(t, u, r, approved).0, u)
  {
    hide Effect, Insertable, InsertBlob, UpsertResource;
    FilesEffect(t, t.files, u);
    assert t.(files := t.files) == t;
    if u in t.uploads {
      RecordMetadataCases(t, u, r, approved);
      var reply := RecordMetadata(t, u, r, approved).1;
      if reply.Superseded? {
        OvertakenEffect(t, u, r, OvertakenRow(t.uploads[u]));
      } else if reply.Recorded? {
        var c := LoadCandidate(InsertBlob(t, r), r.account, r.hash).value;
        CommitEffect(t, u, r, CommittedRow(t.uploads[u], c, reply.resource, reply.deduplicated), c.id);
      }
    }
  }

  lemma TidyStageKeeps(t: Tables, u: Id, stage: Key)
    requires TablesInv(t) && stage.StageKey? && stage.upload == u
    ensures TablesInv(TidyStage(t, u, stage))
  {
    hide TablesInv;
    var t1 := t.(files := t.files - {stage});
    FilesKeep(t, t1.files);
    if u in t.uploads && t.uploads[u].phase == Committed && t.uploads[u].staged == Some(stage) {
      RowOf(t1, u);
      PutRowKeeps(t1, u, t.uploads[u].(staged := None));
    }
  }

  lemma TidyStageEffect(t: Tables, u: Id, stage: Key)
    requires stage.StageKey? && stage.upload == u
    ensures Effect(t, TidyStage(t, u, stage), u)
  {
    hide Effect;
    FilesEffect(t, t.files - {stage}, u);
    if u in t.uploads && t.uploads[u].phase == Committed {
      FilesThenRow(t, t.files - {stage}, u, t.uploads[u].(staged := None));
    }
  }
}

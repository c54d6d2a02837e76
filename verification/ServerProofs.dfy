/** Requests that create uploads, library operations and administration keep the tables' invariant. */
module ServerProofs {
  import opened Prelude
  import opened Content
  import opened Durable
  import StorageKeys
  import opened TableInvariant
  import opened TableProofs

  /* ---- Rows come and go ---- */

  /** A new upload: receiving, above every other in the creation order, nothing claimed. */
  predicate NewRow(t: Tables, u: Id, row: Upload) {
    && u !in t.uploads && u < t.next && row.phase == Receiving && row.row == Uploading
    && row.blob == None && row.staged == None && row.received == {}
    && Owned(t.accounts, t.assets, row) && SoundManifest(row.manifest) && RowsBelow(t.uploads, row.rowid)
  }

  lemma NewRowUploads(t: Tables, u: Id, row: Upload)
    requires UploadsSound(t.accounts, t.assets, t.blobs, t.resources, t.files, t.uploads) && NewRow(t, u, row)
    ensures UploadsSound(t.accounts, t.assets, t.blobs, t.resources, t.files, t.uploads[u := row])
  {
    hide RowSound;
    assert RowSound(t.accounts, t.assets, t.blobs, t.resources, t.files, u, row) by { NewRowSound(t, u, row); }
  }

  lemma NewRowSound(t: Tables, u: Id, row: Upload)
    requires NewRow(t, u, row)
    ensures RowSound(t.accounts, t.assets, t.blobs, t.resources, t.files, u, row)
  {
  }

  lemma NewRowKeeps(t: Tables, u: Id, row: Upload)
    requires TablesInv(t) && NewRow(t, u, row)
    ensures TablesInv(PutRow(t, u, row))
  {
    hide RowSound, UploadsSound, IndexSound, BlobsPlaced, ResourcesOwned, ObjectsIntact, PathsApart, Backed;
    NewRowUploads(t, u, row);
  }

  lemma OpenUploadKeeps(
    t: Tables, account: Id, asset: Option<Id>, source: string, manifest: Manifest, maxPart: nat)
    requires TablesInv(t)
    ensures TablesInv(OpenUpload(t, account, asset, source, manifest, maxPart).0)
  {
    hide TablesInv, UpsertAsset, AssetRow;
    var (t', reply) := OpenUpload(t, account, asset, source, manifest, maxPart);
    if reply.Resumed? || reply.Opened? {
      UpsertAssetKeeps(t, account, asset);
    }
    if reply.Opened? {
      var t1 := UpsertAsset(t, account, asset);
      UpsertAssetOnly(t, account, asset);
      NextKeeps(t1, t1.next + 1);
      Below(t1);
      var upload := NewUpload(account, AssetRow(t, account, asset), source, NextRow(t1), manifest);
      NewRowKeeps(t1.(next := t1.next + 1), t1.next, upload);
      assert t' == PutRow(t1.(next := t1.next + 1), t1.next, upload);
    }
  }

  lemma UpsertAssetOnly(t: Tables, account: Id, asset: Option<Id>)
    ensures var t' := UpsertAsset(t, account, asset);
            t' == t.(assets := t'.assets, next := t'.next) && t.next <= t'.next
  {
  }

  lemma MarkPartKeeps(t: Tables, u: Id, index: nat)
    requires TablesInv(t)
    ensures TablesInv(MarkPart(t, u, index))
  {
    hide TablesInv;
    if MarkPart(t, u, index) != t {
      RowOf(t, u);
      Below(t);
      PutRowKeeps(t, u, MarkPart(t, u, index).uploads[u]);
    }
  }

  lemma AttachDuplicateKeeps(t: Tables, asset: Option<Id>, source: string, blob: Id, row: Blob)
    requires TablesInv(t)
    requires blob in t.blobs && t.blobs[blob] == row ==> Holds(t.files, row.key, row.size, row.hash)
    ensures TablesInv(Durable.AttachDuplicate(t, asset, source, blob, row).0)
  {
    hide TablesInv, UpsertAsset, AssetRow, UpsertResource;
    if blob in t.blobs && t.blobs[blob] == row {
      BlobAccount(t, blob);
      UpsertAssetKeeps(t, row.account, asset);
      UpsertAssetOnly(t, row.account, asset);
      UpsertResourceKeeps(UpsertAsset(t, row.account, asset), (AssetRow(t, row.account, asset), source), blob);
    }
  }

  lemma BlobAccount(t: Tables, blob: Id)
    requires TablesInv(t) && blob in t.blobs
    ensures t.blobs[blob].account in t.accounts && t.blobs[blob].key.ObjectKey?
  {
  }

  /* ---- Deletion and reclamation ---- */

  lemma DeleteAssetUploads(t: Tables, asset: Id)
    requires UploadsSound(t.accounts, t.assets, t.blobs, t.resources, t.files, t.uploads)
    ensures var t' := DeleteAsset(t, asset);
            UploadsSound(t'.accounts, t'.assets, t'.blobs, t'.resources, t'.files, t'.uploads)
  {
  }

  lemma DeleteAssetKeeps(t: Tables, asset: Id)
    requires TablesInv(t)
    ensures TablesInv(DeleteAsset(t, asset))
  {
    hide RowSound, UploadsSound, IndexSound, BlobsPlaced, ObjectsIntact, PathsApart, Backed;
    DeleteAssetUploads(t, asset);
  }

  /** Different blob rows name different objects. */
  lemma DistinctKeys(t: Tables, b: Id, c: Id)
    requires TablesInv(t) && b in t.blobs && c in t.blobs && b != c
    ensures t.blobs[b].key != t.blobs[c].key
  {
    hide UploadsSound, Safe, AllApart, ResourcesOwned, ObjectsIntact;
  }

  lemma ReclaimUploads(t: Tables, blob: Id)
    requires UploadsSound(t.accounts, t.assets, t.blobs, t.resources, t.files, t.uploads)
    requires blob in t.blobs && !Referenced(t, blob) && t.blobs[blob].key.ObjectKey?
    ensures var t' := Reclaim(t, blob);
            UploadsSound(t'.accounts, t'.assets, t'.blobs, t'.resources, t'.files, t'.uploads)
  {
  }

  lemma ReclaimSafe(t: Tables, blob: Id)
    requires Safe(t.blobs, t.resources, t.uploads, t.files) && blob in t.blobs && !Referenced(t, blob)
    requires forall c :: c in t.blobs && c != blob ==> t.blobs[c].key != t.blobs[blob].key
    ensures var t' := Reclaim(t, blob); Safe(t'.blobs, t'.resources, t'.uploads, t'.files)
  {
  }

  lemma ReclaimOwners(t: Tables, blob: Id)
    requires ResourcesOwned(t.accounts, t.assets, t.blobs, t.resources) && blob in t.blobs && !Referenced(t, blob)
    ensures var t' := Reclaim(t, blob); ResourcesOwned(t'.accounts, t'.assets, t'.blobs, t'.resources)
  {
  }

  lemma ReclaimIndex(t: Tables, blob: Id)
    requires IndexSound(t.blobs, t.content) && BlobsPlaced(t.accounts, t.blobs)
    ensures IndexSound(Reclaim(t, blob).blobs, Reclaim(t, blob).content)
    ensures BlobsPlaced(t.accounts, Reclaim(t, blob).blobs)
  {
  }

  lemma ReclaimKeeps(t: Tables, blob: Id)
    requires TablesInv(t)
    ensures TablesInv(Reclaim(t, blob))
  {
    hide RowSound, UploadsSound, Safe, PathsApart, Backed, Referenced, ResourcesOwned, IndexSound, BlobsPlaced;
    if blob in t.blobs && !Referenced(t, blob) {
      BlobAccount(t, blob);
      forall c | c in t.blobs && c != blob ensures t.blobs[c].key != t.blobs[blob].key {
        DistinctKeys(t, c, blob);
      }
      ReclaimIndex(t, blob);
      ReclaimOwners(t, blob);
      ReclaimUploads(t, blob);
      ReclaimSafe(t, blob);
    }
  }

  /** Losing only the object of an unreferenced row breaks nothing yet. */
  lemma ReclaimTornKeeps(t: Tables, blob: Id)
    requires TablesInv(t)
    ensures TablesInv(ReclaimTorn(t, blob))
  {
    hide RowSound, Safe, PathsApart, Backed, Referenced, ResourcesOwned, IndexSound, BlobsPlaced;
    if blob in t.blobs && !Referenced(t, blob) {
      BlobAccount(t, blob);
      forall c | c in t.blobs && c != blob ensures t.blobs[c].key != t.blobs[blob].key {
        DistinctKeys(t, c, blob);
      }
      ReclaimSafe(t, blob);
      TornUploads(t, blob);
      TornSafe(t, blob);
    }
  }

  lemma TornUploads(t: Tables, blob: Id)
    requires UploadsSound(t.accounts, t.assets, t.blobs, t.resources, t.files, t.uploads)
    requires blob in t.blobs && t.blobs[blob].key.ObjectKey?
    ensures UploadsSound(t.accounts, t.assets, t.blobs, t.resources, ReclaimTorn(t, blob).files, t.uploads)
  {
  }

  lemma TornSafe(t: Tables, blob: Id)
    requires blob in t.blobs && !Referenced(t, blob)
    requires Safe(Reclaim(t, blob).blobs, t.resources, t.uploads, Reclaim(t, blob).files)
    ensures Safe(t.blobs, t.resources, t.uploads, ReclaimTorn(t, blob).files)
  {
  }

  lemma StagesKeep(t: Tables, gone: set<Key>)
    requires TablesInv(t) && forall k :: k in gone ==> k.StageKey?
    ensures TablesInv(t.(files := t.files - gone))
  {
    FilesKeep(t, t.files - gone);
  }

  lemma CleanStagesKeeps(t: Tables, path: AccountPath)
    requires TablesInv(t)
    ensures TablesInv(CleanStages(t, path))
  {
    hide TablesInv, ReferencedStages;
    FilesKeep(t, CleanStages(t, path).files);
  }

  lemma StorePartKeeps(t: Tables, u: Id, index: nat, content: Bytes)
    requires TablesInv(t)
    ensures TablesInv(StorePart(t, u, index, content))
  {
    hide TablesInv;
    if StorePart(t, u, index, content) != t {
      FilesKeep(t, StorePart(t, u, index, content).files);
    }
  }

  /* ---- Accounts ---- */

  /** Accounts may be added, change their quota, and change their path when nothing pins it. */
  predicate AccountsFit(t: Tables, accounts: map<Id, Account>, next: Id) {
    && t.next <= next && PathsApart(accounts)
    && (forall a :: a in accounts ==> a < next)
    && (forall a :: a in t.accounts ==> a in accounts && (accounts[a].path == t.accounts[a].path || !PathPinned(t, a)))
  }

  lemma AccountsPlaced(t: Tables, accounts: map<Id, Account>, next: Id)
    requires BlobsPlaced(t.accounts, t.blobs) && AccountsFit(t, accounts, next)
    ensures BlobsPlaced(accounts, t.blobs)
  {
  }

  lemma AccountsRow(t: Tables, accounts: map<Id, Account>, next: Id, u: Id)
    requires u in t.uploads && RowSound(t.accounts, t.assets, t.blobs, t.resources, t.files, u, t.uploads[u])
    requires AccountsFit(t, accounts, next)
    ensures RowSound(accounts, t.assets, t.blobs, t.resources, t.files, u, t.uploads[u])
  {
  }

  lemma AccountsUploads(t: Tables, accounts: map<Id, Account>, next: Id)
    requires UploadsSound(t.accounts, t.assets, t.blobs, t.resources, t.files, t.uploads)
    requires AccountsFit(t, accounts, next)
    ensures UploadsSound(accounts, t.assets, t.blobs, t.resources, t.files, t.uploads)
  {
    hide RowSound, AccountsFit;
    forall u | u in t.uploads ensures RowSound(accounts, t.assets, t.blobs, t.resources, t.files, u, t.uploads[u]) {
      AccountsRow(t, accounts, next, u);
    }
  }

  lemma AccountsKeep(t: Tables, accounts: map<Id, Account>, next: Id)
    requires TablesInv(t) && AccountsFit(t, accounts, next)
    ensures TablesInv(t.(accounts := accounts, next := next))
  {
    hide RowSound, UploadsSound, Safe, AllApart, IndexSound, BlobsPlaced, ObjectsIntact, PathsApart;
    AccountsPlaced(t, accounts, next);
    AccountsUploads(t, accounts, next);
  }

  lemma CreateAccountKeeps(t: Tables, path: AccountPath, quota: nat)
    requires TablesInv(t)
    ensures TablesInv(Durable.CreateAccount(t, path, quota))
  {
    hide UploadsSound, Safe, AllApart, IndexSound, BlobsPlaced, ObjectsIntact, PathPinned, PathRefused, PathsApart,
         ResourcesOwned;
    var t' := Durable.CreateAccount(t, path, quota);
    if t' != t {
      CreatedAccount(t, path, quota);
      AccountsKeep(t, t'.accounts, t'.next);
    }
  }

  /** A path that is not refused may be given to the account. */
  lemma PathFits(t: Tables, account: Id, path: AccountPath, quota: nat)
    requires PathsApart(t.accounts) && !PathRefused(t, path, Some(account))
    ensures PathsApart(t.accounts[account := Account(path, quota)])
  {
    hide StorageKeys.Overlap, StorageKeys.Assignable;
    var accounts := t.accounts[account := Account(path, quota)];
    forall a, b | a in accounts && b in accounts && a != b
      ensures !StorageKeys.Overlap(accounts[a].path, accounts[b].path)
    {
      StorageKeys.OverlapSymmetric(accounts[a].path, accounts[b].path);
    }
  }

  lemma NoneExcepted(t: Tables, path: AccountPath, account: Id)
    requires !PathRefused(t, path, None)
    ensures !PathRefused(t, path, Some(account))
  {
    hide StorageKeys.Overlap, StorageKeys.Assignable;
  }

  lemma CreatedAccount(t: Tables, path: AccountPath, quota: nat)
    requires IdsBelow(t.accounts, t.assets, t.blobs, t.uploads, t.next) && PathsApart(t.accounts)
    requires !PathRefused(t, path, None) && quota <= MAX_JSON_INTEGER
    ensures AccountsFit(t, Durable.CreateAccount(t, path, quota).accounts, t.next + 1)
  {
    hide PathPinned, PathRefused, PathsApart;
    NoneExcepted(t, path, t.next);
    PathFits(t, t.next, path, quota);
  }

  lemma UpdateAccountKeeps(t: Tables, account: Id, path: AccountPath, quota: nat)
    requires TablesInv(t)
    ensures TablesInv(Durable.UpdateAccount(t, account, path, quota))
  {
    hide UploadsSound, Safe, AllApart, IndexSound, BlobsPlaced, ObjectsIntact, ResourcesOwned, PathPinned, PathRefused,
         PathsApart;
    var t' := Durable.UpdateAccount(t, account, path, quota);
    if t' != t {
      UpdatedAccount(t, account, path, quota);
      AccountsKeep(t, t'.accounts, t.next);
    }
  }

  lemma UpdatedAccount(t: Tables, account: Id, path: AccountPath, quota: nat)
    requires IdsBelow(t.accounts, t.assets, t.blobs, t.uploads, t.next) && PathsApart(t.accounts)
    ensures AccountsFit(t, Durable.UpdateAccount(t, account, path, quota).accounts, t.next)
  {
    hide PathPinned, PathRefused, PathsApart;
    if account in t.accounts && !PathRefused(t, path, Some(account)) {
      PathFits(t, account, path, quota);
    }
  }

  lemma RemoveAccountUploads(t: Tables, account: Id)
    requires UploadsSound(t.accounts, t.assets, t.blobs, t.resources, t.files, t.uploads)
    ensures var t' := Durable.RemoveAccount(t, account);
            UploadsSound(t'.accounts, t'.assets, t'.blobs, t'.resources, t'.files, t'.uploads)
  {
    var t' := Durable.RemoveAccount(t, account);
    if t' != t {
      forall u | u in t.uploads
        ensures RowSound(t'.accounts, t'.assets, t'.blobs, t'.resources, t'.files, u, t.uploads[u])
      {
        assert t.uploads[u].account != account;
      }
    }
  }

  lemma RemoveAccountSafe(t: Tables, account: Id)
    requires Safe(t.blobs, t.resources, t.uploads, t.files)
    requires ResourcesOwned(t.accounts, t.assets, t.blobs, t.resources)
    requires UploadsSound(t.accounts, t.assets, t.blobs, t.resources, t.files, t.uploads)
    ensures var t' := Durable.RemoveAccount(t, account);
            && Safe(t'.blobs, t'.resources, t'.uploads, t'.files)
            && ResourcesOwned(t'.accounts, t'.assets, t'.blobs, t'.resources)
  {
    var t' := Durable.RemoveAccount(t, account);
    if t' != t {
      forall u | u in t.uploads && t.uploads[u].phase == Committed ensures t.uploads[u].blob.value in t'.blobs {
        assert t.uploads[u].account != account;
        assert CommitFits(t.blobs, t.resources, t.uploads[u]);
      }
      assert forall a :: a in t.assets ==> t.assets[a].account != account;
    }
  }

  lemma RemoveAccountRows(t: Tables, account: Id)
    requires BlobsPlaced(t.accounts, t.blobs) && PathsApart(t.accounts)
    ensures var t' := Durable.RemoveAccount(t, account);
            BlobsPlaced(t'.accounts, t'.blobs) && PathsApart(t'.accounts)
  {
    hide AccountInUse;
  }

  lemma RemoveAccountIndex(t: Tables, account: Id)
    requires IndexSound(t.blobs, t.content)
    ensures IndexSound(Durable.RemoveAccount(t, account).blobs, Durable.RemoveAccount(t, account).content)
  {
    hide AccountInUse;
  }

  lemma RemoveAccountIds(t: Tables, account: Id)
    requires IdsBelow(t.accounts, t.assets, t.blobs, t.uploads, t.next)
    ensures var t' := Durable.RemoveAccount(t, account);
            IdsBelow(t'.accounts, t'.assets, t'.blobs, t'.uploads, t'.next)
  {
  }

  lemma RemoveAccountOnly(t: Tables, account: Id)
    ensures var t' := Durable.RemoveAccount(t, account);
            t' == t.(accounts := t'.accounts, blobs := t'.blobs, content := t'.content)
  {
  }

  lemma RemoveAccountKeeps(t: Tables, account: Id)
    requires TablesInv(t)
    ensures TablesInv(Durable.RemoveAccount(t, account))
  {
    hide IdsBelow, RowSound, UploadsSound, Safe, AllApart, ResourcesOwned, IndexSound, BlobsPlaced, PathsApart,
         ObjectsIntact, Durable.RemoveAccount;
    RemoveAccountOnly(t, account);
    RemoveAccountIds(t, account);
    RemoveAccountRows(t, account);
    RemoveAccountIndex(t, account);
    RemoveAccountUploads(t, account);
    RemoveAccountSafe(t, account);
  }
}

/** Accounts and deletion: exactly which requests take effect, what they change, and what a deletion
    sets free. */
module Administration {
  import opened Prelude
  import opened Content
  import opened Durable
  import opened TableInvariant
  import opened ServerProofs
  import opened RequestSteps
  import StorageKeys

  /* ---- Accounts ---- */

  lemma AddsPath(accounts: map<Id, Account>, id: Id, path: AccountPath, quota: nat)
    requires PathsApart(accounts)
    ensures PathsApart(accounts[id := Account(path, quota)])
            <==> StorageKeys.Assignable(path)
                 && forall a :: a in accounts && a != id ==> !StorageKeys.Overlap(path, accounts[a].path)
  {
    hide StorageKeys.Overlap, StorageKeys.Assignable;
    var added := accounts[id := Account(path, quota)];
    assert added[id].path == path;
    if && StorageKeys.Assignable(path)
       && forall a :: a in accounts && a != id ==> !StorageKeys.Overlap(path, accounts[a].path)
    {
      forall a, b | a in added && b in added && a != b ensures !StorageKeys.Overlap(added[a].path, added[b].path) {
        StorageKeys.OverlapSymmetric(added[a].path, added[b].path);
      }
    }
    if PathsApart(added) {
      forall a | a in accounts && a != id ensures !StorageKeys.Overlap(path, accounts[a].path) {
        assert !StorageKeys.Overlap(added[id].path, added[a].path);
      }
    }
  }

  /** An account is created exactly when its quota is within the limit and its directory is valid and
      apart from all others. */
  lemma CreatesIff(t: Tables, path: AccountPath, quota: nat)
    requires TablesInv(t)
    ensures var accounts := t.accounts[t.next := Account(path, quota)];
            && t.next !in t.accounts
            && CreateAccount(t, path, quota)
               == if quota <= MAX_JSON_INTEGER && PathsApart(accounts)
                  then t.(accounts := accounts, next := t.next + 1) else t
  {
    hide UploadsSound, Safe, AllApart, IndexSound, BlobsPlaced, ObjectsIntact, ResourcesOwned, PathsApart,
         StorageKeys.Overlap, StorageKeys.Assignable;
    AddsPath(t.accounts, t.next, path, quota);
  }

  /** The account has media, or an upload that is neither committed nor failed or still has a stage. */
  predicate HoldsPath(t: Tables, account: Id) {
    || (exists b :: b in t.blobs && t.blobs[b].account == account)
    || (exists u :: u in t.uploads && t.uploads[u].account == account
          && (!(t.uploads[u].phase == Committed || t.uploads[u].phase.Failed?) || t.uploads[u].staged.Some?))
  }

  lemma PinnedIff(t: Tables, account: Id)
    ensures PathPinned(t, account) <==> HoldsPath(t, account)
  {
    if u :| u in t.uploads && t.uploads[u].account == account
            && (!(t.uploads[u].phase == Committed || t.uploads[u].phase.Failed?) || t.uploads[u].staged.Some?)
    {
      assert t.uploads[u].phase in {Receiving, CommitStarted, Finalizing, Unknown} || t.uploads[u].staged.Some?;
    }
    if u :| u in t.uploads && t.uploads[u].account == account
            && (t.uploads[u].phase in {Receiving, CommitStarted, Finalizing, Unknown} || t.uploads[u].staged.Some?)
    {
      assert !(t.uploads[u].phase == Committed || t.uploads[u].phase.Failed?) || t.uploads[u].staged.Some?;
    }
  }

  /** An account takes a new path and quota exactly when it exists, the quota is within the limit, its
      directory stays valid and apart from all others, and nothing holds it where it was. */
  lemma UpdatesIff(t: Tables, account: Id, path: AccountPath, quota: nat)
    requires TablesInv(t)
    ensures var accounts := t.accounts[account := Account(path, quota)];
            UpdateAccount(t, account, path, quota)
            == if && account in t.accounts && quota <= MAX_JSON_INTEGER && PathsApart(accounts)
                  && (t.accounts[account].path == path || !HoldsPath(t, account))
               then t.(accounts := accounts) else t
  {
    hide UploadsSound, Safe, AllApart, IndexSound, BlobsPlaced, ObjectsIntact, ResourcesOwned, PathsApart,
         StorageKeys.Overlap, StorageKeys.Assignable, PathPinned, HoldsPath;
    PinnedIff(t, account);
    AddsPath(t.accounts, account, path, quota);
  }

  /** An account is removed exactly when no asset and no upload is its; with it go its blob rows, and
      nothing else. */
  lemma RemovesIff(t: Tables, account: Id)
    requires TablesInv(t)
    ensures var t' := RemoveAccount(t, account);
            var used := (exists a :: a in t.assets && t.assets[a].account == account)
                        || exists u :: u in t.uploads && t.uploads[u].account == account;
            if used then t' == t
            else
              && t'.accounts == t.accounts - {account}
              && (forall b :: b in t'.blobs <==> b in t.blobs && t.blobs[b].account != account)
              && (forall b :: b in t'.blobs ==> t'.blobs[b] == t.blobs[b])
              && IndexSound(t'.blobs, t'.content)
              && t' == t.(accounts := t'.accounts, blobs := t'.blobs, content := t'.content)
  {
    hide UploadsSound, Safe, AllApart, BlobsPlaced, ObjectsIntact, ResourcesOwned, PathsApart;
    RemoveAccountIndex(t, account);
  }

  /* ---- Trash and deletion ---- */

  lemma TrashesIff(t: Tables, asset: Id, trashed: bool)
    ensures var t' := SetTrashed(t, asset, trashed);
            && t'.assets.Keys == t.assets.Keys && t' == t.(assets := t'.assets)
            && (forall a :: a in t.assets ==>
                  t'.assets[a].account == t.assets[a].account
                  && t'.assets[a].trashed == if a == asset then trashed else t.assets[a].trashed)
  {
  }

  /** An asset in the trash that has a resource. */
  ghost predicate Deletable(t: Tables, asset: Id) {
    asset in t.assets && t.assets[asset].trashed && exists source :: (asset, source) in t.resources
  }

  /** A deletion takes the asset with its resources and uploads, and nothing else; it takes effect
      exactly for an asset in the trash that has a resource. */
  lemma DeletesIff(t: Tables, asset: Id)
    ensures var t' := DeleteAsset(t, asset);
            if !Deletable(t, asset) then t' == t
            else
              && t'.assets == t.assets - {asset}
              && (forall k :: k in t'.resources <==> k in t.resources && k.0 != asset)
              && (forall k :: k in t'.resources ==> t'.resources[k] == t.resources[k])
              && (forall u :: u in t'.uploads <==> u in t.uploads && t.uploads[u].asset != asset)
              && (forall u :: u in t'.uploads ==> t'.uploads[u] == t.uploads[u])
              && t' == t.(assets := t'.assets, resources := t'.resources, uploads := t'.uploads)
  {
    if k :| k in t.resources && k.0 == asset {
      assert (asset, k.1) in t.resources;
    }
    if source :| (asset, source) in t.resources {
      assert (asset, source).0 == asset;
    }
  }

  /** Nothing but the asset's own resources and uploads refers to the blob. */
  predicate OnlyRefersFrom(t: Tables, asset: Id, b: Id) {
    && (forall k :: k in t.resources && t.resources[k].blob == b ==> k.0 == asset)
    && (forall u :: u in t.uploads && t.uploads[u].blob == Some(b) ==> t.uploads[u].asset == asset)
  }

  /** A deletion with the reclamation of its account that follows it: of the account's blobs, exactly
      those go that only the deleted asset referred to, with their objects, and the blobs of other
      accounts stay. */
  lemma DeletionFrees(t: Tables, asset: Id, b: Id)
    requires TablesInv(t) && Deletable(t, asset) && b in t.blobs
    ensures var account := t.assets[asset].account;
            var t1 := DeleteAsset(t, asset);
            var t2 := Without(t1, Orphans(t1, Some(account)));
            && (b in t2.blobs <==> t.blobs[b].account != account || !OnlyRefersFrom(t, asset, b))
            && (b in t2.blobs ==> t2.blobs[b] == t.blobs[b])
            && (t.blobs[b].key in t.files ==> (t.blobs[b].key in t2.files <==> b in t2.blobs))
  {
    hide TablesInv, Without, Orphans, DeleteAsset;
    var account := t.assets[asset].account;
    var t1 := DeleteAsset(t, asset);
    DeletesIff(t, asset);
    OrphansGone(t1, Some(account));
    forall c | c in t.blobs && c != b ensures t.blobs[c].key != t.blobs[b].key {
      DistinctKeys(t, c, b);
    }
  }

  /** The cleaning of a staging directory removes exactly the stages there that no upload has on record. */
  lemma CleansIff(t: Tables, path: AccountPath)
    ensures var t' := CleanStages(t, path);
            && t' == t.(files := t'.files)
            && (forall k :: k in t.files ==>
                  (k !in t'.files <==>
                     k.StageKey? && k.path == path && forall u :: u in t.uploads ==> t.uploads[u].staged != Some(k)))
            && (forall k :: k in t'.files ==> k in t.files && t'.files[k] == t.files[k])
  {
    forall k | exists u :: u in t.uploads && t.uploads[u].staged == Some(k) ensures k in ReferencedStages(t) {
      var u :| u in t.uploads && t.uploads[u].staged == Some(k);
      assert t.uploads[u].staged.value == k;
    }
  }

  /* ---- Attaching ---- */

  /** The deduplicated create attaches exactly when the row it saw is still there, and then changes only
      the slot of the asset it resolves to. */
  lemma AttachesIff(t: Tables, asset: Option<Id>, source: string, blob: Id, row: Blob)
    ensures var (t', attached) := AttachDuplicate(t, asset, source, blob, row);
            var slot := (AssetRow(t, row.account, asset), source);
            && (attached <==> blob in t.blobs && t.blobs[blob] == row)
            && (!attached ==> t' == t)
            && (attached ==>
                  && t'.assets == UpsertAsset(t, row.account, asset).assets
                  && slot in t'.resources && t'.resources[slot].blob == blob
                  && (slot in t.resources ==> t'.resources[slot].id == t.resources[slot].id)
                  && t'.resources - {slot} == t.resources - {slot}
                  && t' == t.(assets := t'.assets, resources := t'.resources, next := t'.next))
  {
    hide AssetRow, UpsertAsset;
    UpsertAssetOnly(t, row.account, asset);
  }
}

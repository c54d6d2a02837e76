/** What the durable state satisfies in every reachable state. */
module TableInvariant {
  import opened Prelude
  import opened Content
  import opened Durable
  import StorageKeys

  /** The headline: the row exists and its object has exactly its size and hash. */
  predicate Backed(blobs: map<Id, Blob>, files: Files, blob: Id) {
    blob in blobs && Holds(files, blobs[blob].key, blobs[blob].size, blobs[blob].hash)
  }

  /** Everything a resource or a committed upload refers to is backed. */
  predicate Safe(
    blobs: map<Id, Blob>, resources: map<ResourceKey, Resource>, uploads: map<Id, Upload>, files: Files)
  {
    && (forall k :: k in resources ==> Backed(blobs, files, resources[k].blob))
    && (forall u :: u in uploads && uploads[u].phase == Committed ==>
          uploads[u].blob.Some? && Backed(blobs, files, uploads[u].blob.value))
  }

  predicate IdsBelow(
    accounts: map<Id, Account>, assets: map<Id, Asset>, blobs: map<Id, Blob>, uploads: map<Id, Upload>, next: Id)
  {
    && (forall a :: a in accounts ==> a < next)
    && (forall a :: a in assets ==> a < next)
    && (forall b :: b in blobs ==> b < next)
    && (forall u :: u in uploads ==> u < next && (uploads[u].blob.Some? ==> uploads[u].blob.value < next))
  }

  predicate IndexSound(blobs: map<Id, Blob>, content: map<ContentKey, Id>) {
    && (forall k :: k in content ==>
          && content[k] in blobs && blobs[content[k]].account == k.0 && blobs[content[k]].hash == k.1)
    && (forall b :: b in blobs ==>
          (blobs[b].account, blobs[b].hash) in content && content[(blobs[b].account, blobs[b].hash)] == b)
  }

  /** Accounts' directories are valid and do not overlap. */
  predicate PathsApart(accounts: map<Id, Account>) {
    && (forall a :: a in accounts ==> StorageKeys.Assignable(accounts[a].path))
    && (forall a, b :: a in accounts && b in accounts && a != b ==>
          !StorageKeys.Overlap(accounts[a].path, accounts[b].path))
  }

  /** A blob row is named by its account's path and its hash, and has the size of what it names. */
  predicate Placed(accounts: map<Id, Account>, blob: Blob) {
    && blob.account in accounts && blob.key == ObjectOf(accounts[blob.account].path, blob.hash)
    && blob.hash.Lower() && blob.size == |blob.hash.preimage|
  }

  predicate BlobsPlaced(accounts: map<Id, Account>, blobs: map<Id, Blob>) {
    forall b :: b in blobs ==> Placed(accounts, blobs[b])
  }

  predicate ResourcesOwned(
    accounts: map<Id, Account>, assets: map<Id, Asset>, blobs: map<Id, Blob>, resources: map<ResourceKey, Resource>)
  {
    && (forall a :: a in assets ==> assets[a].account in accounts)
    && (forall k :: k in resources ==>
          && k.0 in assets && resources[k].blob in blobs
          && blobs[resources[k].blob].account == assets[k.0].account)
  }

  /** Object files are named by the hash of what they hold. */
  predicate ObjectsIntact(files: Files) {
    forall k :: k in files && k.ObjectKey? ==> files[k] == k.name
  }

  predicate PreCommit(upload: Upload) {
    upload.phase == CommitStarted || upload.phase == Finalizing
  }

  predicate Started(upload: Upload) {
    PreCommit(upload) || upload.phase == Committed
  }

  /** The upload proposes an id of its own for the blob row it may insert. */
  predicate Proposing(upload: Upload) {
    PreCommit(upload) && upload.staged.Some?
  }

  predicate StagedBy(u: Id, staged: Option<Key>) {
    staged.Some? ==> staged.value.StageKey? && staged.value.upload == u
  }

  predicate Owned(accounts: map<Id, Account>, assets: map<Id, Asset>, upload: Upload) {
    upload.account in accounts && upload.asset in assets && assets[upload.asset].account == upload.account
  }

  predicate RowStateFits(upload: Upload) {
    && (upload.phase == Receiving || PreCommit(upload) ==> upload.row == Uploading)
    && (upload.phase == Committed ==> upload.row == RowState.Complete)
  }

  /** Once a commit has started, the recorded path is the account's path, and the object is named
      by the declared hash. */
  predicate ProofFits(accounts: map<Id, Account>, upload: Upload) {
    Started(upload) ==>
      && upload.blob.Some? && upload.account in accounts
      && upload.proof == Some(Proof(
           accounts[upload.account].path,
           ObjectOf(accounts[upload.account].path, upload.manifest.hash),
           upload.manifest.size, upload.manifest.hash))
  }

  predicate BlobOf(blobs: map<Id, Blob>, upload: Upload) {
    && upload.blob.Some? && upload.blob.value in blobs
    && blobs[upload.blob.value].account == upload.account
    && blobs[upload.blob.value].hash == upload.manifest.hash
  }

  predicate BlobFits(blobs: map<Id, Blob>, upload: Upload) {
    && (upload.phase == CommitStarted ==> upload.staged.Some?)
    && (PreCommit(upload) && upload.staged.None? ==> BlobOf(blobs, upload))
    && (Proposing(upload) ==> upload.blob.Some? && upload.blob.value !in blobs)
  }

  predicate CommitFits(blobs: map<Id, Blob>, resources: map<ResourceKey, Resource>, upload: Upload) {
    upload.phase == Committed ==>
      && BlobOf(blobs, upload) && blobs[upload.blob.value].size == upload.manifest.size
      && upload.resource.Some? && Slot(upload) in resources
      && resources[Slot(upload)].id == upload.resource.value
  }

  /** A received part matches its manifest entry. */
  predicate PartsHeld(files: Files, u: Id, upload: Upload) {
    forall i :: i in upload.received ==>
      && i < |upload.manifest.parts|
      && Holds(files, PartKey(u, i), upload.manifest.parts[i].size, upload.manifest.parts[i].hash)
  }

  predicate RowSound(
    accounts: map<Id, Account>, assets: map<Id, Asset>, blobs: map<Id, Blob>,
    resources: map<ResourceKey, Resource>, files: Files, u: Id, upload: Upload)
  {
    && Owned(accounts, assets, upload) && SoundManifest(upload.manifest) && StagedBy(u, upload.staged)
    && RowStateFits(upload) && ProofFits(accounts, upload) && BlobFits(blobs, upload)
    && CommitFits(blobs, resources, upload) && PartsHeld(files, u, upload)
  }

  predicate UploadsSound(
    accounts: map<Id, Account>, assets: map<Id, Asset>, blobs: map<Id, Blob>,
    resources: map<ResourceKey, Resource>, files: Files, uploads: map<Id, Upload>)
  {
    forall u :: u in uploads ==> RowSound(accounts, assets, blobs, resources, files, u, uploads[u])
  }

  /** Distinct rows have distinct places in the creation order and propose distinct blob ids. */
  predicate Apart(one: Upload, two: Upload) {
    one.rowid != two.rowid && (Proposing(one) && Proposing(two) ==> one.blob != two.blob)
  }

  predicate AllApart(uploads: map<Id, Upload>) {
    forall u, v :: u in uploads && v in uploads && u != v ==> Apart(uploads[u], uploads[v])
  }

  predicate TablesInv(t: Tables) {
    match t
    case Tables(accounts, assets, blobs, content, resources, uploads, files, next) =>
      && IdsBelow(accounts, assets, blobs, uploads, next)
      && PathsApart(accounts)
      && IndexSound(blobs, content)
      && BlobsPlaced(accounts, blobs)
      && ResourcesOwned(accounts, assets, blobs, resources)
      && ObjectsIntact(files)
      && UploadsSound(accounts, assets, blobs, resources, files, uploads)
      && AllApart(uploads)
      && Safe(blobs, resources, uploads, files)
  }

  /** The request's copy of the record is the record. */
  predicate Current(upload: Upload, r: Ready) {
    && r.account == upload.account && r.asset == upload.asset && r.source == upload.source
    && r.manifest == upload.manifest && r.staged == upload.staged
    && upload.proof == Some(Proof(r.path, r.final, r.size, r.hash))
    && upload.blob == Some(r.proposed)
  }

  /** The request's record is current and its final object was seen to match. */
  predicate Proven(t: Tables, u: Id, r: Ready)
    requires u in t.uploads
  {
    && t.uploads[u].phase == Finalizing && Current(t.uploads[u], r)
    && Holds(t.files, r.final, r.size, r.hash)
  }
}

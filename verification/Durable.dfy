/** The server's durable state, SQLite rows and files, and its transactions as functions on it. */
module Durable {
  import opened Prelude
  import opened Content
  import StorageKeys

  const U64_MAX: nat := 0xFFFF_FFFF_FFFF_FFFF

  datatype Phase =
    | Receiving | CommitStarted | Finalizing | Committed | Unknown
    | Failed(superseded: bool)

  /** The `state` column, beside `commit_state`. */
  datatype RowState = Uploading | Complete | Dead

  datatype Account = Account(path: AccountPath, quota: nat)
  datatype Asset = Asset(account: Id, trashed: bool)
  datatype Blob = Blob(account: Id, hash: Blake3, size: nat, key: Key)
  datatype Resource = Resource(id: Id, blob: Id)

  /** What `begin_commit` persists about the object an upload is to become. */
  datatype Proof = Proof(path: AccountPath, final: Key, size: nat, hash: Blake3)

  datatype Upload = Upload(
    account: Id, asset: Id, source: string, rowid: nat, manifest: Manifest, received: set<nat>,
    row: RowState, phase: Phase, proof: Option<Proof>, staged: Option<Key>,
    blob: Option<Id>, resource: Option<Id>, deduplicated: bool)

  /** UNIQUE(account_id, content_blake3) and UNIQUE(asset_id, source_resource_id). */
  type ContentKey = (Id, Blake3)
  type ResourceKey = (Id, string)

  /** `content` is the unique index on blobs; `next` is the next fresh id. */
  datatype Tables = Tables(
    accounts: map<Id, Account>,
    assets: map<Id, Asset>,
    blobs: map<Id, Blob>,
    content: map<ContentKey, Id>,
    resources: map<ResourceKey, Resource>,
    uploads: map<Id, Upload>,
    files: Files,
    next: Id)

  const EMPTY := Tables(map[], map[], map[], map[], map[], map[], map[], 0)

  function Slot(upload: Upload): ResourceKey {
    (upload.asset, upload.source)
  }

  /* ---- Quota ---- */

  predicate Reserving(upload: Upload) {
    && upload.row == Uploading
    && upload.phase in {Receiving, CommitStarted, Finalizing, Unknown}
  }

  ghost function SizesOf(blobs: map<Id, Blob>, account: Id): map<Id, nat> {
    map b | b in blobs && blobs[b].account == account :: blobs[b].size
  }

  ghost function BlobSizes(t: Tables, account: Id): map<Id, nat> {
    SizesOf(t.blobs, account)
  }

  ghost function HeldBy(uploads: map<Id, Upload>, account: Id, unknown: bool): map<Id, nat> {
    map u | u in uploads && uploads[u].account == account && Reserving(uploads[u])
            && (unknown || uploads[u].phase != Unknown)
      :: PartSizes(uploads[u].manifest.parts)
  }

  ghost function Reservations(t: Tables, account: Id): map<Id, nat> {
    HeldBy(t.uploads, account, true)
  }

  /** `ensure_commit_quota` leaves uploads in an unknown state out. */
  ghost function OpenReservations(t: Tables, account: Id): map<Id, nat> {
    HeldBy(t.uploads, account, false)
  }

  ghost function Used(t: Tables, account: Id): nat {
    Total(BlobSizes(t, account))
  }

  ghost function Charge(t: Tables, account: Id): nat {
    Used(t, account) + Total(Reservations(t, account))
  }

  /** Both depend on blobs and uploads only. */
  lemma SameCharge(t: Tables, t': Tables, account: Id)
    requires t'.blobs == t.blobs && t'.uploads == t.uploads
    ensures Charge(t', account) == Charge(t, account)
  {
  }

  /** `checked_add(..).unwrap_or(i64::MAX)`. */
  function Saturated(sum: nat): nat {
    if sum > I64_MAX then I64_MAX else sum
  }

  predicate OverQuota(quota: nat, sum: nat) {
    quota != 0 && Saturated(sum) > quota
  }

  /* ---- Creating uploads ---- */

  predicate ValidManifest(manifest: Manifest, maxPart: nat) {
    && manifest.parts != []
    && (forall i :: 0 <= i < |manifest.parts| ==>
          && (manifest.parts[i].size == 0 ==> manifest.size == 0)
          && manifest.parts[i].size <= maxPart)
    && PartSizes(manifest.parts) == manifest.size <= U64_MAX
  }

  datatype OpenReply =
    | BadManifest | NoAccount | NoSpace | Resumed
    | Duplicate(blob: Id, row: Blob)
    | Opened(upload: Id)

  /** `upsert_asset`: the row the caller's source asset id resolves to, or a new one. */
  function AssetRow(t: Tables, account: Id, asset: Option<Id>): Id {
    if asset.Some? && asset.value in t.assets && t.assets[asset.value].account == account
    then asset.value else t.next
  }

  function UpsertAsset(t: Tables, account: Id, asset: Option<Id>): Tables {
    var id := AssetRow(t, account, asset);
    if id in t.assets then t
    else t.(assets := t.assets[id := Asset(account, false)], next := t.next + 1)
  }

  predicate ActiveTwin(t: Tables, account: Id, slot: ResourceKey, hash: Blake3) {
    exists u :: u in t.uploads && t.uploads[u].account == account && Slot(t.uploads[u]) == slot
      && t.uploads[u].manifest.hash == hash && t.uploads[u].row == Uploading
      && t.uploads[u].phase in {Receiving, CommitStarted, Finalizing}
  }

  predicate RowsBelow(uploads: map<Id, Upload>, rowid: nat) {
    forall u :: u in uploads ==> uploads[u].rowid < rowid
  }

  /** SQLite's next rowid: one more than the largest that still exists. */
  predicate IsNextRow(uploads: map<Id, Upload>, rowid: nat) {
    && RowsBelow(uploads, rowid)
    && (rowid > 0 ==> exists u :: u in uploads && uploads[u].rowid + 1 == rowid)
  }

  ghost function NextRow(t: Tables): (rowid: nat)
    ensures IsNextRow(t.uploads, rowid)
  {
    NextRowExists(t.uploads);
    var rowid: nat :| IsNextRow(t.uploads, rowid);
    rowid
  }

  lemma {:induction false} NextRowExists(uploads: map<Id, Upload>)
    ensures exists rowid: nat :: IsNextRow(uploads, rowid)
    decreases |uploads|
  {
    if uploads == map[] {
      assert IsNextRow(uploads, 0);
    } else {
      var k :| k in uploads;
      NextRowExists(uploads - {k});
      var low: nat :| IsNextRow(uploads - {k}, low);
      assert forall u :: u in uploads ==> u == k || u in uploads - {k};
      var rowid := if low > uploads[k].rowid + 1 then low else uploads[k].rowid + 1;
      assert IsNextRow(uploads, rowid);
    }
  }

  function NewUpload(account: Id, asset: Id, source: string, rowid: nat, manifest: Manifest): Upload {
    Upload(account, asset, source, rowid, manifest, {}, Uploading, Receiving, None, None, None, None, false)
  }

  /** The transaction of `create_upload` that does not find the content already stored. */
  ghost function OpenUpload(
    t: Tables, account: Id, asset: Option<Id>, source: string, manifest: Manifest, maxPart: nat
  ): (Tables, OpenReply)
  {
    if !ValidManifest(manifest, maxPart) then (t, BadManifest)
    else if account !in t.accounts then (t, NoAccount)
    else if LoadCandidate(t, account, manifest.hash).Some? then
      var blob := t.content[(account, manifest.hash)];
      (t, Duplicate(blob, t.blobs[blob]))
    else
      var t1 := UpsertAsset(t, account, asset);
      var slot := (AssetRow(t, account, asset), source);
      if ActiveTwin(t1, account, slot, manifest.hash) then (t1, Resumed)
      else if manifest.size > I64_MAX then (t, BadManifest)
      else if OverQuota(t.accounts[account].quota, Charge(t1, account) + PartSizes(manifest.parts))
      then (t, NoSpace)
      else
        var upload := NewUpload(account, slot.0, source, NextRow(t1), manifest);
        (t1.(uploads := t1.uploads[t1.next := upload], next := t1.next + 1), Opened(t1.next))
  }

  /** The last transaction of `create_upload`'s deduplication: re-check the row, attach a resource. */
  function AttachDuplicate(
    t: Tables, asset: Option<Id>, source: string, blob: Id, row: Blob
  ): (Tables, bool)
  {
    if blob in t.blobs && t.blobs[blob] == row then
      var t1 := UpsertAsset(t, row.account, asset);
      (UpsertResource(t1, (AssetRow(t, row.account, asset), source), blob), true)
    else (t, false)
  }

  function ResourceRow(t: Tables, slot: ResourceKey): Id {
    if slot in t.resources then t.resources[slot].id else t.next
  }

  function UpsertResource(t: Tables, slot: ResourceKey, blob: Id): Tables {
    t.(resources := t.resources[slot := Resource(ResourceRow(t, slot), blob)],
       next := if slot in t.resources then t.next else t.next + 1)
  }

  /* ---- Parts ---- */

  /** `put_part` on storage: a verified part is linked unless its name is taken. */
  function StorePart(t: Tables, u: Id, index: nat, content: Bytes): Tables {
    if u in t.uploads && index < |t.uploads[u].manifest.parts|
       && Fits(content, t.uploads[u].manifest.parts[index].size, t.uploads[u].manifest.parts[index].hash)
       && PartKey(u, index) !in t.files
    then t.(files := t.files[PartKey(u, index) := content])
    else t
  }

  /** The receipt that follows a successful `put_part`. */
  function MarkPart(t: Tables, u: Id, index: nat): Tables {
    if u in t.uploads && index < |t.uploads[u].manifest.parts|
       && Holds(t.files, PartKey(u, index), t.uploads[u].manifest.parts[index].size,
                t.uploads[u].manifest.parts[index].hash)
    then PutRow(t, u, t.uploads[u].(received := t.uploads[u].received + {index}))
    else t
  }

  function PutRow(t: Tables, u: Id, upload: Upload): Tables {
    t.(uploads := t.uploads[u := upload])
  }

  /* ---- The commit transactions ---- */

  datatype Candidate = Candidate(id: Id, key: Key, size: nat, hash: Blake3)

  /** `ReadyCommit`: what a completing request carries in memory. */
  datatype Ready = Ready(
    account: Id, asset: Id, source: string, manifest: Manifest, staged: Option<Key>,
    final: Key, path: AccountPath, size: nat, hash: Blake3, proposed: Id)

  function LoadCandidate(t: Tables, account: Id, hash: Blake3): Option<Candidate> {
    if (account, hash) in t.content && t.content[(account, hash)] in t.blobs then
      var id := t.content[(account, hash)];
      Some(Candidate(id, t.blobs[id].key, t.blobs[id].size, t.blobs[id].hash))
    else None
  }

  datatype BeginReply = Begun | BeginNoAccount | BeginNoSpace | BeginConflict

  predicate AllReceived(upload: Upload) {
    forall i :: 0 <= i < |upload.manifest.parts| ==> i in upload.received
  }

  predicate SoundManifest(manifest: Manifest) {
    manifest.parts != [] && PartSizes(manifest.parts) == manifest.size
  }

  /** The row `begin_commit` writes, and the next fresh id after it: the upload joins the stored
      blob with its content, or proposes a blob, a stage and an object of its own. */
  function BegunRow(t: Tables, u: Id): (Upload, Id)
    requires u in t.uploads && t.uploads[u].account in t.accounts
  {
    var upload := t.uploads[u];
    var path := t.accounts[upload.account].path;
    var size, hash := upload.manifest.size, upload.manifest.hash;
    var existing := LoadCandidate(t, upload.account, hash);
    if existing.Some? then
      (upload.(phase := Finalizing, proof := Some(Proof(path, existing.value.key, size, hash)), staged := None,
               blob := Some(existing.value.id), resource := None, deduplicated := false),
       t.next)
    else
      (upload.(phase := CommitStarted, proof := Some(Proof(path, ObjectOf(path, hash), size, hash)),
               staged := Some(StageKey(path, u, t.next)),
               blob := Some(t.next + 1), resource := None, deduplicated := false),
       t.next + 2)
  }

  /** `ensure_commit_quota`. */
  ghost predicate CommitOverQuota(t: Tables, account: Id)
    requires account in t.accounts
  {
    OverQuota(t.accounts[account].quota, Used(t, account) + Total(OpenReservations(t, account)))
  }

  /** The transaction of `begin_commit`. */
  ghost function BeginCommit(t: Tables, u: Id): (Tables, BeginReply) {
    if u !in t.uploads then (t, BeginConflict)
    else if t.uploads[u].account !in t.accounts then (t, BeginNoAccount)
    else if && LoadCandidate(t, t.uploads[u].account, t.uploads[u].manifest.hash).None?
            && CommitOverQuota(t, t.uploads[u].account) then (t, BeginNoSpace)
    else if t.uploads[u].phase != Receiving then (t, BeginConflict)
    else
      var (row, next) := BegunRow(t, u);
      (PutRow(t, u, row).(next := next), Begun)
  }

  /** `ready_commit`: refuses a record whose proof is incomplete, stale or not its own. */
  function ReadyCommit(t: Tables, u: Id): Option<Ready>
    requires u in t.uploads
  {
    var upload := t.uploads[u];
    if && upload.account in t.accounts && upload.proof.Some? && upload.blob.Some?
       && upload.proof.value.path == t.accounts[upload.account].path
       && upload.proof.value.size == upload.manifest.size
       && upload.proof.value.hash == upload.manifest.hash
    then
      var proof := upload.proof.value;
      Some(Ready(upload.account, upload.asset, upload.source, upload.manifest, upload.staged,
                 proof.final, proof.path, proof.size, proof.hash, upload.blob.value))
    else None
  }

  function ToFinalizing(t: Tables, u: Id): (Tables, bool) {
    if u in t.uploads && t.uploads[u].phase == CommitStarted
    then (PutRow(t, u, t.uploads[u].(phase := Finalizing)), true)
    else (t, false)
  }

  function MarkUnknown(t: Tables, u: Id): Tables {
    if u in t.uploads then PutRow(t, u, t.uploads[u].(phase := Unknown)) else t
  }

  function MarkFailed(t: Tables, u: Id): Tables {
    if u in t.uploads then PutRow(t, u, t.uploads[u].(phase := Failed(false))) else t
  }

  /** A newer upload of the same source resource is already committed. */
  predicate NewerCommitted(t: Tables, u: Id)
    requires u in t.uploads
  {
    exists v :: v in t.uploads && t.uploads[v].account == t.uploads[u].account
      && Slot(t.uploads[v]) == Slot(t.uploads[u])
      && t.uploads[v].rowid > t.uploads[u].rowid && t.uploads[v].phase == Committed
  }

  datatype RecordReply =
    | Recorded(resource: Id, deduplicated: bool)
    | NeedsCheck(candidate: Candidate)
    | PathChanged | Superseded | Refused

  /** INSERT .. ON CONFLICT DO NOTHING. */
  function InsertBlob(t: Tables, r: Ready): Tables {
    if (r.account, r.hash) in t.content || r.proposed in t.blobs then t
    else t.(blobs := t.blobs[r.proposed := Blob(r.account, r.hash, r.size, r.final)],
            content := t.content[(r.account, r.hash) := r.proposed])
  }

  predicate Approved(r: Ready, approved: Option<Candidate>, actual: Candidate) {
    || (actual.id == r.proposed && actual.key == r.final)
    || (approved.Some? && approved.value.id == actual.id && approved.value.key == actual.key)
  }

  function OvertakenRow(upload: Upload): Upload {
    upload.(row := Dead, phase := Failed(true), blob := None, resource := None, staged := None)
  }

  function CommittedRow(upload: Upload, actual: Candidate, resource: Id, deduplicated: bool): Upload {
    upload.(row := Complete, phase := Committed, blob := Some(actual.id), resource := Some(resource),
            proof := if upload.proof.Some? then Some(upload.proof.value.(final := actual.key)) else None,
            deduplicated := deduplicated)
  }

  /** `commit_metadata`. */
  function RecordMetadata(t: Tables, u: Id, r: Ready, approved: Option<Candidate>): (result: (Tables, RecordReply))
    ensures result.0.uploads.Keys == t.uploads.Keys
  {
    if r.account !in t.accounts || t.accounts[r.account].path != r.path then (t, PathChanged)
    else
      var t1 := InsertBlob(t, r);
      var actual := LoadCandidate(t1, r.account, r.hash);
      if actual.None? then (t, Refused)
      else if !Approved(r, approved, actual.value) then (t, NeedsCheck(actual.value))
      else if u !in t.uploads || t.uploads[u].phase != Finalizing then (t, Refused)
      else if NewerCommitted(t, u) then (PutRow(t1, u, OvertakenRow(t.uploads[u])), Superseded)
      else if r.asset !in t.assets then (t, Refused)
      else
        var slot := (r.asset, r.source);
        var resource := ResourceRow(t1, slot);
        var deduplicated := r.staged.None? || actual.value.id != r.proposed;
        (PutRow(UpsertResource(t1, slot, actual.value.id), u,
                CommittedRow(t.uploads[u], actual.value, resource, deduplicated)),
         Recorded(resource, deduplicated))
  }

  /** `cleanup_committed_stage`. */
  function TidyStage(t: Tables, u: Id, stage: Key): Tables {
    var t1 := t.(files := t.files - {stage});
    if u in t.uploads && t.uploads[u].phase == Committed && t.uploads[u].staged == Some(stage)
    then PutRow(t1, u, t.uploads[u].(staged := None))
    else t1
  }

  /* ---- Library and administration ---- */

  function SetTrashed(t: Tables, asset: Id, trashed: bool): Tables {
    if asset in t.assets then t.(assets := t.assets[asset := t.assets[asset].(trashed := trashed)]) else t
  }

  /** `delete_asset_permanently`: the asset row with its resources and uploads (ON DELETE CASCADE). */
  function DeleteAsset(t: Tables, asset: Id): Tables {
    if asset in t.assets && t.assets[asset].trashed && (exists k :: k in t.resources && k.0 == asset)
    then t.(assets := t.assets - {asset},
            resources := map k | k in t.resources && k.0 != asset :: t.resources[k],
            uploads := map u | u in t.uploads && t.uploads[u].asset != asset :: t.uploads[u])
    else t
  }

  predicate Referenced(t: Tables, blob: Id) {
    || (exists k :: k in t.resources && t.resources[k].blob == blob)
    || (exists u :: u in t.uploads && t.uploads[u].blob == Some(blob))
  }

  /** One round of `reconcile_orphan_blobs`: the row and its object go together. */
  function Reclaim(t: Tables, blob: Id): Tables {
    if blob in t.blobs && !Referenced(t, blob) then
      var row := t.blobs[blob];
      t.(blobs := t.blobs - {blob}, content := t.content - {(row.account, row.hash)}, files := t.files - {row.key})
    else t
  }

  /** The same round when the unlink took effect and the row came back. */
  function ReclaimTorn(t: Tables, blob: Id): Tables {
    if blob in t.blobs && !Referenced(t, blob) then t.(files := t.files - {t.blobs[blob].key}) else t
  }

  function ReferencedStages(t: Tables): set<Key> {
    set u | u in t.uploads && t.uploads[u].staged.Some? :: t.uploads[u].staged.value
  }

  /** `cleanup_orphan_staging` for one account directory. */
  function CleanStages(t: Tables, path: AccountPath): Tables {
    t.(files := map k | k in t.files
                        && !(k.StageKey? && k.path == path && k !in ReferencedStages(t)) :: t.files[k])
  }

  /** `validate_account_path` or `ensure_unique_path` turns the path down. */
  predicate PathRefused(t: Tables, path: AccountPath, except: Option<Id>) {
    || !StorageKeys.Assignable(path)
    || exists a :: a in t.accounts && except != Some(a) && StorageKeys.Overlap(path, t.accounts[a].path)
  }

  function CreateAccount(t: Tables, path: AccountPath, quota: nat): Tables {
    if PathRefused(t, path, None) || quota > MAX_JSON_INTEGER then t
    else t.(accounts := t.accounts[t.next := Account(path, quota)], next := t.next + 1)
  }

  /** Media or active uploads pin the storage path (`update_user`). */
  predicate PathPinned(t: Tables, account: Id) {
    || (exists b :: b in t.blobs && t.blobs[b].account == account)
    || (exists u :: u in t.uploads && t.uploads[u].account == account
          && (t.uploads[u].phase in {Receiving, CommitStarted, Finalizing, Unknown}
              || t.uploads[u].staged.Some?))
  }

  function UpdateAccount(t: Tables, account: Id, path: AccountPath, quota: nat): Tables {
    if account !in t.accounts || PathRefused(t, path, Some(account)) || quota > MAX_JSON_INTEGER then t
    else if t.accounts[account].path != path && PathPinned(t, account) then t
    else t.(accounts := t.accounts[account := Account(path, quota)])
  }

  predicate AccountInUse(t: Tables, account: Id) {
    || (exists a :: a in t.assets && t.assets[a].account == account)
    || (exists u :: u in t.uploads && t.uploads[u].account == account)
  }

  /** `remove_instance` on an unpaired instance without assets or uploads. */
  function RemoveAccount(t: Tables, account: Id): Tables {
    if AccountInUse(t, account) then t
    else t.(accounts := t.accounts - {account},
            blobs := map b | b in t.blobs && t.blobs[b].account != account :: t.blobs[b],
            content := map k | k in t.content && k.0 != account :: t.content[k])
  }
}

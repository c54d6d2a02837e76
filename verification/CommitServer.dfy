/** The server as it runs: tables and files updated in place by one request at a time, without
    storage errors. Each method is proved against the transaction or the request it performs. */
module CommitServer {
  import opened Prelude
  import opened Content
  import opened Durable
  import opened Session
  import opened TableInvariant
  import opened TableProofs
  import opened ServerProofs
  import opened Settling
  import opened RequestSteps
  import opened Opening
  import opened Restart

  /** Bytes read from a file at a time. */
  const BUFFER: nat := 1024 * 1024

  datatype PartReply = NoPart | AlreadyCommitted | Frozen | TooLarge | BadPart | PartConflict | Stored

  function Flat(chunks: seq<Bytes>): Bytes {
    if chunks == [] then [] else Flat(chunks[..|chunks| - 1]) + chunks[|chunks| - 1]
  }

  lemma FlatGrows(chunks: seq<Bytes>, n: nat)
    requires n <= |chunks|
    ensures |Flat(chunks[..n])| <= |Flat(chunks)|
    decreases |chunks|
  {
    if n < |chunks| {
      assert chunks[..|chunks| - 1][..n] == chunks[..n];
      FlatGrows(chunks[..|chunks| - 1], n);
    } else {
      assert chunks[..n] == chunks;
    }
  }

  class Server {
    var accounts: map<Id, Account>
    var assets: map<Id, Asset>
    var blobs: map<Id, Blob>
    var content: map<ContentKey, Id>
    var resources: map<ResourceKey, Resource>
    var uploads: map<Id, Upload>
    var files: Files
    var next: Id

    /** The durable state. */
    function View(): Tables
      reads this
    {
      Tables(accounts, assets, blobs, content, resources, uploads, files, next)
    }

    constructor ()
      ensures View() == EMPTY
    {
      accounts, assets, blobs, content := map[], map[], map[], map[];
      resources, uploads, files, next := map[], map[], map[], 0;
    }

    /* ---- Files ---- */

    /** `existing_file_matches`: read the file through a buffer, adding up size and hash. */
    method FileMatches(key: Key, size: nat, hash: Blake3) returns (seen: ObjectState)
      ensures seen == Inspect(files, key, size, hash)
    {
      if key !in files {
        return Missing;
      }
      var file := files[key];
      var at, total := 0, 0;
      var hashed: Bytes := [];
      while at < |file|
        invariant at <= |file| && total == at && hashed == file[..at]
      {
        var read := if |file| - at < BUFFER then |file| - at else BUFFER;
        total := total + read;
        hashed := hashed + file[at..at + read];
        at := at + read;
      }
      assert hashed == file;
      return if total == size && Digest(hashed) == hash then Matches else Mismatch;
    }

    /** Whether the file matches. */
    method Holding(key: Key, size: nat, hash: Blake3) returns (matches: bool)
      ensures matches == Holds(files, key, size, hash)
    {
      var seen := FileMatches(key, size, hash);
      return seen == Matches;
    }

    /** The loop of `put_part` on storage: the body, chunk by chunk, against its manifest entry. */
    method ReceivePart(spec: PartSpec, body: seq<Bytes>, maxPart: nat) returns (reply: PartReply, written: Bytes)
      ensures reply in {Stored, TooLarge, BadPart}
      ensures reply == TooLarge ==> |Flat(body)| > maxPart
      ensures reply == BadPart ==> !Fits(Flat(body), spec.size, spec.hash)
      ensures reply == Stored ==> written == Flat(body) && Fits(written, spec.size, spec.hash) && |written| <= maxPart
    {
      var total, n := 0, 0;
      written := [];
      while n < |body|
        invariant n <= |body| && written == Flat(body[..n]) && total == |written|
        invariant total <= maxPart && total <= spec.size
      {
        assert body[..n + 1][..n] == body[..n];
        FlatGrows(body, n + 1);
        total := total + |body[n]|;
        if total > maxPart {
          return TooLarge, [];
        }
        if total > spec.size {
          return BadPart, [];
        }
        written := written + body[n];
        n := n + 1;
      }
      assert body[..n] == body;
      if total != spec.size || Digest(written) != spec.hash {
        return BadPart, [];
      }
      return Stored, written;
    }

    /** `put_part` of the routes and of the storage: a body that fits its manifest entry is linked
        under the part's name, unless that name is taken, and recorded as received. */
    method PutPart(u: Id, index: nat, body: seq<Bytes>, maxPart: nat) returns (reply: PartReply)
      modifies this
      ensures reply == NoPart <==> u !in old(uploads) || index >= |old(uploads)[u].manifest.parts|
      ensures reply != NoPart ==>
                var row := old(uploads)[u];
                var spec := row.manifest.parts[index];
                var part := PartKey(u, index);
                && (reply == AlreadyCommitted <==> row.phase == Committed)
                && (reply == Frozen <==> row.phase !in {Committed, Receiving})
                && (reply == TooLarge ==> |Flat(body)| > maxPart)
                && (reply == BadPart ==> !Fits(Flat(body), spec.size, spec.hash))
                && (reply == PartConflict ==>
                      Fits(Flat(body), spec.size, spec.hash) && part in old(files)
                      && !Holds(old(files), part, spec.size, spec.hash))
                && (reply == Stored ==>
                      && row.phase == Receiving && |Flat(body)| <= maxPart
                      && uploads == old(uploads)[u := row.(received := row.received + {index})]
                      && Holds(files, part, spec.size, spec.hash) && files - {part} == old(files) - {part}
                      && (part in old(files) ==> files == old(files)))
      ensures reply != Stored ==> View() == old(View())
      ensures reply == Stored ==> View() == MarkPart(StorePart(old(View()), u, index, Flat(body)), u, index)
    {
      if u !in uploads || index >= |uploads[u].manifest.parts| {
        return NoPart;
      }
      var spec := uploads[u].manifest.parts[index];
      if uploads[u].phase == Committed {
        return AlreadyCommitted;
      }
      if uploads[u].phase != Receiving {
        return Frozen;
      }
      var received, written := ReceivePart(spec, body, maxPart);
      if received != Stored {
        return received;
      }
      var part := PartKey(u, index);
      if part in files {
        var seen := FileMatches(part, spec.size, spec.hash);
        if seen != Matches {
          return PartConflict;
        }
      } else {
        files := files[part := written];
      }
      uploads := uploads[u := uploads[u].(received := uploads[u].received + {index})];
      return Stored;
    }

    /** The inner loop of `assemble_commit`: append a part to the stage through a buffer. */
    method AppendPart(part: Key, stage: Key) returns (read: Bytes)
      requires part in files && stage in files && part != stage
      modifies this`files
      ensures read == old(files)[part]
      ensures files == old(files)[stage := old(files)[stage] + read]
    {
      var input := files[part];
      ghost var held := files[stage];
      var at := 0;
      read := [];
      assert held + read == held;
      while at < |input|
        invariant at <= |input| && read == input[..at]
        invariant files == old(files)[stage := held + read]
      {
        var n := if |input| - at < BUFFER then |input| - at else BUFFER;
        assert (held + read) + input[at..at + n] == held + (read + input[at..at + n]);
        read := read + input[at..at + n];
        files := files[stage := files[stage] + input[at..at + n]];
        at := at + n;
      }
    }

    /** `assemble_commit`: keep a stage that already holds the content, or write the parts into a new
        one, adding up sizes and hashes of each part and of the whole. */
    method AssembleCommit(u: Id, r: Ready) returns (ok: bool)
      requires r.staged.Some? && r.staged.value.StageKey?
      modifies this`files
      ensures files - {StageOf(r)} == old(files) - {StageOf(r)}
      ensures if ok then Holds(files, StageOf(r), r.size, r.hash) else StageOf(r) !in files
      ensures (files, ok) == if Holds(old(files), StageOf(r), r.size, r.hash) then (old(files), true)
                             else Assembly(old(files)[StageOf(r) := []], u, r, 0, [])
    {
      var stage := StageOf(r);
      var kept := Holding(stage, r.size, r.hash);
      if kept {
        return true;
      }
      files := files[stage := []];
      var read: Bytes, total, k := [], 0, 0;
      while k < |r.manifest.parts|
        invariant k <= |r.manifest.parts| && stage in files && files[stage] == read && total == |read|
        invariant files - {stage} == old(files) - {stage}
        invariant Assembly(files, u, r, k, read) == Assembly(old(files)[stage := []], u, r, 0, [])
      {
        if PartKey(u, k) !in files {
          files := files - {stage};
          return false;
        }
        ghost var before := files;
        var partRead := AppendPart(PartKey(u, k), stage);
        assert files - {stage} == before - {stage};
        if |partRead| != r.manifest.parts[k].size || Digest(partRead) != r.manifest.parts[k].hash {
          files := files - {stage};
          return false;
        }
        read := read + partRead;
        total := total + |partRead|;
        k := k + 1;
      }
      if total != r.size || Digest(read) != r.hash {
        files := files - {stage};
        return false;
      }
      return true;
    }

    /* ---- Sums over rows ---- */

    /** `SUM(stored_size)` over an account's blobs. */
    method UsedBytes(account: Id) returns (sum: nat)
      ensures sum == Used(View(), account)
    {
      var rest := blobs;
      sum := 0;
      while rest.Keys != {}
        invariant sum + Total(SizesOf(rest, account)) == Used(View(), account)
        decreases |rest|
      {
        var b :| b in rest.Keys;
        SizesWithout(rest, b, account);
        if rest[b].account == account {
          sum := sum + rest[b].size;
        }
        rest := rest - {b};
      }
      assert SizesOf(rest, account) == map[];
    }

    /** `SUM(expected_size)` over the parts of an account's uploads that hold a reservation; the check
        at commit time leaves out uploads in an unknown state. */
    method ReservedBytes(account: Id, unknown: bool) returns (sum: nat)
      ensures sum == Total(HeldBy(uploads, account, unknown))
    {
      var rest := uploads;
      sum := 0;
      while rest.Keys != {}
        invariant sum + Total(HeldBy(rest, account, unknown)) == Total(HeldBy(uploads, account, unknown))
        decreases |rest|
      {
        var u :| u in rest.Keys;
        HeldWithout(rest, u, account, unknown);
        if rest[u].account == account && Reserving(rest[u]) && (unknown || rest[u].phase != Unknown) {
          var bytes := SumParts(rest[u].manifest.parts);
          sum := sum + bytes;
        }
        rest := rest - {u};
      }
      assert HeldBy(rest, account, unknown) == map[];
    }

    method SumParts(parts: seq<PartSpec>) returns (sum: nat)
      ensures sum == PartSizes(parts)
    {
      sum := 0;
      var n := 0;
      while n < |parts|
        invariant n <= |parts| && sum == PartSizes(parts[..n])
      {
        assert parts[..n + 1][..n] == parts[..n];
        sum := sum + parts[n].size;
        n := n + 1;
      }
      assert parts[..n] == parts;
    }

    /** One more than the largest rowid. */
    method NextRowid() returns (rowid: nat)
      ensures rowid == NextRow(View())
    {
      var rest := uploads;
      rowid := 0;
      while rest.Keys != {}
        invariant rest.Keys <= uploads.Keys
        invariant forall u :: u in uploads && u !in rest ==> uploads[u].rowid < rowid
        invariant rowid > 0 ==> exists u :: u in uploads && uploads[u].rowid + 1 == rowid
        decreases |rest|
      {
        var u :| u in rest.Keys;
        if uploads[u].rowid >= rowid {
          rowid := uploads[u].rowid + 1;
        }
        rest := rest - {u};
      }
      OneNextRow(uploads, rowid, NextRow(View()));
    }

    /* ---- Transactions ---- */

    /** The validation of `create_upload`, part by part. */
    method ValidateManifest(manifest: Manifest, maxPart: nat) returns (valid: bool)
      ensures valid == ValidManifest(manifest, maxPart)
    {
      if manifest.parts == [] {
        return false;
      }
      var n := 0;
      while n < |manifest.parts|
        invariant n <= |manifest.parts|
        invariant forall i :: 0 <= i < n ==> && (manifest.parts[i].size == 0 ==> manifest.size == 0)
                                             && manifest.parts[i].size <= maxPart
      {
        if (manifest.parts[n].size == 0 && manifest.size != 0) || manifest.parts[n].size > maxPart {
          return false;
        }
        n := n + 1;
      }
      var total := SumParts(manifest.parts);
      return total == manifest.size && total <= U64_MAX;
    }

    /** `upsert_asset`. */
    method UpsertAsset(account: Id, asset: Option<Id>) returns (row: Id)
      modifies this`assets, this`next
      ensures View() == Durable.UpsertAsset(old(View()), account, asset)
      ensures row == AssetRow(old(View()), account, asset)
    {
      row := AssetRow(View(), account, asset);
      if row !in assets {
        assets := assets[row := Asset(account, false)];
        next := next + 1;
      }
    }

    /** The query for an upload of the slot with this content that is under way. */
    method FindUnderWay(account: Id, slot: ResourceKey, hash: Blake3) returns (found: Option<Id>)
      ensures found.Some? ==> UnderWay(View(), found.value, account, slot, hash)
      ensures found.None? ==> forall u :: !UnderWay(View(), u, account, slot, hash)
    {
      if u :| u in uploads && UnderWay(View(), u, account, slot, hash) {
        return Some(u);
      }
      return None;
    }

    /** `ensure_quota`: whether the account has room for so many more bytes. */
    method EnsureQuota(account: Id, requested: nat) returns (fits: bool)
      requires account in accounts
      ensures fits == !OverQuota(accounts[account].quota, Charge(View(), account) + requested)
    {
      if accounts[account].quota == 0 {
        return true;
      }
      var used := UsedBytes(account);
      var reserved := ReservedBytes(account, true);
      return !OverQuota(accounts[account].quota, used + reserved + requested);
    }

    /** The transaction of `create_upload`: it finds the content stored, or an upload of it under way, or
        opens one. */
    method OpenUpload(account: Id, asset: Option<Id>, source: string, manifest: Manifest, maxPart: nat)
      returns (reply: OpenReply, found: Option<Id>)
      modifies this`assets, this`uploads, this`next
      ensures (View(), reply) == Durable.OpenUpload(old(View()), account, asset, source, manifest, maxPart)
      ensures reply == Resumed ==>
                && found.Some?
                && UnderWay(View(), found.value, account, (AssetRow(old(View()), account, asset), source),
                            manifest.hash)
    {
      hide ActiveTwin, UnderWay, ValidManifest, RowsBelow, IsNextRow, Durable.UpsertAsset, AssetRow, OverQuota, Charge;
      found := None;
      var valid := ValidateManifest(manifest, maxPart);
      if !valid {
        return BadManifest, None;
      }
      ValidSize(manifest, maxPart);
      if account !in accounts {
        return NoAccount, None;
      }
      if (account, manifest.hash) in content && content[(account, manifest.hash)] in blobs {
        var blob := content[(account, manifest.hash)];
        return Duplicate(blob, blobs[blob]), None;
      }
      var row := AssetRow(View(), account, asset);
      var slot := (row, source);
      found := FindUnderWay(account, slot, manifest.hash);
      ghost var t1 := Durable.UpsertAsset(View(), account, asset);
      UpsertAssetOnly(View(), account, asset);
      UnderWayIs(View(), t1, account, slot, manifest.hash);
      if found.None? {
        if manifest.size > I64_MAX {
          return BadManifest, None;
        }
        SameCharge(View(), t1, account);
        var fits := EnsureQuota(account, manifest.size);
        if !fits {
          return NoSpace, None;
        }
      }
      var rowid := NextRowid();
      NextRowOf(View(), t1);
      ghost var before := View();
      row := UpsertAsset(account, asset);
      if found.Some? {
        UnderWayStays(before, View(), found.value, account, slot, manifest.hash);
        return Resumed, found;
      }
      reply := Opened(next);
      uploads := uploads[next := NewUpload(account, row, source, rowid, manifest)];
      next := next + 1;
    }

    /** The parts of an upload that are not received, in order. */
    method MissingPartsOf(u: Id) returns (missing: seq<nat>)
      requires u in uploads
      ensures MissingAre(uploads[u], missing)
    {
      missing := [];
      var n := 0;
      while n < |uploads[u].manifest.parts|
        invariant n <= |uploads[u].manifest.parts|
        invariant forall i: nat :: i in missing <==> i < n && i !in uploads[u].received
        invariant forall i :: 0 <= i < |missing| ==> missing[i] < n
        invariant forall i, j :: 0 <= i < j < |missing| ==> missing[i] < missing[j]
      {
        if n !in uploads[u].received {
          missing := missing + [n];
        }
        n := n + 1;
      }
    }

    /** `create_upload` when the content is not stored: the upload the client is to go on with, and the
        parts it still has to send. */
    method CreateUpload(account: Id, asset: Option<Id>, source: string, manifest: Manifest, maxPart: nat)
      returns (reply: OpenReply, upload: Option<Id>, missing: seq<nat>)
      modifies this`assets, this`uploads, this`next
      ensures (View(), reply) == Durable.OpenUpload(old(View()), account, asset, source, manifest, maxPart)
      ensures upload.Some? <==> reply.Resumed? || reply.Opened?
      ensures upload.Some? ==> upload.value in uploads && MissingAre(uploads[upload.value], missing)
      ensures reply.Resumed? ==>
                UnderWay(View(), upload.value, account, (AssetRow(old(View()), account, asset), source), manifest.hash)
      ensures reply.Opened? ==> upload == Some(reply.upload)
    {
      hide ValidManifest, Durable.UpsertAsset, AssetRow, ActiveTwin;
      upload, missing := None, [];
      var found: Option<Id>;
      reply, found := OpenUpload(account, asset, source, manifest, maxPart);
      if reply.Resumed? {
        upload := found;
      } else if reply.Opened? {
        upload := Some(reply.upload);
      }
      if upload.Some? {
        missing := MissingPartsOf(upload.value);
      }
    }

    /** The end of `create_upload` when the content is stored: the row is checked again, then a
        resource is attached to it. */
    method AttachDuplicate(asset: Option<Id>, source: string, blob: Id, row: Blob) returns (attached: bool)
      modifies this`assets, this`resources, this`next
      ensures (View(), attached) == Durable.AttachDuplicate(old(View()), asset, source, blob, row)
    {
      attached := blob in blobs && blobs[blob] == row;
      if attached {
        var id := UpsertAsset(row.account, asset);
        var resource := UpsertResource((id, source), blob);
      }
    }

    /** `delete_asset_permanently`: the row of a trashed asset, and with it its resources and uploads. */
    method DeleteAsset(asset: Id) returns (deleted: bool)
      modifies this`assets, this`resources, this`uploads
      ensures View() == Durable.DeleteAsset(old(View()), asset)
      ensures deleted == (old(View()) != View())
    {
      deleted := asset in assets && assets[asset].trashed && exists k :: k in resources && k.0 == asset;
      if deleted {
        assets := assets - {asset};
        resources := map k | k in resources && k.0 != asset :: resources[k];
        uploads := map u | u in uploads && uploads[u].asset != asset :: uploads[u];
      }
    }

    /** `update_user`: a new path must be free, and nothing may pin the old one. */
    method UpdateAccount(account: Id, path: AccountPath, quota: nat)
      modifies this`accounts
      ensures View() == Durable.UpdateAccount(old(View()), account, path, quota)
    {
      if account !in accounts || PathRefused(View(), path, Some(account)) || quota > MAX_JSON_INTEGER {
        return;
      }
      if accounts[account].path != path && PathPinned(View(), account) {
        return;
      }
      accounts := accounts[account := Account(path, quota)];
    }

    method MarkUnknown(u: Id)
      modifies this`uploads
      ensures View() == Durable.MarkUnknown(old(View()), u)
    {
      if u in uploads {
        uploads := uploads[u := uploads[u].(phase := Unknown)];
      }
    }

    method MarkFailed(u: Id)
      modifies this`uploads
      ensures View() == Durable.MarkFailed(old(View()), u)
    {
      if u in uploads {
        uploads := uploads[u := uploads[u].(phase := Failed(false))];
      }
    }

    /** `transition_to_finalizing`. */
    method ToFinalizing(u: Id) returns (moved: bool)
      modifies this`uploads
      ensures (View(), moved) == Durable.ToFinalizing(old(View()), u)
    {
      moved := u in uploads && uploads[u].phase == CommitStarted;
      if moved {
        uploads := uploads[u := uploads[u].(phase := Finalizing)];
      }
    }

    /** The transaction of `begin_commit`: join the stored content or propose a blob, a stage and an
        object. */
    method BeginCommit(u: Id) returns (reply: BeginReply)
      modifies this`uploads, this`next
      ensures (View(), reply) == Durable.BeginCommit(old(View()), u)
    {
      if u !in uploads {
        return BeginConflict;
      }
      var upload := uploads[u];
      if upload.account !in accounts {
        return BeginNoAccount;
      }
      var path := accounts[upload.account].path;
      var existing := LoadCandidate(View(), upload.account, upload.manifest.hash);
      if existing.None? {
        var used := UsedBytes(upload.account);
        var reserved := ReservedBytes(upload.account, false);
        if OverQuota(accounts[upload.account].quota, used + reserved) {
          return BeginNoSpace;
        }
      }
      if upload.phase != Receiving {
        return BeginConflict;
      }
      var row := upload.(resource := None, deduplicated := false);
      if existing.Some? {
        row := row.(phase := Finalizing, staged := None, blob := Some(existing.value.id),
                    proof := Some(Proof(path, existing.value.key, upload.manifest.size, upload.manifest.hash)));
      } else {
        var key := ObjectOf(path, upload.manifest.hash);
        row := row.(phase := CommitStarted, staged := Some(StageKey(path, u, next)), blob := Some(next + 1),
                    proof := Some(Proof(path, key, upload.manifest.size, upload.manifest.hash)));
        next := next + 2;
      }
      uploads := uploads[u := row];
      return Begun;
    }

    /** The insert of `commit_metadata`, ON CONFLICT DO NOTHING, as the transaction sees it. */
    method InsertedRows(r: Ready) returns (rows: map<Id, Blob>, index: map<ContentKey, Id>)
      ensures View().(blobs := rows, content := index) == InsertBlob(View(), r)
    {
      rows, index := blobs, content;
      if (r.account, r.hash) !in content && r.proposed !in blobs {
        rows := rows[r.proposed := Blob(r.account, r.hash, r.size, r.final)];
        index := index[(r.account, r.hash) := r.proposed];
      }
    }

    /** `upsert_resource`: a new resource, or the slot's own with another blob. */
    method UpsertResource(slot: ResourceKey, blob: Id) returns (resource: Id)
      modifies this`resources, this`next
      ensures View() == Durable.UpsertResource(old(View()), slot, blob)
      ensures resource == ResourceRow(old(View()), slot)
    {
      if slot in resources {
        resource := resources[slot].id;
      } else {
        resource := next;
        next := next + 1;
      }
      resources := resources[slot := Resource(resource, blob)];
    }

    /** `commit_metadata`: insert the blob row unless there is one, approve the row that is there,
        attach the resource, commit the upload. The changes take effect together or not at all. */
    method CommitMetadata(u: Id, r: Ready, approved: Option<Candidate>) returns (reply: RecordReply)
      modifies this`blobs, this`content, this`resources, this`uploads, this`next
      ensures (View(), reply) == RecordMetadata(old(View()), u, r, approved)
    {
      hide NewerCommitted, Approved, OvertakenRow, CommittedRow, InsertBlob, Durable.UpsertResource, ResourceRow;
      if r.account !in accounts || accounts[r.account].path != r.path {
        return PathChanged;
      }
      var blobs1, content1 := InsertedRows(r);
      if (r.account, r.hash) !in content1 || content1[(r.account, r.hash)] !in blobs1 {
        return Refused;
      }
      var id := content1[(r.account, r.hash)];
      var actual := Candidate(id, blobs1[id].key, blobs1[id].size, blobs1[id].hash);
      if !Approved(r, approved, actual) {
        return NeedsCheck(actual);
      }
      if u !in uploads || uploads[u].phase != Finalizing {
        return Refused;
      }
      if NewerCommitted(View(), u) {
        blobs, content, uploads := blobs1, content1, uploads[u := OvertakenRow(uploads[u])];
        return Superseded;
      }
      if r.asset !in assets {
        return Refused;
      }
      var deduplicated := r.staged.None? || id != r.proposed;
      blobs, content := blobs1, content1;
      var resource := UpsertResource((r.asset, r.source), id);
      uploads := uploads[u := CommittedRow(uploads[u], actual, resource, deduplicated)];
      return Recorded(resource, deduplicated);
    }

    /** `cleanup_committed_stage`. */
    method TidyStage(u: Id, stage: Key)
      modifies this`files, this`uploads
      ensures View() == Durable.TidyStage(old(View()), u, stage)
    {
      files := files - {stage};
      if u in uploads && uploads[u].phase == Committed && uploads[u].staged == Some(stage) {
        uploads := uploads[u := uploads[u].(staged := None)];
      }
    }

    /* ---- Completion ---- */

    /** `validate_blob_candidate`. */
    method ValidateCandidate(u: Id, r: Ready, c: Candidate) returns (valid: bool)
      modifies this`uploads
      ensures valid == (c.size == r.size && c.hash == r.hash && Holds(old(files), c.key, r.size, r.hash))
      ensures View() == if valid then old(View()) else Durable.MarkUnknown(old(View()), u)
    {
      valid := false;
      if c.size == r.size && c.hash == r.hash {
        valid := Holding(c.key, r.size, r.hash);
      }
      if !valid {
        MarkUnknown(u);
      }
    }

    /** `commit_metadata_with_race_retry`: three rounds, then give up. */
    method RecordWithRetry(u: Id, r: Ready) returns (reply: Reply)
      modifies this
      ensures (View(), reply) == Drive(old(View()), u, Looking(r, 0, None))
    {
      hide Drive, RecordMetadata, Durable.TidyStage;
      var approved: Option<Candidate> := None;
      var round := 0;
      while round < ROUNDS
        invariant round <= ROUNDS
        invariant round < ROUNDS ==>
                    Drive(View(), u, Looking(r, round, approved)) == Drive(old(View()), u, Looking(r, 0, None))
        invariant round == ROUNDS ==> (View(), Exhausted) == Drive(old(View()), u, Looking(r, 0, None))
      {
        RoundStep(View(), u, r, round, approved);
        var found := LoadCandidate(View(), r.account, r.hash);
        if found.Some? {
          var valid := ValidateCandidate(u, r, found.value);
          if !valid {
            return NeedsReview;
          }
          approved := found;
        }
        ghost var before := View();
        RecordingStep(before, u, r, round, approved);
        var recorded := CommitMetadata(u, r, approved);
        match recorded {
          case Recorded(resource, deduplicated) =>
            if r.staged.Some? {
              TidyStage(u, r.staged.value);
            }
            return Ok(resource, r.asset, deduplicated);
          case NeedsCheck(c) =>
            var valid := ValidateCandidate(u, r, c);
            if !valid {
              return NeedsReview;
            }
            approved := Some(c);
          case PathChanged =>
            MarkUnknown(u);
            return NeedsReview;
          case Superseded =>
            if r.staged.Some? {
              files := files - {r.staged.value};
            }
            return Overtaken;
          case Refused =>
            return Changed;
        }
        round := round + 1;
      }
      return Exhausted;
    }

    /** From `finalizing`: link the stage under the final key unless the object is there, then record. */
    method Publish(u: Id, r: Ready) returns (reply: Reply)
      modifies this
      ensures (View(), reply) == Drive(old(View()), u, Rechecking(r))
    {
      hide Drive, Durable.MarkUnknown;
      RecheckStep(View(), u, r);
      var seen := FileMatches(r.final, r.size, r.hash);
      if seen == Missing && r.staged.Some? {
        var staged := Holding(r.staged.value, r.size, r.hash);
        if !staged {
          MarkUnknown(u);
          return NeedsReview;
        }
        // The inspection after the link sees what was linked.
        files := files[r.final := files[r.staged.value]];
      } else if seen != Matches {
        MarkUnknown(u);
        return NeedsReview;
      }
      reply := RecordWithRetry(u, r);
    }

    /** From `commit_started`: assemble unless the object is there, move on, publish. */
    method AssembleAndPublish(u: Id, r: Ready) returns (reply: Reply)
      requires r.staged.Some? ==> r.staged.value.StageKey?
      modifies this
      ensures (View(), reply) == Drive(old(View()), u, CheckingFinal(r))
    {
      hide Drive, Durable.MarkUnknown, Durable.MarkFailed, Durable.ToFinalizing;
      CheckFinalStep(View(), u, r);
      var seen := FileMatches(r.final, r.size, r.hash);
      if seen == Missing && r.staged.Some? {
        OpeningRun(View(), u, r);
        var assembled := AssembleCommit(u, r);
        if !assembled {
          FailingStep(View(), u);
          MarkFailed(u);
          return FailedCommit;
        }
      } else if seen != Matches {
        MarkUnknown(u);
        return NeedsReview;
      }
      AdvancingStep(View(), u, r);
      var moved := ToFinalizing(u);
      if !moved {
        return Changed;
      }
      reply := Publish(u, r);
    }

    /** `validate_committed`. */
    method ValidateCommitted(u: Id, r: Ready, resource: Id, deduplicated: bool) returns (reply: Reply)
      modifies this
      ensures (View(), reply) == Drive(old(View()), u, Confirming(r, resource, deduplicated))
    {
      hide Drive, Durable.MarkUnknown, Durable.TidyStage;
      ConfirmingStep(View(), u, r, resource, deduplicated);
      var valid := false;
      if && r.proposed in blobs && blobs[r.proposed] == Blob(r.account, r.hash, r.size, r.final)
         && (exists k :: k in resources && resources[k].id == resource && k.0 == r.asset)
      {
        valid := Holding(r.final, r.size, r.hash);
      }
      if !valid {
        MarkUnknown(u);
        return NeedsReview;
      }
      if r.staged.Some? {
        TidyStage(u, r.staged.value);
      }
      return Ok(resource, r.asset, deduplicated);
    }

    /** `complete_inner`: the whole request, whatever state the upload is in. */
    method CompleteUpload(u: Id) returns (reply: Reply)
      requires u in uploads && uploads[u].staged.Some? ==> uploads[u].staged.value.StageKey?
      modifies this
      ensures (View(), reply) == Drive(old(View()), u, Loading)
    {
      hide Drive, Durable.MarkUnknown, Durable.MarkFailed, Durable.BeginCommit;
      LoadingStep(View(), u);
      if u !in uploads {
        return NotFound;
      }
      if uploads[u].phase == Receiving {
        CountingStep(View(), u);
        if !SoundManifest(uploads[u].manifest) {
          MarkFailed(u);
          return FailedCommit;
        }
        if !AllReceived(uploads[u]) {
          return MissingParts;
        }
        BeginningStep(View(), u);
        BegunStage(View(), u);
        var begun := BeginCommit(u);
        match begun {
          case BeginNoAccount => return Unauthorized;
          case BeginNoSpace => return QuotaExceeded;
          case BeginConflict => return Changed;
          case Begun =>
        }
        ReloadingStep(View(), u);
      }
      var ready := ReadyCommit(View(), u);
      match uploads[u].phase {
        case Unknown => return NeedsReview;
        case Failed(superseded) => return if superseded then Overtaken else FailedCommit;
        case Receiving => assert false;
        case Committed =>
          if ready.None? || uploads[u].resource.None? {
            MarkUnknown(u);
            return NeedsReview;
          }
          reply := ValidateCommitted(u, ready.value, uploads[u].resource.value, uploads[u].deduplicated);
        case CommitStarted =>
          if ready.None? {
            MarkUnknown(u);
            return NeedsReview;
          }
          reply := AssembleAndPublish(u, ready.value);
        case Finalizing =>
          if ready.None? {
            MarkUnknown(u);
            return NeedsReview;
          }
          reply := Publish(u, ready.value);
      }
    }

    /* ---- Reconciliation ---- */

    /** One round of `reconcile_orphan_blobs`: the row and its object, if nothing refers to it. */
    method Reclaim(b: Id) returns (removed: bool)
      modifies this`blobs, this`content, this`files
      ensures View() == Durable.Reclaim(old(View()), b)
      ensures removed == (b in old(blobs) && !Referenced(old(View()), b))
    {
      removed := b in blobs && !Referenced(View(), b);
      if removed {
        var row := blobs[b];
        blobs, content, files := blobs - {b}, content - {(row.account, row.hash)}, files - {row.key};
      }
    }

    /** The round for one of the orphans `t` had, when those in `gone` have been removed. */
    method ReclaimNext(b: Id, ghost t: Tables, ghost account: Option<Id>, ghost gone: set<Id>)
      requires TablesInv(View()) && View() == Without(t, gone) && b in Orphans(t, account) && b !in gone
      modifies this`blobs, this`content, this`files
      ensures TablesInv(View()) && View() == Without(t, gone + {b})
      ensures |blobs| + 1 == |old(blobs)|
    {
      hide TablesInv, Durable.Reclaim, Orphans, Without, Referenced, ReferencedStages;
      OrphanGone(t, account, gone, b);
      var done := Reclaim(b);
      assert done;
    }

    /** `reconcile_orphan_blobs`: exactly the rows of the chosen account, or of all, that nothing
        refers to go, each with its object. */
    method ReconcileOrphanBlobs(account: Option<Id>) returns (removed: nat)
      requires TablesInv(View())
      modifies this`blobs, this`content, this`files
      ensures TablesInv(View())
      ensures View() == Without(old(View()), Orphans(old(View()), account))
      ensures forall b :: b in old(blobs) ==>
                (b !in blobs <==>
                   && (account.None? || old(blobs)[b].account == account.value)
                   && (forall k :: k in old(resources) ==> old(resources)[k].blob != b)
                   && (forall u :: u in old(uploads) ==> old(uploads)[u].blob != Some(b)))
      ensures forall b :: b in blobs ==> b in old(blobs) && blobs[b] == old(blobs)[b]
      ensures forall k :: k in old(files) ==>
                (k !in files <==> exists b :: b in old(blobs) && b !in blobs && old(blobs)[b].key == k)
      ensures forall k :: k in files ==> k in old(files) && files[k] == old(files)[k]
      ensures removed + |blobs| == |old(blobs)|
    {
      hide TablesInv, Orphans, Without, Moved;
      ghost var t := View();
      var rest := Orphans(View(), account);
      ghost var gone: set<Id> := {};
      removed := 0;
      WithoutNone(t);
      NoneMoved(rest);
      while rest != {}
        invariant Moved(rest, gone, Orphans(t, account))
        invariant TablesInv(View()) && View() == Without(t, gone)
        invariant removed + |blobs| == |t.blobs|
        decreases |rest|
      {
        var b :| b in rest;
        MoveOne(rest, gone, Orphans(t, account), b);
        ReclaimNext(b, t, account, gone);
        removed := removed + 1;
        gone := gone + {b};
        rest := rest - {b};
      }
      AllMoved(gone, Orphans(t, account));
      OrphansGone(t, account);
    }

    /** `cleanup_orphan_staging`: the stages in one account's directory that no upload refers to. */
    method CleanupOrphanStaging(path: AccountPath, referenced: set<Key>) returns (removed: nat)
      modifies this`files
      ensures files == map k | k in old(files) && !(k.StageKey? && k.path == path && k !in referenced) :: old(files)[k]
      ensures removed + |files| == |old(files)|
    {
      var names := set k | k in files && k.StageKey? && k.path == path;
      removed := 0;
      while names != {}
        invariant names <= files.Keys && forall k :: k in names ==> k.StageKey? && k.path == path
        invariant forall k :: k in files ==> k in old(files) && files[k] == old(files)[k]
        invariant forall k :: k in old(files) && k !in names ==>
                    (k in files <==> !(k.StageKey? && k.path == path && k !in referenced))
        invariant removed + |files| == |old(files)|
        decreases |names|
      {
        var k :| k in names;
        if k !in referenced {
          files := files - {k};
          removed := removed + 1;
        }
        names := names - {k};
      }
    }

    /** One upload of `reconcile_all`. */
    method ReconcileUpload(u: Id)
      requires TablesInv(View()) && u in uploads
      modifies this
      ensures TablesInv(View()) && Aside(old(View()), View(), u) && Settled(uploads[u])
      ensures old(Sane(View())) ==> Sane(View()) && Restores(old(uploads)[u], uploads[u])
    {
      hide TablesInv, Drive, Settled, Durable.TidyStage, Sane, Coherent, NewerCommitted;
      if Sane(View()) {
        CompletionRestores(View(), u);
      }
      if uploads[u].phase == Committed {
        TidySettles(View(), u);
        if uploads[u].staged.Some? {
          if Sane(View()) {
            TidyingKeeps(View(), u, uploads[u].staged.value);
          }
          TidyStage(u, uploads[u].staged.value);
        }
      } else {
        CompletionSettles(View(), u);
        RowOf(View(), u);
        var reply := CompleteUpload(u);
      }
    }

    /** The first loop of `reconcile_all`: complete or tidy every upload that was left in between. */
    method ReconcileUploads()
      requires TablesInv(View())
      modifies this
      ensures TablesInv(View()) && uploads.Keys == old(uploads).Keys && accounts == old(accounts)
      ensures forall u :: u in uploads ==> Settled(uploads[u])
      ensures forall u :: u in uploads && Settled(old(uploads)[u]) ==> uploads[u] == old(uploads)[u]
      ensures old(Sane(View())) ==> Restored(old(uploads), View())
    {
      hide TablesInv, Drive, Settled, Sane, Restores, Restored;
      SettledRestores(uploads);
      ghost var sane := Sane(View());
      var rest := set u | u in uploads && !Settled(uploads[u]);
      while rest != {}
        invariant TablesInv(View()) && uploads.Keys == old(uploads).Keys && accounts == old(accounts)
        invariant rest <= uploads.Keys && forall u :: u in rest ==> !Settled(old(uploads)[u])
        invariant forall u :: u in uploads && (u in rest || Settled(old(uploads)[u])) ==> uploads[u] == old(uploads)[u]
        invariant forall u :: u in uploads && u !in rest ==> Settled(uploads[u])
        invariant sane ==> Sane(View())
        invariant sane ==> forall u :: u in uploads && u !in rest ==> Restores(old(uploads)[u], uploads[u])
        decreases |rest|
      {
        var u :| u in rest;
        ReconcileUpload(u);
        rest := rest - {u};
      }
      if sane {
        AllRestored(old(uploads), View());
      }
    }

    /** `reconcile_all`, at startup: afterwards no upload is between phases, no blob row is without a
        reference, and an account's staging directory holds only stages that uploads refer to. */
    method ReconcileAll()
      requires TablesInv(View())
      modifies this
      ensures TablesInv(View())
      ensures forall u :: u in uploads ==> Settled(uploads[u])
      ensures old(Sane(View())) ==> Restored(old(uploads), View())
      ensures forall b :: b in blobs ==> Referenced(View(), b)
      ensures forall k, a :: k in files && k.StageKey? && a in accounts && k.path == accounts[a].path
                ==> k in ReferencedStages(View())
    {
      hide TablesInv, Settled, Referenced, Sane, Restored;
      ghost var sane := Sane(View());
      ReconcileUploads();
      ghost var t := View();
      var removed := ReconcileOrphanBlobs(None);
      ReferencesKept(t, View());
      NoOrphans(t);
      var rest := accounts.Keys;
      var referenced := ReferencedStages(View());
      while rest != {}
        invariant TablesInv(View()) && rest <= accounts.Keys
        invariant uploads == t.uploads && accounts == t.accounts && referenced == ReferencedStages(View())
        invariant forall u :: u in uploads ==> Settled(uploads[u])
        invariant forall b :: b in blobs ==> Referenced(View(), b)
        invariant forall k, a :: k in files && k.StageKey? && a in accounts && a !in rest && k.path == accounts[a].path
                    ==> k in referenced
        decreases |rest|
      {
        var a :| a in rest;
        ghost var before := View();
        CleanStagesKeeps(View(), accounts[a].path);
        var n := CleanupOrphanStaging(accounts[a].path, referenced);
        assert View() == CleanStages(before, accounts[a].path);
        ReferencedSame(before, View());
        rest := rest - {a};
      }
      if sane {
        RestoredStill(old(uploads), t, View());
      }
    }
  }
}

/** The invariant holds in every reachable state of the server. */
module WorldProofs {
  import opened Prelude
  import opened Content
  import opened Durable
  import opened Session
  import opened World
  import opened TableInvariant
  import opened TableProofs
  import opened RequestInvariant
  import opened RequestProofs
  import opened SessionProofs
  import opened ServerProofs

  /* ---- What others do to a request in flight ---- */

  predicate Grown(before: Upload, after: Upload) {
    after == before.(received := after.received) && before.received <= after.received
  }

  predicate UploadsKept(t: Tables, t': Tables) {
    forall u :: u in t'.uploads ==>
      if u in t.uploads then Grown(t.uploads[u], t'.uploads[u])
      else u >= t.next && t'.uploads[u].phase == Receiving
  }

  predicate NoNewStages(t: Tables, t': Tables) {
    forall k :: k in t'.files && k.StageKey? ==> k in t.files && t'.files[k] == t.files[k]
  }

  /** What a request in its window relies on. */
  predicate WindowKept(t: Tables, t': Tables, r: Ready) {
    && (r.final in t.files ==> r.final in t'.files && t'.files[r.final] == t.files[r.final])
    && ((r.account, r.hash) in t.content && t.content[(r.account, r.hash)] in t.blobs ==>
          && (r.account, r.hash) in t'.content && t'.content[(r.account, r.hash)] == t.content[(r.account, r.hash)]
          && t.content[(r.account, r.hash)] in t'.blobs
          && t'.blobs[t.content[(r.account, r.hash)]] == t.blobs[t.content[(r.account, r.hash)]])
  }

  lemma SessionKept(t: Tables, t': Tables, u: Id, pc: Pc)
    requires SessionInv(t, u, pc) && t.next <= t'.next && UploadsKept(t, t') && NoNewStages(t, t')
    requires InWindow(pc) && u in t'.uploads ==> WindowKept(t, t', pc.r)
    ensures SessionInv(t', u, pc)
  {
  }

  lemma DuplicateStays(t: Tables, t': Tables, d: Duplicated)
    requires DuplicateInv(t, d) && t.next <= t'.next && UploadsKept(t, t')
    requires d.blob in t'.blobs ==> d.blob in t.blobs && t.blobs[d.blob] == t'.blobs[d.blob]
    requires d.checked && d.blob in t'.blobs && t'.blobs[d.blob] == d.row && d.row.key in t.files ==>
               d.row.key in t'.files && t'.files[d.row.key] == t.files[d.row.key]
    ensures DuplicateInv(t', d)
  {
  }

  /** Blob rows, objects and parts stay; only stages go. */
  predicate Gentle(t: Tables, t': Tables) {
    && t.next <= t'.next && UploadsKept(t, t') && NoNewStages(t, t')
    && t'.blobs == t.blobs && t'.content == t.content
    && (forall k :: k in t.files && !k.StageKey? ==> k in t'.files && t'.files[k] == t.files[k])
  }

  predicate RequestsInv(w: World) {
    && (forall u :: u in w.sessions ==> SessionInv(w.t, u, w.sessions[u]))
    && (forall d :: d in w.duplicates ==> DuplicateInv(w.t, w.duplicates[d]))
  }

  lemma ReadyObject(t: Tables, u: Id, pc: Pc)
    requires SessionInv(t, u, pc) && InWindow(pc)
    ensures pc.r.final.ObjectKey?
  {
  }

  lemma GentleKeeps(w: World, t': Tables)
    requires RequestsInv(w) && Gentle(w.t, t')
    ensures RequestsInv(w.(t := t'))
  {
    hide SessionInv, DuplicateInv, UploadsKept, NoNewStages;
    forall u | u in w.sessions ensures SessionInv(t', u, w.sessions[u]) {
      if InWindow(w.sessions[u]) {
        ReadyObject(w.t, u, w.sessions[u]);
      }
      SessionKept(w.t, t', u, w.sessions[u]);
    }
    forall d | d in w.duplicates ensures DuplicateInv(t', w.duplicates[d]) {
      DuplicateObject(w.t, w.duplicates[d]);
      DuplicateStays(w.t, t', w.duplicates[d]);
    }
  }

  lemma DuplicateObject(t: Tables, d: Duplicated)
    requires DuplicateInv(t, d)
    ensures d.row.key.ObjectKey?
  {
  }

  /* ---- The gentle actions ---- */

  predicate IsGentle(action: Action) {
    || action.CreateAccount? || action.UpdateAccount? || action.Open? || action.AttachDuplicate? || action.StorePart?
    || action.MarkPart? || action.SetTrashed? || action.DeleteAsset? || action.LoseStage? || action.CleanStages?
  }

  lemma RowsAreGentle(t: Tables, t': Tables)
    requires t.next <= t'.next && t'.blobs == t.blobs && t'.content == t.content && t'.files == t.files
    requires UploadsKept(t, t')
    ensures Gentle(t, t')
  {
    hide UploadsKept;
  }

  lemma FilesAreGentle(t: Tables, files: Files)
    requires forall k :: k in files && k.StageKey? ==> k in t.files && files[k] == t.files[k]
    requires forall k :: k in t.files && !k.StageKey? ==> k in files && files[k] == t.files[k]
    ensures Gentle(t, t.(files := files))
  {
  }

  lemma OpenIsGentle(
    t: Tables, account: Id, asset: Option<Id>, source: string, manifest: Manifest, maxPart: nat)
    requires IdsBelow(t.accounts, t.assets, t.blobs, t.uploads, t.next)
    ensures Gentle(t, OpenUpload(t, account, asset, source, manifest, maxPart).0)
  {
    hide UpsertAsset, AssetRow, Gentle, ActiveTwin, OverQuota, ValidManifest;
    UpsertAssetOnly(t, account, asset);
    RowsAreGentle(t, OpenUpload(t, account, asset, source, manifest, maxPart).0);
  }

  lemma AttachIsGentle(t: Tables, asset: Option<Id>, source: string, blob: Id, row: Blob)
    ensures Gentle(t, Durable.AttachDuplicate(t, asset, source, blob, row).0)
  {
    hide UpsertAsset, AssetRow, Gentle;
    UpsertAssetOnly(t, row.account, asset);
    RowsAreGentle(t, Durable.AttachDuplicate(t, asset, source, blob, row).0);
  }

  lemma DeleteIsGentle(t: Tables, asset: Id)
    ensures Gentle(t, Durable.DeleteAsset(t, asset))
  {
    hide Gentle;
    RowsAreGentle(t, Durable.DeleteAsset(t, asset));
  }

  lemma StorePartIsGentle(t: Tables, u: Id, index: nat, content: Bytes)
    ensures Gentle(t, Durable.StorePart(t, u, index, content))
  {
    hide Gentle;
    FilesAreGentle(t, Durable.StorePart(t, u, index, content).files);
    assert t.(files := Durable.StorePart(t, u, index, content).files) == Durable.StorePart(t, u, index, content);
  }

  lemma AccountsAreGentle(t: Tables, accounts: map<Id, Account>, assets: map<Id, Asset>, next: Id)
    requires t.next <= next
    ensures Gentle(t, t.(accounts := accounts, assets := assets, next := next))
  {
  }

  lemma MarkPartIsGentle(t: Tables, u: Id, index: nat)
    ensures Gentle(t, Durable.MarkPart(t, u, index))
  {
    hide Gentle;
    RowsAreGentle(t, Durable.MarkPart(t, u, index));
  }

  lemma GentleStep(w: World, action: Action)
    requires TablesInv(w.t) && IsGentle(action)
    ensures Gentle(w.t, Step(w, action).t)
  {
    hide TablesInv, Gentle, OpenUpload, Durable.AttachDuplicate, Durable.DeleteAsset, Durable.StorePart,
         Durable.MarkPart, PathRefused, PathPinned, ReferencedStages;
    var t' := Step(w, action).t;
    match action
    case Open(account, asset, source, manifest, maxPart) =>
      Below(w.t);
      OpenIsGentle(w.t, account, asset, source, manifest, maxPart);
      NextIsGentle(w.t, OpenUpload(w.t, account, asset, source, manifest, maxPart).0);
    case AttachDuplicate(d) =>
      AccountsAreGentle(w.t, w.t.accounts, w.t.assets, w.t.next);
      if d in w.duplicates && w.duplicates[d].checked {
        var r := w.duplicates[d];
        AttachIsGentle(w.t, r.asset, r.source, r.blob, r.row);
      }
    case StorePart(u, index, bytes) => StorePartIsGentle(w.t, u, index, bytes);
    case MarkPart(u, index) => MarkPartIsGentle(w.t, u, index);
    case DeleteAsset(asset) => DeleteIsGentle(w.t, asset);
    case LoseStage(key) => FilesAreGentle(w.t, t'.files);
    case CleanStages(path) => FilesAreGentle(w.t, t'.files);
    case _ => AccountsAreGentle(w.t, t'.accounts, t'.assets, t'.next);
  }

  lemma NextIsGentle(t: Tables, t': Tables)
    requires Gentle(t, t')
    ensures Gentle(t, t'.(next := t'.next + 1))
  {
  }

  lemma SetTrashedKeeps(t: Tables, asset: Id, trashed: bool)
    requires TablesInv(t)
    ensures TablesInv(Durable.SetTrashed(t, asset, trashed))
  {
    hide TablesInv;
    Below(t);
    Owners(t);
    AssetsKeep(t, Durable.SetTrashed(t, asset, trashed).assets, t.next);
    assert Durable.SetTrashed(t, asset, trashed)
           == t.(assets := Durable.SetTrashed(t, asset, trashed).assets, next := t.next);
  }

  lemma GentleTables(w: World, action: Action)
    requires Inv(w) && IsGentle(action)
    ensures TablesInv(Step(w, action).t)
  {
    hide TablesInv, DuplicateInv, SessionInv, OpenUpload, Durable.AttachDuplicate, Durable.CreateAccount,
         Durable.UpdateAccount, Durable.StorePart, Durable.MarkPart, Durable.SetTrashed, Durable.DeleteAsset,
         Durable.CleanStages;
    match action
    case CreateAccount(path, quota) => CreateAccountKeeps(w.t, path, quota);
    case UpdateAccount(a, path, quota) => UpdateAccountKeeps(w.t, a, path, quota);
    case Open(account, asset, source, manifest, maxPart) =>
      OpenUploadKeeps(w.t, account, asset, source, manifest, maxPart);
      var (t', reply) := OpenUpload(w.t, account, asset, source, manifest, maxPart);
      NextKeeps(t', t'.next + 1);
    case AttachDuplicate(d) =>
      if d in w.duplicates && w.duplicates[d].checked {
        var r := w.duplicates[d];
        CheckedHolds(w.t, r);
        AttachDuplicateKeeps(w.t, r.asset, r.source, r.blob, r.row);
      }
    case StorePart(u, index, bytes) => StorePartKeeps(w.t, u, index, bytes);
    case MarkPart(u, index) => MarkPartKeeps(w.t, u, index);
    case SetTrashed(asset, trashed) => SetTrashedKeeps(w.t, asset, trashed);
    case DeleteAsset(asset) => DeleteAssetKeeps(w.t, asset);
    case LoseStage(key) =>
      StagesKeep(w.t, if key.StageKey? then {key} else {});
      assert w.t.files - {} == w.t.files;
    case CleanStages(path) => CleanStagesKeeps(w.t, path);
    case _ =>
  }

  lemma CheckedHolds(t: Tables, d: Duplicated)
    requires DuplicateInv(t, d) && d.checked
    ensures d.blob in t.blobs && t.blobs[d.blob] == d.row ==> Holds(t.files, d.row.key, d.row.size, d.row.hash)
  {
  }

  /** What `create_upload` found stored: the row is there and no upload proposes its id. */
  lemma FoundDuplicate(t: Tables, d: Duplicated)
    requires TablesInv(t) && d.blob in t.blobs && t.blobs[d.blob] == d.row
    requires d.row.hash == d.manifest.hash && !d.checked
    ensures DuplicateInv(t, d)
  {
    hide Safe, AllApart, ResourcesOwned, ObjectsIntact, PathsApart, Backed, ProofFits, CommitFits, Owned,
         RowStateFits, PartsHeld, SoundManifest;
    Below(t);
    BlobAccount(t, d.blob);
  }

  lemma FoundStays(t: Tables, t': Tables, d: Duplicated)
    requires DuplicateInv(t, d) && Gentle(t, t') && !d.checked
    ensures DuplicateInv(t', d)
  {
    hide UploadsKept, NoNewStages;
    DuplicateStays(t, t', d);
  }

  lemma OpenReplies(
    t: Tables, account: Id, asset: Option<Id>, source: string, manifest: Manifest, maxPart: nat)
    requires TablesInv(t)
    ensures var (t', reply) := OpenUpload(t, account, asset, source, manifest, maxPart);
            reply.Duplicate? ==>
              t' == t && reply.blob in t.blobs && t.blobs[reply.blob] == reply.row && reply.row.hash == manifest.hash
  {
    hide Safe, AllApart, ResourcesOwned, ObjectsIntact, PathsApart, UploadsSound, BlobsPlaced, UpsertAsset, AssetRow;
  }

  lemma GentleRequests(w: World, action: Action)
    requires Inv(w) && IsGentle(action)
    ensures RequestsInv(Step(w, action))
  {
    hide TablesInv, SessionInv, DuplicateInv, Gentle, OpenUpload, Durable.AttachDuplicate, Durable.CreateAccount,
         Durable.UpdateAccount, Durable.StorePart, Durable.MarkPart, Durable.SetTrashed, Durable.DeleteAsset,
         Durable.CleanStages;
    var w' := Step(w, action);
    GentleStep(w, action);
    GentleKeeps(w, w'.t);
    if action.Open? {
      OpenReplies(w.t, action.account, action.asset, action.source, action.manifest, action.maxPart);
      var (t', reply) := OpenUpload(w.t, action.account, action.asset, action.source, action.manifest, action.maxPart);
      if reply.Duplicate? {
        var d := Duplicated(action.asset, action.source, action.manifest, reply.blob, reply.row, false);
        FoundDuplicate(w.t, d);
        FoundStays(w.t, w'.t, d);
      }
    }
  }

  /* ---- Reclamation and removal of accounts ---- */

  /** In its window a request's final object is the object of the row it would share. */
  lemma WindowObject(t: Tables, u: Id, pc: Pc, b: Id)
    requires TablesInv(t) && SessionInv(t, u, pc) && InWindow(pc) && u in t.uploads
    requires b in t.blobs && t.blobs[b].account == pc.r.account && t.blobs[b].hash == pc.r.hash
    ensures t.blobs[b].key == pc.r.final
  {
    hide IdsBelow, IndexSound, UploadsSound, AllApart, Safe, ResourcesOwned, ObjectsIntact, PathsApart,
         RowStateFits, BlobFits, CommitFits, PartsHeld, Owned;
    RowOf(t, u);
    assert Placed(t.accounts, t.blobs[b]);
  }

  lemma WindowContent(t: Tables, u: Id, pc: Pc)
    requires TablesInv(t) && SessionInv(t, u, pc) && InWindow(pc) && u in t.uploads
    ensures pc.r.account == t.uploads[u].account
    ensures (pc.r.account, pc.r.hash) in t.content ==>
              var b := t.content[(pc.r.account, pc.r.hash)];
              b in t.blobs && t.blobs[b].account == pc.r.account && t.blobs[b].hash == pc.r.hash
              && t.blobs[b].key == pc.r.final
  {
    hide IdsBelow, UploadsSound, AllApart, Safe, ResourcesOwned, ObjectsIntact, PathsApart, BlobsPlaced;
    if (pc.r.account, pc.r.hash) in t.content {
      WindowObject(t, u, pc, t.content[(pc.r.account, pc.r.hash)]);
    }
  }

  lemma RemoveSession(t: Tables, account: Id, u: Id, pc: Pc)
    requires TablesInv(t) && SessionInv(t, u, pc)
    ensures SessionInv(Durable.RemoveAccount(t, account), u, pc)
  {
    hide TablesInv, SessionInv, AccountInUse;
    var t' := Durable.RemoveAccount(t, account);
    if t' != t && InWindow(pc) && u in t.uploads {
      WindowContent(t, u, pc);
      assert t.uploads[u].account != account by { NotInUse(t, account, u); }
    }
    SessionKept(t, t', u, pc);
  }

  lemma NotInUse(t: Tables, account: Id, u: Id)
    requires !AccountInUse(t, account) && u in t.uploads
    ensures t.uploads[u].account != account
  {
  }

  lemma RemoveDuplicate(t: Tables, account: Id, d: Duplicated)
    requires DuplicateInv(t, d)
    ensures DuplicateInv(Durable.RemoveAccount(t, account), d)
  {
    hide DuplicateInv, AccountInUse;
    DuplicateStays(t, Durable.RemoveAccount(t, account), d);
  }

  lemma ReclaimFrame(t: Tables, b: Id)
    ensures UploadsKept(t, Durable.Reclaim(t, b)) && NoNewStages(t, Durable.Reclaim(t, b))
    ensures UploadsKept(t, Durable.ReclaimTorn(t, b)) && NoNewStages(t, Durable.ReclaimTorn(t, b))
  {
    hide Referenced;
  }

  lemma ReclaimWindow(t: Tables, b: Id, u: Id, pc: Pc)
    requires TablesInv(t) && SessionInv(t, u, pc) && InWindow(pc) && u in t.uploads
    requires b in t.blobs && pc.r.final != t.blobs[b].key
    ensures WindowKept(t, Durable.Reclaim(t, b), pc.r) && WindowKept(t, Durable.ReclaimTorn(t, b), pc.r)
  {
    hide TablesInv, SessionInv, Referenced;
    WindowContent(t, u, pc);
    if t.blobs[b].account == pc.r.account && t.blobs[b].hash == pc.r.hash {
      WindowObject(t, u, pc, b);
    }
  }

  lemma ReclaimSession(t: Tables, b: Id, u: Id, pc: Pc)
    requires TablesInv(t) && SessionInv(t, u, pc) && b in t.blobs
    requires InWindow(pc) && u in t.uploads ==> pc.r.final != t.blobs[b].key
    ensures SessionInv(Durable.Reclaim(t, b), u, pc) && SessionInv(Durable.ReclaimTorn(t, b), u, pc)
  {
    hide TablesInv, SessionInv, Referenced, UploadsKept, NoNewStages, WindowKept;
    ReclaimFrame(t, b);
    if InWindow(pc) && u in t.uploads {
      ReclaimWindow(t, b, u, pc);
    }
    SessionKept(t, Durable.Reclaim(t, b), u, pc);
    SessionKept(t, Durable.ReclaimTorn(t, b), u, pc);
  }

  lemma ReclaimDuplicate(t: Tables, b: Id, d: Duplicated)
    requires TablesInv(t) && DuplicateInv(t, d) && b in t.blobs
    ensures DuplicateInv(Durable.Reclaim(t, b), d)
    ensures !(d.checked && d.row.key == t.blobs[b].key) ==> DuplicateInv(Durable.ReclaimTorn(t, b), d)
  {
    hide TablesInv, DuplicateInv, Referenced, UploadsKept, NoNewStages;
    ReclaimFrame(t, b);
    if d.blob in t.blobs && d.blob != b {
      DistinctKeys(t, b, d.blob);
    }
    DuplicateStays(t, Durable.Reclaim(t, b), d);
    if !(d.checked && d.row.key == t.blobs[b].key) {
      DuplicateStays(t, Durable.ReclaimTorn(t, b), d);
    }
  }

  lemma RoughStep(w: World, action: Action)
    requires Inv(w) && Admissible(w, action) && (action.RemoveAccount? || action.Reclaim? || action.ReclaimTorn?)
    ensures Inv(Step(w, action))
  {
    hide TablesInv, SessionInv, DuplicateInv, Durable.RemoveAccount, Durable.Reclaim, Durable.ReclaimTorn;
    var w' := Step(w, action);
    match action
    case RemoveAccount(account) =>
      RemoveAccountKeeps(w.t, account);
      forall u | u in w.sessions ensures SessionInv(w'.t, u, w.sessions[u]) {
        RemoveSession(w.t, account, u, w.sessions[u]);
      }
      forall d | d in w.duplicates ensures DuplicateInv(w'.t, w.duplicates[d]) {
        RemoveDuplicate(w.t, account, w.duplicates[d]);
      }
    case Reclaim(b) =>
      ReclaimKeeps(w.t, b);
      ReclaimedRequests(w, b);
    case ReclaimTorn(b) =>
      ReclaimTornKeeps(w.t, b);
      ReclaimedRequests(w, b);
  }

  lemma ReclaimedRequests(w: World, b: Id)
    requires Inv(w) && (b in w.t.blobs ==> !Watched(w, w.t.blobs[b].key))
    ensures RequestsInv(w.(t := Durable.Reclaim(w.t, b)))
    ensures (b in w.t.blobs ==> !Relied(w, w.t.blobs[b].key)) ==> RequestsInv(w.(t := Durable.ReclaimTorn(w.t, b)))
  {
    hide TablesInv, SessionInv, DuplicateInv, Durable.Referenced;
    if b in w.t.blobs {
      forall u | u in w.sessions
        ensures SessionInv(Durable.Reclaim(w.t, b), u, w.sessions[u])
        ensures SessionInv(Durable.ReclaimTorn(w.t, b), u, w.sessions[u])
      {
        ReclaimSession(w.t, b, u, w.sessions[u]);
      }
      forall d | d in w.duplicates
        ensures DuplicateInv(Durable.Reclaim(w.t, b), w.duplicates[d])
        ensures !(w.duplicates[d].checked && w.duplicates[d].row.key == w.t.blobs[b].key) ==>
                  DuplicateInv(Durable.ReclaimTorn(w.t, b), w.duplicates[d])
      {
        ReclaimDuplicate(w.t, b, w.duplicates[d]);
      }
    }
  }

  /* ---- Requests ---- */

  lemma ProgressKeeps(w: World, u: Id, io: bool)
    requires Inv(w)
    ensures Inv(Step(w, Progress(u, io)))
  {
    hide TablesInv, SessionInv, DuplicateInv, Micro, Effect;
    if u in w.sessions {
      var (t', pc') := Micro(w.t, u, w.sessions[u], io);
      MicroTables(w.t, u, w.sessions[u], io);
      MicroSession(w.t, u, w.sessions[u], io);
      OthersKept(w, t', u);
    }
  }

  lemma OthersKept(w: World, t': Tables, u: Id)
    requires Inv(w) && Effect(w.t, t', u)
    ensures forall v :: v in w.sessions && v != u ==> SessionInv(t', v, w.sessions[v])
    ensures forall d :: d in w.duplicates ==> DuplicateInv(t', w.duplicates[d])
  {
    hide TablesInv, SessionInv, DuplicateInv, Effect;
    forall v | v in w.sessions && v != u ensures SessionInv(t', v, w.sessions[v]) {
      OtherSessionKept(w.t, t', u, v, w.sessions[v]);
    }
    forall d | d in w.duplicates ensures DuplicateInv(t', w.duplicates[d]) {
      DuplicateKept(w.t, t', u, w.duplicates[d]);
    }
  }

  lemma CutStage(t: Tables, u: Id, pc: Pc, tear: nat)
    requires TablesInv(t) && SessionInv(t, u, pc)
    ensures TablesInv(Cut(t, pc, tear)) && Effect(t, Cut(t, pc, tear), u)
  {
    hide TablesInv, Effect, PcSound;
    var files := Cut(t, pc, tear).files;
    FilesKeep(t, files);
    FilesEffect(t, files, u);
    assert t.(files := files) == Cut(t, pc, tear);
  }

  lemma AbandonKeeps(w: World, u: Id, tear: nat)
    requires Inv(w)
    ensures Inv(Step(w, Abandon(u, tear)))
  {
    hide TablesInv, SessionInv, DuplicateInv, Cut, Effect;
    if u in w.sessions {
      CutStage(w.t, u, w.sessions[u], tear);
      OthersKept(w, Cut(w.t, w.sessions[u], tear), u);
    }
  }

  lemma CompleteKeeps(w: World, u: Id)
    requires Inv(w)
    ensures Inv(Step(w, Action.Complete(u)))
  {
    hide TablesInv, DuplicateInv;
    Below(w.t);
  }

  lemma CheckDuplicateKeeps(w: World, d: Id)
    requires Inv(w)
    ensures Inv(Step(w, CheckDuplicate(d)))
  {
    hide TablesInv, SessionInv;
  }

  /** Every admissible action keeps the invariant. */
  lemma StepKeeps(w: World, action: Action)
    requires Inv(w) && Admissible(w, action)
    ensures Inv(Step(w, action))
  {
    hide *;
    match action
    case CheckDuplicate(d) => CheckDuplicateKeeps(w, d);
    case Complete(u) => CompleteKeeps(w, u);
    case Progress(u, io) => ProgressKeeps(w, u, io);
    case Abandon(u, tear) => AbandonKeeps(w, u, tear);
    case Crash => CrashKeeps(w);
    case RemoveAccount(_) => RoughStep(w, action);
    case Reclaim(_) => RoughStep(w, action);
    case ReclaimTorn(_) => RoughStep(w, action);
    case _ => GentleActionKeeps(w, action);
  }

  lemma CrashKeeps(w: World)
    requires Inv(w)
    ensures Inv(Step(w, Crash))
  {
    hide TablesInv;
  }

  lemma GentleActionKeeps(w: World, action: Action)
    requires Inv(w) && action !in {Crash}
    requires !action.CheckDuplicate? && !action.Complete? && !action.Progress? && !action.Abandon?
    requires !action.RemoveAccount? && !action.Reclaim? && !action.ReclaimTorn?
    ensures Inv(Step(w, action))
  {
    hide TablesInv, SessionInv, DuplicateInv, Step;
    GentleTables(w, action);
    GentleRequests(w, action);
  }

  /** The invariant holds after every admissible run. */
  lemma {:induction false} RunKeeps(actions: seq<Action>)
    requires AdmissibleRun(actions)
    ensures Inv(Run(actions))
  {
    if actions != [] {
      RunKeeps(actions[..|actions| - 1]);
      StepKeeps(Run(actions[..|actions| - 1]), actions[|actions| - 1]);
    }
  }

  lemma UploadBelow(w: World, u: Id)
    requires Inv(w) && u in w.t.uploads
    ensures u < w.t.next
  {
    hide SessionInv, DuplicateInv;
    Below(w.t);
  }

  /** In every reachable state each blob a resource or a committed upload refers to has a row, and
      at its storage path a file with exactly its hash and size. */
  lemma {:induction false} ReachableIsSafe(actions: seq<Action>)
    requires AdmissibleRun(actions)
    ensures var t := Run(actions).t; Safe(t.blobs, t.resources, t.uploads, t.files)
  {
    hide Run, AdmissibleRun, Step;
    RunKeeps(actions);
  }
}

/** The server with its requests in flight: every interleaving of requests, reclamation,
    administration, lost stage files and crashes is a sequence of actions. */
module World {
  import opened Prelude
  import opened Content
  import opened Durable
  import opened Session

  /** A `create_upload` request between finding its content stored and attaching a resource to it. */
  datatype Duplicated = Duplicated(
    asset: Option<Id>, source: string, manifest: Manifest, blob: Id, row: Blob, checked: bool)

  datatype World = World(t: Tables, sessions: map<Id, Pc>, duplicates: map<Id, Duplicated>)

  const START := World(EMPTY, map[], map[])

  datatype Action =
    | CreateAccount(path: AccountPath, quota: nat)
    | UpdateAccount(account: Id, path: AccountPath, quota: nat)
    | RemoveAccount(account: Id)
    | Open(account: Id, asset: Option<Id>, source: string, manifest: Manifest, maxPart: nat)
    | CheckDuplicate(request: Id)
    | AttachDuplicate(request: Id)
    | StorePart(upload: Id, index: nat, bytes: Bytes)
    | MarkPart(upload: Id, index: nat)
    | Complete(upload: Id)                  // take the upload's lock
    | Progress(upload: Id, io: bool)        // one step of the request holding it
    | Abandon(upload: Id, tear: nat)        // the request ends; a stage being written may be cut short
    | Crash
    | SetTrashed(target: Id, trashed: bool)
    | DeleteAsset(target: Id)
    | Reclaim(blob: Id)
    | ReclaimTorn(blob: Id)
    | LoseStage(key: Key)
    | CleanStages(path: AccountPath)

  /** Between a request's last look at its final object and the end of its metadata transaction. */
  predicate InWindow(pc: Pc) {
    pc.Looking? || pc.Vetting? || pc.Recording?
  }

  predicate Watched(w: World, key: Key) {
    exists u :: u in w.sessions && u in w.t.uploads && InWindow(w.sessions[u]) && w.sessions[u].r.final == key
  }

  predicate Relied(w: World, key: Key) {
    exists d :: d in w.duplicates && w.duplicates[d].checked && w.duplicates[d].row.key == key
  }

  /** The granularity assumption: an object is not unlinked while a request is in its window on it,
      and an unlink is not torn while a request relies on an earlier check of the object. */
  predicate Admissible(w: World, action: Action) {
    match action
    case Reclaim(b) => b in w.t.blobs ==> !Watched(w, w.t.blobs[b].key)
    case ReclaimTorn(b) =>
      b in w.t.blobs ==> !Watched(w, w.t.blobs[b].key) && !Relied(w, w.t.blobs[b].key)
    case _ => true
  }

  function Cut(t: Tables, pc: Pc, tear: nat): Tables {
    if pc.Writing? && StageOf(pc.r) in t.files && tear <= |t.files[StageOf(pc.r)]|
    then t.(files := t.files[StageOf(pc.r) := t.files[StageOf(pc.r)][..tear]])
    else t
  }

  ghost function Step(w: World, action: Action): World {
    match action
    case CreateAccount(path, quota) => w.(t := Durable.CreateAccount(w.t, path, quota))
    case UpdateAccount(a, path, quota) => w.(t := Durable.UpdateAccount(w.t, a, path, quota))
    case RemoveAccount(a) => w.(t := Durable.RemoveAccount(w.t, a))
    case Open(account, asset, source, manifest, maxPart) =>
      var (t', reply) := OpenUpload(w.t, account, asset, source, manifest, maxPart);
      if reply.Duplicate? then
        w.(t := t'.(next := t'.next + 1),
           duplicates := w.duplicates[t'.next := Duplicated(asset, source, manifest, reply.blob, reply.row, false)])
      else w.(t := t')
    case CheckDuplicate(d) =>
      if d !in w.duplicates then w
      else
        var request := w.duplicates[d];
        if request.row.size == request.manifest.size
           && Holds(w.t.files, request.row.key, request.manifest.size, request.manifest.hash)
        then w.(duplicates := w.duplicates[d := request.(checked := true)])
        else w.(duplicates := w.duplicates - {d})
    case AttachDuplicate(d) =>
      if d !in w.duplicates || !w.duplicates[d].checked then w
      else
        var request := w.duplicates[d];
        w.(t := Durable.AttachDuplicate(w.t, request.asset, request.source, request.blob, request.row).0,
           duplicates := w.duplicates - {d})
    case StorePart(u, index, bytes) => w.(t := Durable.StorePart(w.t, u, index, bytes))
    case MarkPart(u, index) => w.(t := Durable.MarkPart(w.t, u, index))
    case Complete(u) =>
      if u in w.sessions || u !in w.t.uploads then w
      else w.(sessions := w.sessions[u := Loading])
    case Progress(u, io) =>
      if u !in w.sessions then w
      else
        var (t', pc') := Micro(w.t, u, w.sessions[u], io);
        w.(t := t', sessions := w.sessions[u := pc'])
    case Abandon(u, tear) =>
      if u !in w.sessions then w
      else w.(t := Cut(w.t, w.sessions[u], tear), sessions := w.sessions - {u})
    case Crash => w.(sessions := map[], duplicates := map[])
    case SetTrashed(asset, trashed) => w.(t := Durable.SetTrashed(w.t, asset, trashed))
    case DeleteAsset(asset) => w.(t := Durable.DeleteAsset(w.t, asset))
    case Reclaim(b) => w.(t := Durable.Reclaim(w.t, b))
    case ReclaimTorn(b) => w.(t := Durable.ReclaimTorn(w.t, b))
    case LoseStage(key) => if key.StageKey? then w.(t := w.t.(files := w.t.files - {key})) else w
    case CleanStages(path) => w.(t := Durable.CleanStages(w.t, path))
  }

  /** A run from the empty server. */
  ghost function Run(actions: seq<Action>): World {
    if actions == [] then START
    else Step(Run(actions[..|actions| - 1]), actions[|actions| - 1])
  }

  /** Every action of the run respects the granularity assumption. */
  ghost predicate AdmissibleRun(actions: seq<Action>) {
    actions == [] ||
    (var earlier := actions[..|actions| - 1];
     AdmissibleRun(earlier) && Admissible(Run(earlier), actions[|actions| - 1]))
  }
}

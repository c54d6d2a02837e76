/** One completing request: the control flow of `complete_inner`, one shared access per step. */
module Session {
  import opened Prelude
  import opened Content
  import opened Durable

  datatype Reply =
    | Ok(resource: Id, asset: Id, deduplicated: bool)
    | NotFound | Unauthorized | QuotaExceeded
    | MissingParts        // parts not received yet
    | Overtaken           // superseded by a newer committed upload
    | FailedCommit        // validation failed; the upload is failed
    | NeedsReview         // the upload is in an unknown state
    | Changed             // lost a race that the upload lock should exclude
    | Exhausted           // the metadata retry loop gave up
    | IoError             // a storage error that leaves the upload to a later attempt

  /** Where a request stands; each constructor names the access it makes next. Comments give the
      lines of upload_commit.rs and storage.rs. */
  datatype Pc =
    | Loading                                       // load_commit: 123-137
    | Counting                                      // begin_commit: 294-313
    | Beginning                                     // begin_commit transaction: 315-385
    | Reloading                                     // 386, then ready_commit: 139-142
    | CheckingFinal(r: Ready)                       // 143-193
    | OpeningStage(r: Ready)                        // assemble_commit: 280-300
    | Writing(r: Ready, k: nat, read: Bytes)        // assemble_commit: 301-367
    | Failing                                       // 178-180: the stage is gone
    | Advancing(r: Ready)                           // transition_to_finalizing: 194
    | Rechecking(r: Ready)                          // 199-217
    | CheckingStage(r: Ready)                       // 218-249
    | Linking(r: Ready)                             // publish_commit: 379-400
    | Verifying(r: Ready)                           // publish_commit: 401-409
    | Looking(r: Ready, round: nat, approved: Option<Candidate>)            // 407-409
    | Vetting(r: Ready, round: nat, candidate: Candidate, again: bool)      // 411, 417
    | Recording(r: Ready, round: nat, approved: Option<Candidate>)          // 414
    | Tidying(r: Ready, outcome: Reply, strict: bool)                       // 284-290, 711-713
    | Discarding(r: Ready)                          // 428-443
    | Confirming(r: Ready, resource: Id, deduplicated: bool)                // validate_committed: 663-710
    | Done(reply: Reply)

  const ROUNDS: nat := 3

  /** How far a request is from its reply. */
  function Major(pc: Pc): nat {
    match pc
    case Loading => 16
    case Counting => 15
    case Beginning => 14
    case Reloading => 13
    case CheckingFinal(_) => 12
    case OpeningStage(_) => 11
    case Writing(_, _, _) => 10
    case Failing => 1
    case Advancing(_) => 9
    case Rechecking(_) => 8
    case CheckingStage(_) => 7
    case Linking(_) => 6
    case Verifying(_) => 5
    case Looking(_, _, _) => 3
    case Vetting(_, _, _, _) => 3
    case Recording(_, _, _) => 3
    case Confirming(_, _, _) => 2
    case Tidying(_, _, _) => 1
    case Discarding(_) => 1
    case Done(_) => 0
  }

  function Minor(pc: Pc): nat {
    match pc
    case Writing(r, k, _) => if k <= |r.manifest.parts| then |r.manifest.parts| - k else 0
    case Looking(_, round, _) => if round < ROUNDS then 4 * (ROUNDS - round) + 3 else 0
    case Vetting(_, round, _, again) =>
      if round < ROUNDS then 4 * (ROUNDS - round) + (if again then 0 else 2) else 0
    case Recording(_, round, _) => if round < ROUNDS then 4 * (ROUNDS - round) + 1 else 0
    case _ => 0
  }

  predicate Lower(after: Pc, before: Pc) {
    Major(after) < Major(before) || (Major(after) == Major(before) && Minor(after) < Minor(before))
  }

  /** Parts and rounds stay within their bounds. */
  predicate Shaped(pc: Pc) {
    match pc
    case Writing(r, k, _) => k <= |r.manifest.parts|
    case Looking(_, round, _) => round < ROUNDS
    case Vetting(_, round, _, _) => round < ROUNDS
    case Recording(_, round, _) => round < ROUNDS
    case _ => true
  }

  type Result = (Tables, Pc)

  function GiveUp(t: Tables, u: Id): Result {
    (MarkUnknown(t, u), Done(NeedsReview))
  }

  /** Assembly found content that does not fit the manifest: it drops the stage, then the upload fails. */
  function DropStage(t: Tables, stage: Key): Result {
    (t.(files := t.files - {stage}), Failing)
  }

  function StageOf(r: Ready): Key {
    if r.staged.Some? then r.staged.value else r.final
  }

  /** The branch on the loaded record, at the start and after `begin_commit`. */
  function Dispatch(t: Tables, u: Id): Result
    requires u in t.uploads
  {
    var ready := ReadyCommit(t, u);
    match t.uploads[u].phase
    case Committed =>
      if ready.None? || t.uploads[u].resource.None? then GiveUp(t, u)
      else (t, Confirming(ready.value, t.uploads[u].resource.value, t.uploads[u].deduplicated))
    case Unknown => (t, Done(NeedsReview))
    case Failed(superseded) => (t, Done(if superseded then Overtaken else FailedCommit))
    case Receiving => (t, Counting)
    case CommitStarted =>
      if ready.None? then GiveUp(t, u) else (t, CheckingFinal(ready.value))
    case Finalizing =>
      if ready.None? then GiveUp(t, u) else (t, Rechecking(ready.value))
  }

  /* ---- The steps ---- */

  function Load(t: Tables, u: Id): (result: Result)
    ensures Shaped(result.1) && Major(result.1) < 16
  {
    if u !in t.uploads then (t, Done(NotFound)) else Dispatch(t, u)
  }

  function Count(t: Tables, u: Id): (result: Result)
    ensures Shaped(result.1) && Major(result.1) < 15
  {
    if u !in t.uploads then (t, Done(NotFound))
    else if !SoundManifest(t.uploads[u].manifest) then (MarkFailed(t, u), Done(FailedCommit))
    else if !AllReceived(t.uploads[u]) then (t, Done(MissingParts))
    else (t, Beginning)
  }

  ghost function Begin(t: Tables, u: Id): (result: Result)
    ensures Shaped(result.1) && Major(result.1) < 14
  {
    var (t', reply) := BeginCommit(t, u);
    (t', match reply
         case Begun => Reloading
         case BeginNoAccount => Done(Unauthorized)
         case BeginNoSpace => Done(QuotaExceeded)
         case BeginConflict => Done(Changed))
  }

  function Reload(t: Tables, u: Id): (result: Result)
    ensures Shaped(result.1) && Major(result.1) < 13
  {
    if u !in t.uploads then (t, Done(NotFound))
    else
      var ready := ReadyCommit(t, u);
      if ready.None? then GiveUp(t, u)
      else if t.uploads[u].phase == CommitStarted then (t, CheckingFinal(ready.value))
      else (t, Rechecking(ready.value))
  }

  function CheckFinal(t: Tables, u: Id, r: Ready, io: bool): (result: Result)
    ensures Shaped(result.1) && Major(result.1) < 12
  {
    var seen := Inspect(t.files, r.final, r.size, r.hash);
    if !io || seen == Mismatch || (seen == Missing && r.staged.None?) then GiveUp(t, u)
    else (t, if seen == Matches then Advancing(r) else OpeningStage(r))
  }

  function OpenStage(t: Tables, r: Ready, io: bool): (result: Result)
    ensures Shaped(result.1) && Major(result.1) < 11
  {
    if !io then (t, Done(IoError))
    else if Holds(t.files, StageOf(r), r.size, r.hash) then (t, Advancing(r))
    else (t.(files := t.files[StageOf(r) := []]), Writing(r, 0, []))
  }

  function Write(t: Tables, u: Id, r: Ready, k: nat, read: Bytes, io: bool): (result: Result)
    ensures k <= |r.manifest.parts| ==> Shaped(result.1) && Lower(result.1, Writing(r, k, read))
  {
    if !io then (t, Done(IoError))
    else if k < |r.manifest.parts| then
      var part := PartKey(u, k);
      if !Holds(t.files, part, r.manifest.parts[k].size, r.manifest.parts[k].hash)
      then DropStage(t, StageOf(r))
      else
        (if StageOf(r) in t.files
         then t.(files := t.files[StageOf(r) := t.files[StageOf(r)] + t.files[part]]) else t,
         Writing(r, k + 1, read + t.files[part]))
    else if Fits(read, r.size, r.hash) then (t, Advancing(r))
    else DropStage(t, StageOf(r))
  }

  function MarkFailure(t: Tables, u: Id): (result: Result)
    ensures Shaped(result.1) && Major(result.1) < 1
  {
    (MarkFailed(t, u), Done(FailedCommit))
  }

  function Advance(t: Tables, u: Id, r: Ready): (result: Result)
    ensures Shaped(result.1) && Major(result.1) < 9
  {
    var (t', moved) := ToFinalizing(t, u);
    (t', if moved then Rechecking(r) else Done(Changed))
  }

  function Recheck(t: Tables, u: Id, r: Ready, io: bool): (result: Result)
    ensures Shaped(result.1) && Major(result.1) < 8
  {
    var seen := Inspect(t.files, r.final, r.size, r.hash);
    if !io || seen == Mismatch || (seen == Missing && r.staged.None?) then GiveUp(t, u)
    else (t, if seen == Matches then Looking(r, 0, None) else CheckingStage(r))
  }

  function CheckStage(t: Tables, u: Id, r: Ready, io: bool): (result: Result)
    ensures Shaped(result.1) && Major(result.1) < 7
  {
    if io && Holds(t.files, StageOf(r), r.size, r.hash) then (t, Linking(r)) else GiveUp(t, u)
  }

  function Link(t: Tables, u: Id, r: Ready, io: bool): (result: Result)
    ensures Shaped(result.1) && Major(result.1) < 6
  {
    if !io || StageOf(r) !in t.files then GiveUp(t, u)
    else (if r.final in t.files then t else t.(files := t.files[r.final := t.files[StageOf(r)]]), Verifying(r))
  }

  function Verify(t: Tables, u: Id, r: Ready, io: bool): (result: Result)
    ensures Shaped(result.1) && Major(result.1) < 5
  {
    if io && Holds(t.files, r.final, r.size, r.hash) then (t, Looking(r, 0, None)) else GiveUp(t, u)
  }

  function Look(t: Tables, r: Ready, round: nat, approved: Option<Candidate>): (result: Result)
    ensures round < ROUNDS ==> Shaped(result.1) && Lower(result.1, Looking(r, round, approved))
  {
    var found := LoadCandidate(t, r.account, r.hash);
    (t, if found.Some? then Vetting(r, round, found.value, false) else Recording(r, round, approved))
  }

  function Vet(t: Tables, u: Id, r: Ready, round: nat, c: Candidate, again: bool, io: bool): (result: Result)
    ensures round < ROUNDS ==> Shaped(result.1) && Lower(result.1, Vetting(r, round, c, again))
  {
    if io && c.size == r.size && c.hash == r.hash && Holds(t.files, c.key, r.size, r.hash)
    then
      (t, if !again then Recording(r, round, Some(c))
          else if round + 1 < ROUNDS then Looking(r, round + 1, Some(c))
          else Done(Exhausted))
    else GiveUp(t, u)
  }

  /** Where the outcome of the metadata transaction leads. */
  function AfterMetadata(r: Ready, round: nat, reply: RecordReply): (pc: Pc)
    ensures round < ROUNDS ==> Shaped(pc) && forall approved :: Lower(pc, Recording(r, round, approved))
  {
    match reply
    case Recorded(resource, deduplicated) =>
      if r.staged.Some? then Tidying(r, Ok(resource, r.asset, deduplicated), false)
      else Done(Ok(resource, r.asset, deduplicated))
    case NeedsCheck(c) => Vetting(r, round, c, true)
    case PathChanged => Done(NeedsReview)
    case Superseded => Discarding(r)
    case Refused => Done(Changed)
  }

  function Record(t: Tables, u: Id, r: Ready, round: nat, approved: Option<Candidate>): (result: Result)
    ensures round < ROUNDS ==> Shaped(result.1) && Lower(result.1, Recording(r, round, approved))
  {
    var (t', reply) := RecordMetadata(t, u, r, approved);
    (if reply.PathChanged? then MarkUnknown(t, u) else t', AfterMetadata(r, round, reply))
  }

  function Tidy(t: Tables, u: Id, r: Ready, outcome: Reply, strict: bool, io: bool): (result: Result)
    ensures Shaped(result.1) && Major(result.1) < 1
  {
    if io then (TidyStage(t, u, StageOf(r)), Done(outcome))
    else (t, Done(if strict then IoError else outcome))
  }

  function Discard(t: Tables, r: Ready, io: bool): (result: Result)
    ensures Shaped(result.1) && Major(result.1) < 1
  {
    (if io && r.staged.Some? then t.(files := t.files - {r.staged.value}) else t, Done(Overtaken))
  }

  function Confirm(t: Tables, u: Id, r: Ready, resource: Id, deduplicated: bool, io: bool): (result: Result)
    ensures Shaped(result.1) && Major(result.1) < 2
  {
    if && io && r.proposed in t.blobs
       && t.blobs[r.proposed] == Blob(r.account, r.hash, r.size, r.final)
       && (exists k :: k in t.resources && t.resources[k].id == resource && k.0 == r.asset)
       && Holds(t.files, r.final, r.size, r.hash)
    then
      (t, if r.staged.Some? then Tidying(r, Ok(resource, r.asset, deduplicated), true)
          else Done(Ok(resource, r.asset, deduplicated)))
    else GiveUp(t, u)
  }

  /** One step of the request for upload `u`. `io` is false when the storage access of this step
      reports an error without taking effect. */
  ghost function Micro(t: Tables, u: Id, pc: Pc, io: bool): Result {
    match pc
    case Done(_) => (t, pc)
    case Loading => Load(t, u)
    case Counting => Count(t, u)
    case Beginning => Begin(t, u)
    case Reloading => Reload(t, u)
    case CheckingFinal(r) => CheckFinal(t, u, r, io)
    case OpeningStage(r) => OpenStage(t, r, io)
    case Writing(r, k, read) => Write(t, u, r, k, read, io)
    case Failing => MarkFailure(t, u)
    case Advancing(r) => Advance(t, u, r)
    case Rechecking(r) => Recheck(t, u, r, io)
    case CheckingStage(r) => CheckStage(t, u, r, io)
    case Linking(r) => Link(t, u, r, io)
    case Verifying(r) => Verify(t, u, r, io)
    case Looking(r, round, approved) => Look(t, r, round, approved)
    case Vetting(r, round, c, again) => Vet(t, u, r, round, c, again, io)
    case Recording(r, round, approved) => Record(t, u, r, round, approved)
    case Tidying(r, outcome, strict) => Tidy(t, u, r, outcome, strict, io)
    case Discarding(r) => Discard(t, r, io)
    case Confirming(r, resource, deduplicated) => Confirm(t, u, r, resource, deduplicated, io)
  }

  /** Every step brings the request closer to its reply, whatever the tables are by then: a request
      answers after a bounded number of its own steps under any interleaving. */
  lemma MicroLowers(t: Tables, u: Id, pc: Pc, io: bool)
    requires Shaped(pc)
    ensures Shaped(Micro(t, u, pc, io).1)
    ensures !pc.Done? ==> Lower(Micro(t, u, pc, io).1, pc)
  {
  }

  /** The request run to its reply with nothing else going on and no storage errors. */
  ghost function Drive(t: Tables, u: Id, pc: Pc): (Tables, Reply)
    requires Shaped(pc)
    decreases Major(pc), Minor(pc)
  {
    if pc.Done? then (t, pc.reply)
    else
      MicroLowers(t, u, pc, true);
      var (t', pc') := Micro(t, u, pc, true);
      Drive(t', u, pc')
  }

  /** `n` steps of it. */
  ghost function Steps(t: Tables, u: Id, pc: Pc, n: nat): (result: Result)
    requires Shaped(pc)
    ensures Shaped(result.1)
    decreases n
  {
    if n == 0 then (t, pc)
    else
      MicroLowers(t, u, pc, true);
      var (t', pc') := Micro(t, u, pc, true);
      Steps(t', u, pc', n - 1)
  }
}

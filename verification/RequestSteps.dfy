/** How a run of a request continues from each of its steps, and what sums and reconciliation need. */
module RequestSteps {
  import opened Prelude
  import opened Content
  import opened Durable
  import opened Session
  import opened TableInvariant
  import opened TableProofs
  import opened ServerProofs
  import opened Settling
  import LoneRun

  /** Writing the stage from part `k` on, when `read` is in it: the files then, and whether it fits. */
  ghost function Assembly(files: Files, u: Id, r: Ready, k: nat, read: Bytes): (Files, bool)
    requires k <= |r.manifest.parts|
    decreases |r.manifest.parts| - k
  {
    var stage := StageOf(r);
    if k == |r.manifest.parts| then
      if Fits(read, r.size, r.hash) then (files, true) else (files - {stage}, false)
    else if !Holds(files, PartKey(u, k), r.manifest.parts[k].size, r.manifest.parts[k].hash) then
      (files - {stage}, false)
    else
      var more := read + files[PartKey(u, k)];
      Assembly(files[stage := more], u, r, k + 1, more)
  }

  /** A request does the same, one part at a step. */
  lemma {:induction false} AssemblyIsDriven(t: Tables, u: Id, r: Ready, k: nat, read: Bytes)
    requires k <= |r.manifest.parts| && r.staged.Some? && StageOf(r) in t.files && t.files[StageOf(r)] == read
    ensures var (files, ok) := Assembly(t.files, u, r, k, read);
            Drive(t, u, Writing(r, k, read)) == Drive(t.(files := files), u, if ok then Advancing(r) else Failing)
    decreases |r.manifest.parts| - k
  {
    hide Drive;
    LoneRun.Unfold(t, u, Writing(r, k, read));
    if k < |r.manifest.parts| {
      if Holds(t.files, PartKey(u, k), r.manifest.parts[k].size, r.manifest.parts[k].hash) {
        var more := read + t.files[PartKey(u, k)];
        AssemblyIsDriven(t.(files := t.files[StageOf(r) := more]), u, r, k + 1, more);
      }
    } else {
      assert t.(files := t.files) == t;
    }
  }

  lemma OneNextRow(uploads: map<Id, Upload>, one: nat, two: nat)
    requires IsNextRow(uploads, one) && IsNextRow(uploads, two)
    ensures one == two
  {
  }

  lemma NextRowOf(t: Tables, t': Tables)
    requires t'.uploads == t.uploads
    ensures NextRow(t') == NextRow(t)
  {
  }

  lemma ValidSize(manifest: Manifest, maxPart: nat)
    requires ValidManifest(manifest, maxPart)
    ensures manifest.size == PartSizes(manifest.parts)
  {
  }

  lemma SizesWithout(blobs: map<Id, Blob>, b: Id, account: Id)
    requires b in blobs
    ensures Total(SizesOf(blobs, account))
            == (if blobs[b].account == account then blobs[b].size else 0) + Total(SizesOf(blobs - {b}, account))
  {
    assert SizesOf(blobs - {b}, account) == SizesOf(blobs, account) - {b};
    if blobs[b].account == account {
      TotalWithout(SizesOf(blobs, account), b);
    } else {
      assert SizesOf(blobs, account) - {b} == SizesOf(blobs, account);
    }
  }

  lemma HeldWithout(uploads: map<Id, Upload>, u: Id, account: Id, unknown: bool)
    requires u in uploads
    ensures var counts := && uploads[u].account == account && Reserving(uploads[u])
                          && (unknown || uploads[u].phase != Unknown);
            Total(HeldBy(uploads, account, unknown))
            == (if counts then PartSizes(uploads[u].manifest.parts) else 0)
               + Total(HeldBy(uploads - {u}, account, unknown))
  {
    assert HeldBy(uploads - {u}, account, unknown) == HeldBy(uploads, account, unknown) - {u};
    if u in HeldBy(uploads, account, unknown) {
      TotalWithout(HeldBy(uploads, account, unknown), u);
    } else {
      assert HeldBy(uploads, account, unknown) - {u} == HeldBy(uploads, account, unknown);
    }
  }

  /** One round of the metadata loop, as a run continues from it. */
  lemma RoundStep(t: Tables, u: Id, r: Ready, round: nat, approved: Option<Candidate>)
    requires round < ROUNDS
    ensures var found := LoadCandidate(t, r.account, r.hash);
            Drive(t, u, Looking(r, round, approved))
            == if found.None? then Drive(t, u, Recording(r, round, approved))
               else if && found.value.size == r.size && found.value.hash == r.hash
                       && Holds(t.files, found.value.key, r.size, r.hash)
               then Drive(t, u, Recording(r, round, found))
               else (MarkUnknown(t, u), NeedsReview)
  {
    hide Drive, LoadCandidate, MarkUnknown;
    var found := LoadCandidate(t, r.account, r.hash);
    LoneRun.Unfold(t, u, Looking(r, round, approved));
    if found.Some? {
      VettingStep(t, u, r, round, found.value, false);
    }
  }

  lemma VettingStep(t: Tables, u: Id, r: Ready, round: nat, c: Candidate, again: bool)
    requires round < ROUNDS
    ensures Drive(t, u, Vetting(r, round, c, again))
            == if !(c.size == r.size && c.hash == r.hash && Holds(t.files, c.key, r.size, r.hash))
               then (MarkUnknown(t, u), NeedsReview)
               else if !again then Drive(t, u, Recording(r, round, Some(c)))
               else if round + 1 < ROUNDS then Drive(t, u, Looking(r, round + 1, Some(c)))
               else (t, Exhausted)
  {
    hide Drive, MarkUnknown;
    LoneRun.Unfold(t, u, Vetting(r, round, c, again));
    LoneRun.Finished(t, u, Exhausted);
    LoneRun.Finished(MarkUnknown(t, u), u, NeedsReview);
  }

  lemma PathChangedNothing(t: Tables, u: Id, r: Ready, approved: Option<Candidate>)
    requires RecordMetadata(t, u, r, approved).1 == PathChanged
    ensures RecordMetadata(t, u, r, approved).0 == t
  {
  }

  lemma RecordingStep(t: Tables, u: Id, r: Ready, round: nat, approved: Option<Candidate>)
    requires round < ROUNDS
    ensures var (t', reply) := RecordMetadata(t, u, r, approved);
            Drive(t, u, Recording(r, round, approved))
            == match reply
               case Recorded(resource, deduplicated) =>
                 (if r.staged.Some? then TidyStage(t', u, r.staged.value) else t', Ok(resource, r.asset, deduplicated))
               case NeedsCheck(c) =>
                 if !(c.size == r.size && c.hash == r.hash && Holds(t'.files, c.key, r.size, r.hash))
                 then (MarkUnknown(t', u), NeedsReview)
                 else if round + 1 < ROUNDS then Drive(t', u, Looking(r, round + 1, Some(c)))
                 else (t', Exhausted)
               case PathChanged => (MarkUnknown(t', u), NeedsReview)
               case Superseded =>
                 (if r.staged.Some? then t'.(files := t'.files - {r.staged.value}) else t', Overtaken)
               case Refused => (t', Changed)
  {
    hide Drive, MarkUnknown, RecordMetadata, TidyStage;
    var (t', reply) := RecordMetadata(t, u, r, approved);
    LoneRun.Unfold(t, u, Recording(r, round, approved));
    match reply
    case Recorded(resource, deduplicated) =>
      var outcome := Ok(resource, r.asset, deduplicated);
      if r.staged.Some? {
        LoneRun.Unfold(t', u, Tidying(r, outcome, false));
        LoneRun.Finished(TidyStage(t', u, r.staged.value), u, outcome);
      } else {
        LoneRun.Finished(t', u, outcome);
      }
    case NeedsCheck(c) => VettingStep(t', u, r, round, c, true);
    case PathChanged =>
      PathChangedNothing(t, u, r, approved);
      LoneRun.Finished(MarkUnknown(t, u), u, NeedsReview);
    case Superseded =>
      LoneRun.Unfold(t', u, Discarding(r));
      LoneRun.Finished(if r.staged.Some? then t'.(files := t'.files - {r.staged.value}) else t', u, Overtaken);
    case Refused => LoneRun.Finished(t', u, Changed);
  }

  lemma RecheckStep(t: Tables, u: Id, r: Ready)
    ensures var seen := Inspect(t.files, r.final, r.size, r.hash);
            Drive(t, u, Rechecking(r))
            == if seen == Matches then Drive(t, u, Looking(r, 0, None))
               else if seen == Missing && r.staged.Some? && Holds(t.files, r.staged.value, r.size, r.hash)
               then Drive(t.(files := t.files[r.final := t.files[r.staged.value]]), u, Looking(r, 0, None))
               else (MarkUnknown(t, u), NeedsReview)
  {
    hide Drive, MarkUnknown;
    LoneRun.Unfold(t, u, Rechecking(r));
    LoneRun.Finished(MarkUnknown(t, u), u, NeedsReview);
    if r.final !in t.files && r.staged.Some? {
      LoneRun.Unfold(t, u, CheckingStage(r));
      if Holds(t.files, r.staged.value, r.size, r.hash) {
        LinkingRun(t, u, r);
      }
    }
  }

  lemma LinkingRun(t: Tables, u: Id, r: Ready)
    requires r.final !in t.files && r.staged.Some? && Holds(t.files, r.staged.value, r.size, r.hash)
    ensures Drive(t, u, Linking(r))
            == Drive(t.(files := t.files[r.final := t.files[r.staged.value]]), u, Looking(r, 0, None))
  {
    hide Drive, MarkUnknown;
    LoneRun.Unfold(t, u, Linking(r));
    LoneRun.Unfold(t.(files := t.files[r.final := t.files[r.staged.value]]), u, Verifying(r));
  }

  lemma CheckFinalStep(t: Tables, u: Id, r: Ready)
    ensures var seen := Inspect(t.files, r.final, r.size, r.hash);
            Drive(t, u, CheckingFinal(r))
            == if seen == Matches then Drive(t, u, Advancing(r))
               else if seen == Missing && r.staged.Some? then Drive(t, u, OpeningStage(r))
               else (MarkUnknown(t, u), NeedsReview)
  {
    hide Drive, MarkUnknown;
    LoneRun.Unfold(t, u, CheckingFinal(r));
    LoneRun.Finished(MarkUnknown(t, u), u, NeedsReview);
  }

  lemma OpeningRun(t: Tables, u: Id, r: Ready)
    requires r.staged.Some?
    ensures var (files, ok) := if Holds(t.files, StageOf(r), r.size, r.hash) then (t.files, true)
                               else Assembly(t.files[StageOf(r) := []], u, r, 0, []);
            Drive(t, u, OpeningStage(r)) == Drive(t.(files := files), u, if ok then Advancing(r) else Failing)
  {
    hide Drive;
    LoneRun.Unfold(t, u, OpeningStage(r));
    if Holds(t.files, StageOf(r), r.size, r.hash) {
      assert t.(files := t.files) == t;
    } else {
      AssemblyIsDriven(t.(files := t.files[StageOf(r) := []]), u, r, 0, []);
    }
  }

  lemma FailingStep(t: Tables, u: Id)
    ensures Drive(t, u, Failing) == (MarkFailed(t, u), FailedCommit)
  {
    hide Drive, MarkFailed;
    LoneRun.Unfold(t, u, Failing);
    LoneRun.Finished(MarkFailed(t, u), u, FailedCommit);
  }

  lemma AdvancingStep(t: Tables, u: Id, r: Ready)
    ensures var (t', moved) := ToFinalizing(t, u);
            Drive(t, u, Advancing(r)) == if moved then Drive(t', u, Rechecking(r)) else (t', Changed)
  {
    hide Drive, ToFinalizing;
    LoneRun.Unfold(t, u, Advancing(r));
    LoneRun.Finished(ToFinalizing(t, u).0, u, Changed);
  }

  lemma ConfirmingStep(t: Tables, u: Id, r: Ready, resource: Id, deduplicated: bool)
    ensures var valid := && r.proposed in t.blobs && t.blobs[r.proposed] == Blob(r.account, r.hash, r.size, r.final)
                         && (exists k :: k in t.resources && t.resources[k].id == resource && k.0 == r.asset)
                         && Holds(t.files, r.final, r.size, r.hash);
            Drive(t, u, Confirming(r, resource, deduplicated))
            == if !valid then (MarkUnknown(t, u), NeedsReview)
               else (if r.staged.Some? then TidyStage(t, u, r.staged.value) else t, Ok(resource, r.asset, deduplicated))
  {
    hide Drive, MarkUnknown, TidyStage, Holds;
    var outcome := Ok(resource, r.asset, deduplicated);
    LoneRun.Unfold(t, u, Confirming(r, resource, deduplicated));
    LoneRun.Finished(MarkUnknown(t, u), u, NeedsReview);
    LoneRun.Finished(t, u, outcome);
    if r.staged.Some? {
      LoneRun.Unfold(t, u, Tidying(r, outcome, true));
      LoneRun.Finished(TidyStage(t, u, r.staged.value), u, outcome);
    }
  }

  lemma LoadingStep(t: Tables, u: Id)
    ensures Drive(t, u, Loading)
            == if u !in t.uploads then (t, NotFound)
               else
                 var ready := ReadyCommit(t, u);
                 match t.uploads[u].phase
                 case Committed =>
                   if ready.None? || t.uploads[u].resource.None? then (MarkUnknown(t, u), NeedsReview)
                   else Drive(t, u, Confirming(ready.value, t.uploads[u].resource.value, t.uploads[u].deduplicated))
                 case Unknown => (t, NeedsReview)
                 case Failed(superseded) => (t, if superseded then Overtaken else FailedCommit)
                 case Receiving => Drive(t, u, Counting)
                 case CommitStarted =>
                   if ready.None? then (MarkUnknown(t, u), NeedsReview) else Drive(t, u, CheckingFinal(ready.value))
                 case Finalizing =>
                   if ready.None? then (MarkUnknown(t, u), NeedsReview) else Drive(t, u, Rechecking(ready.value))
  {
    hide Drive, MarkUnknown, ReadyCommit;
    LoneRun.Unfold(t, u, Loading);
    LoneRun.Finished(MarkUnknown(t, u), u, NeedsReview);
    LoneRun.Finished(t, u, NotFound);
    LoneRun.Finished(t, u, NeedsReview);
    LoneRun.Finished(t, u, Overtaken);
    LoneRun.Finished(t, u, FailedCommit);
  }

  lemma CountingStep(t: Tables, u: Id)
    requires u in t.uploads
    ensures Drive(t, u, Counting)
            == if !SoundManifest(t.uploads[u].manifest) then (MarkFailed(t, u), FailedCommit)
               else if !AllReceived(t.uploads[u]) then (t, MissingParts)
               else Drive(t, u, Beginning)
  {
    hide Drive, MarkFailed, SoundManifest, AllReceived;
    LoneRun.Unfold(t, u, Counting);
    LoneRun.Finished(MarkFailed(t, u), u, FailedCommit);
    LoneRun.Finished(t, u, MissingParts);
  }

  lemma BeginningStep(t: Tables, u: Id)
    ensures var (t', reply) := BeginCommit(t, u);
            Drive(t, u, Beginning)
            == match reply
               case Begun => Drive(t', u, Reloading)
               case BeginNoAccount => (t', Unauthorized)
               case BeginNoSpace => (t', QuotaExceeded)
               case BeginConflict => (t', Changed)
  {
    hide Drive, BeginCommit;
    var t' := BeginCommit(t, u).0;
    LoneRun.Unfold(t, u, Beginning);
    LoneRun.Finished(t', u, Unauthorized);
    LoneRun.Finished(t', u, QuotaExceeded);
    LoneRun.Finished(t', u, Changed);
  }

  /** What `begin_commit` leaves for the rest of the request. */
  lemma BegunStage(t: Tables, u: Id)
    ensures var (t', reply) := BeginCommit(t, u);
            reply == Begun ==>
              && u in t'.uploads && (t'.uploads[u].phase == CommitStarted || t'.uploads[u].phase == Finalizing)
              && (t'.uploads[u].staged.Some? ==> t'.uploads[u].staged.value.StageKey?)
  {
    hide CommitOverQuota, LoadCandidate;
  }

  lemma ReloadingStep(t: Tables, u: Id)
    requires u in t.uploads
    ensures var ready := ReadyCommit(t, u);
            Drive(t, u, Reloading)
            == if ready.None? then (MarkUnknown(t, u), NeedsReview)
               else if t.uploads[u].phase == CommitStarted then Drive(t, u, CheckingFinal(ready.value))
               else Drive(t, u, Rechecking(ready.value))
  {
    hide Drive, MarkUnknown, ReadyCommit;
    LoneRun.Unfold(t, u, Reloading);
    LoneRun.Finished(MarkUnknown(t, u), u, NeedsReview);
  }

  /* ---- Reconciliation ---- */

  predicate Orphan(t: Tables, account: Option<Id>, b: Id) {
    b in t.blobs && !Referenced(t, b) && (account.None? || t.blobs[b].account == account.value)
  }

  function Orphans(t: Tables, account: Option<Id>): set<Id> {
    set b | b in t.blobs && Orphan(t, account, b)
  }

  /** A set of ids, some of them dealt with. */
  predicate Moved(rest: set<Id>, gone: set<Id>, all: set<Id>) {
    rest !! gone && rest + gone == all
  }

  lemma NoneMoved(all: set<Id>)
    ensures Moved(all, {}, all)
  {
  }

  lemma MoveOne(rest: set<Id>, gone: set<Id>, all: set<Id>, b: Id)
    requires Moved(rest, gone, all) && b in rest
    ensures Moved(rest - {b}, gone + {b}, all) && b in all && b !in gone
  {
  }

  lemma AllMoved(gone: set<Id>, all: set<Id>)
    requires Moved({}, gone, all)
    ensures gone == all
  {
  }

  ghost function ObjectsOf(t: Tables, gone: set<Id>): set<Key> {
    set b | b in gone && b in t.blobs :: t.blobs[b].key
  }

  lemma ObjectsOfOne(t: Tables, gone: set<Id>, b: Id)
    requires b in t.blobs
    ensures ObjectsOf(t, gone + {b}) == ObjectsOf(t, gone) + {t.blobs[b].key}
  {
  }

  /** The tables without some blob rows and their objects. */
  ghost function Without(t: Tables, gone: set<Id>): Tables {
    t.(blobs := t.blobs - gone,
       content := map k | k in t.content && t.content[k] !in gone :: t.content[k],
       files := t.files - ObjectsOf(t, gone))
  }

  lemma WithoutNone(t: Tables)
    ensures Without(t, {}) == t
  {
  }

  lemma RowIndex(t: Tables, b: Id)
    requires IndexSound(t.blobs, t.content) && b in t.blobs
    ensures (t.blobs[b].account, t.blobs[b].hash) in t.content
    ensures forall k :: k in t.content ==> (t.content[k] == b <==> k == (t.blobs[b].account, t.blobs[b].hash))
  {
  }

  lemma RemoveMore<K, V>(m: map<K, V>, gone: set<K>, k: K)
    ensures m - (gone + {k}) == m - gone - {k}
  {
  }

  lemma OneFewer<K, V>(m: map<K, V>, k: K)
    requires k in m
    ensures |m - {k}| + 1 == |m|
  {
  }

  lemma WithoutOne(t: Tables, gone: set<Id>, b: Id)
    requires b in t.blobs && b !in gone
    ensures Without(t, gone + {b}).blobs == Without(t, gone).blobs - {b}
    ensures Without(t, gone + {b}).files == Without(t, gone).files - {t.blobs[b].key}
    ensures |Without(t, gone + {b}).blobs| + 1 == |Without(t, gone).blobs|
  {
    hide ObjectsOf;
    ObjectsOfOne(t, gone, b);
    RemoveMore(t.blobs, gone, b);
    OneFewer(t.blobs - gone, b);
    RemoveMore(t.files, ObjectsOf(t, gone), t.blobs[b].key);
  }

  lemma WithoutContent(t: Tables, gone: set<Id>, b: Id)
    requires IndexSound(Without(t, gone).blobs, Without(t, gone).content) && b in t.blobs && b !in gone
    ensures Without(t, gone + {b}).content == Without(t, gone).content - {(t.blobs[b].account, t.blobs[b].hash)}
  {
    hide IndexSound;
    RowIndex(Without(t, gone), b);
  }

  lemma OrphanGone(t: Tables, account: Option<Id>, gone: set<Id>, b: Id)
    requires TablesInv(Without(t, gone)) && b in Orphans(t, account) && b !in gone
    ensures TablesInv(Without(t, gone + {b}))
    ensures Durable.Reclaim(Without(t, gone), b) == Without(t, gone + {b})
    ensures b in Without(t, gone).blobs && !Referenced(Without(t, gone), b)
    ensures |Without(t, gone + {b}).blobs| + 1 == |Without(t, gone).blobs|
  {
    hide TablesInv, IndexSound, Referenced;
    ReferencesKept(t, Without(t, gone));
    IndexOf(Without(t, gone));
    WithoutOne(t, gone, b);
    WithoutContent(t, gone, b);
    ReclaimKeeps(Without(t, gone), b);
  }

  lemma TidySettles(t: Tables, u: Id)
    requires TablesInv(t) && u in t.uploads && t.uploads[u].phase == Committed
    ensures if t.uploads[u].staged.None? then Settled(t.uploads[u])
            else
              var t' := Durable.TidyStage(t, u, t.uploads[u].staged.value);
              TablesInv(t') && Aside(t, t', u) && Settled(t'.uploads[u])
  {
    hide TablesInv;
    RowOf(t, u);
    if t.uploads[u].staged.Some? {
      TidyStageKeeps(t, u, t.uploads[u].staged.value);
    }
  }

  lemma ReferencesKept(t: Tables, t': Tables)
    requires t'.resources == t.resources && t'.uploads == t.uploads
    ensures forall b :: Referenced(t', b) == Referenced(t, b)
  {
  }

  lemma NoOrphans(t: Tables)
    ensures forall b :: b in Without(t, Orphans(t, None)).blobs ==> Referenced(t, b)
    ensures Without(t, Orphans(t, None)).uploads == t.uploads
  {
    hide Referenced;
  }

  /** Which rows and files go: those of the chosen account, or of all, that no resource and no upload
      refers to, and their objects. */
  lemma OrphansGone(t: Tables, account: Option<Id>)
    ensures var t' := Without(t, Orphans(t, account));
            && (forall b :: b in t.blobs ==>
                  (b !in t'.blobs <==>
                     && (account.None? || t.blobs[b].account == account.value)
                     && (forall k :: k in t.resources ==> t.resources[k].blob != b)
                     && (forall u :: u in t.uploads ==> t.uploads[u].blob != Some(b))))
            && (forall b :: b in t'.blobs ==> b in t.blobs && t'.blobs[b] == t.blobs[b])
            && (forall k :: k in t.files ==>
                  (k !in t'.files <==> exists b :: b in t.blobs && b !in t'.blobs && t.blobs[b].key == k))
            && (forall k :: k in t'.files ==> k in t.files && t'.files[k] == t.files[k])
  {
    var gone := Orphans(t, account);
    forall k | k in t.files
      ensures k in ObjectsOf(t, gone) <==> exists b :: b in t.blobs && b !in t.blobs - gone && t.blobs[b].key == k
    {
      if k in ObjectsOf(t, gone) {
        var b :| b in gone && b in t.blobs && t.blobs[b].key == k;
        assert b !in t.blobs - gone;
      }
      if b :| b in t.blobs && b !in t.blobs - gone && t.blobs[b].key == k {
        assert b in gone;
      }
    }
  }

  lemma ReferencedSame(t: Tables, t': Tables)
    requires t'.resources == t.resources && t'.uploads == t.uploads
    ensures ReferencedStages(t') == ReferencedStages(t)
    ensures forall b :: Referenced(t', b) == Referenced(t, b)
  {
  }
}

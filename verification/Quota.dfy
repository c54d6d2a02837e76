/** Stored and reserved bytes rise only when an upload is admitted, so a quota once met stays met. */
module Quota {
  import opened Prelude
  import opened Content
  import opened Durable
  import opened Session
  import opened World
  import opened TableInvariant
  import opened TableProofs
  import opened RequestInvariant
  import opened RequestProofs
  import opened ServerProofs
  import opened WorldProofs
  import opened Protocol
  import opened Supersession

  /* ---- What can only fall ---- */

  /** No row is added to an account's blobs or reservations. */
  predicate Lighter(t: Tables, t': Tables) {
    && (forall b :: b in t'.blobs ==> b in t.blobs && t'.blobs[b] == t.blobs[b])
    && (forall u :: u in t'.uploads && Reserving(t'.uploads[u]) ==>
          && u in t.uploads && Reserving(t.uploads[u])
          && t'.uploads[u].account == t.uploads[u].account && t'.uploads[u].manifest == t.uploads[u].manifest)
  }

  lemma LighterCharge(t: Tables, t': Tables, a: Id)
    requires Lighter(t, t')
    ensures Charge(t', a) <= Charge(t, a)
  {
    TotalShrinks(BlobSizes(t', a), BlobSizes(t, a));
    TotalShrinks(Reservations(t', a), Reservations(t, a));
  }

  lemma GentleIsLighter(w: World, action: Action)
    requires Inv(w) && IsGentle(action) && !action.Open?
    ensures Lighter(w.t, Step(w, action).t)
  {
    hide TablesInv, SessionInv, DuplicateInv, Step;
    var t' := Step(w, action).t;
    GentleStep(w, action);
    forall u | u in t'.uploads ensures u in w.t.uploads {
      if u !in w.t.uploads {
        StepOpens(w, action, u);
      }
    }
  }

  lemma RoughIsLighter(w: World, action: Action)
    requires !IsGentle(action) && !(action.Progress? && action.upload in w.sessions)
    ensures Lighter(w.t, Step(w, action).t)
  {
    hide AccountInUse, Referenced;
  }

  lemma EffectIsLighter(t: Tables, t': Tables, u: Id)
    requires Effect(t, t', u) && t'.blobs == t.blobs
    requires u in t.uploads && u in t'.uploads ==>
               Evolves(t.uploads[u], t'.uploads[u]) && t'.uploads[u].row == t.uploads[u].row
    requires u in t.uploads ==> RowStateFits(t.uploads[u])
    ensures Lighter(t, t')
  {
  }

  /* ---- The metadata transaction ---- */

  predicate Settles(t: Tables, t': Tables, u: Id, r: Ready) {
    && (t'.blobs == t.blobs
        || (r.proposed !in t.blobs && t'.blobs == t.blobs[r.proposed := Blob(r.account, r.hash, r.size, r.final)]))
    && u in t'.uploads && t'.uploads == t.uploads[u := t'.uploads[u]] && !Reserving(t'.uploads[u])
  }

  lemma SettledBlobs(t: Tables, t': Tables, u: Id, r: Ready, a: Id)
    requires Settles(t, t', u, r)
    ensures Used(t', a) <= Used(t, a) + if a == r.account then r.size else 0
  {
    if t'.blobs != t.blobs && a == r.account {
      TotalWith(BlobSizes(t, a), r.proposed, r.size);
      assert BlobSizes(t', a) == BlobSizes(t, a)[r.proposed := r.size];
    } else {
      assert BlobSizes(t', a) == BlobSizes(t, a);
    }
  }

  lemma SettledReservations(t: Tables, t': Tables, u: Id, r: Ready, a: Id)
    requires Settles(t, t', u, r) && u in t.uploads && Reserving(t.uploads[u]) && r.account == t.uploads[u].account
    ensures Total(Reservations(t', a)) + (if a == r.account then PartSizes(t.uploads[u].manifest.parts) else 0)
            == Total(Reservations(t, a))
  {
    assert Reservations(t', a) == Reservations(t, a) - {u};
    if a == r.account {
      TotalWithout(Reservations(t, a), u);
    } else {
      assert Reservations(t, a) - {u} == Reservations(t, a);
    }
  }

  lemma MetadataSettles(t: Tables, u: Id, r: Ready, approved: Option<Candidate>)
    requires u in t.uploads
    ensures var (t', reply) := RecordMetadata(t, u, r, approved);
            if reply.Superseded? || reply.Recorded? then Settles(t, t', u, r) else t' == t
  {
    hide Approved, NewerCommitted, LoadCandidate;
    RecordMetadataCases(t, u, r, approved);
    hide RecordMetadata;
  }

  /** The reservation ends with the transaction, and the blob row it may insert is no larger. */
  lemma RecordingCharge(t: Tables, u: Id, r: Ready, round: nat, approved: Option<Candidate>, io: bool, a: Id)
    requires u in t.uploads && PcSound(t, u, Recording(r, round, approved))
    requires SoundManifest(t.uploads[u].manifest) && RowStateFits(t.uploads[u])
    requires t.uploads[u].proof.Some? ==> t.uploads[u].proof.value.size == t.uploads[u].manifest.size
    ensures Charge(Micro(t, u, Recording(r, round, approved), io).0, a) <= Charge(t, a)
  {
    hide NewerCommitted, RowIs, Holds, RecordMetadata, Settles, Lighter, Used, Reservations, Total, LoadCandidate;
    MetadataSettles(t, u, r, approved);
    var (t', reply) := RecordMetadata(t, u, r, approved);
    if reply.Superseded? || reply.Recorded? {
      SettledBlobs(t, t', u, r, a);
      SettledReservations(t, t', u, r, a);
    } else {
      UnknownIsLighter(t, u);
      LighterCharge(t, MarkUnknown(t, u), a);
    }
  }

  lemma UnknownIsLighter(t: Tables, u: Id)
    requires u in t.uploads && Reserving(t.uploads[u])
    ensures Lighter(t, MarkUnknown(t, u))
  {
  }

  /* ---- Admission ---- */

  lemma AdmittedCharge(t: Tables, u: Id, row: Upload, a: Id)
    requires u !in t.uploads && Reserving(row)
    ensures Charge(PutRow(t, u, row), a) == Charge(t, a) + if a == row.account then PartSizes(row.manifest.parts) else 0
  {
    AdmittedReservations(t, u, row, a);
    hide Reservations, Total, PartSizes;
    if a == row.account {
      TotalWith(Reservations(t, a), u, PartSizes(row.manifest.parts));
    }
  }

  lemma AdmittedReservations(t: Tables, u: Id, row: Upload, a: Id)
    requires u !in t.uploads && Reserving(row)
    ensures u !in Reservations(t, a)
    ensures Reservations(PutRow(t, u, row), a)
            == if a == row.account then Reservations(t, a)[u := PartSizes(row.manifest.parts)] else Reservations(t, a)
  {
    hide PartSizes;
  }

  lemma OpenedCharge(t: Tables, account: Id, asset: Option<Id>, source: string, manifest: Manifest, maxPart: nat, a: Id)
    requires IdsBelow(t.accounts, t.assets, t.blobs, t.uploads, t.next)
    ensures var (t', reply) := OpenUpload(t, account, asset, source, manifest, maxPart);
            if a == account && reply.Opened? then
              && account in t.accounts && Charge(t', a) == Charge(t, a) + PartSizes(manifest.parts)
              && !OverQuota(t.accounts[a].quota, Charge(t', a))
            else Charge(t', a) == Charge(t, a)
  {
    hide AssetRow, UpsertAsset, ActiveTwin, ValidManifest, Charge, OverQuota;
    var (t', reply) := OpenUpload(t, account, asset, source, manifest, maxPart);
    UpsertAssetOnly(t, account, asset);
    var t1 := UpsertAsset(t, account, asset);
    SameCharge(t, t1, a);
    SameCharge(t, t1, account);
    if reply.Opened? {
      var row := NewUpload(account, AssetRow(t, account, asset), source, NextRow(t1), manifest);
      AdmittedCharge(t1, t1.next, row, a);
      SameCharge(PutRow(t1, t1.next, row), t', a);
    }
  }

  /** Stored plus reserved bytes rise only in the guarded insert of `create_upload`, and then stay
      within the account's quota. */
  lemma StepCharge(w: World, action: Action, a: Id)
    requires Inv(w)
    ensures || Charge(Step(w, action).t, a) <= Charge(w.t, a)
            || (action.Open? && action.account == a && a in w.t.accounts
                && !OverQuota(w.t.accounts[a].quota, Charge(Step(w, action).t, a)))
  {
    hide TablesInv, SessionInv, DuplicateInv, Charge, OverQuota, Lighter;
    if action.Open? {
      Below(w.t);
      OpenedCharge(w.t, action.account, action.asset, action.source, action.manifest, action.maxPart, a);
      OpenStepCharge(w, action, a);
    } else if IsGentle(action) {
      GentleIsLighter(w, action);
      LighterCharge(w.t, Step(w, action).t, a);
    } else if action.Progress? && action.upload in w.sessions {
      ProgressCharge(w, action.upload, action.io, a);
    } else {
      RoughIsLighter(w, action);
      LighterCharge(w.t, Step(w, action).t, a);
    }
  }

  lemma OpenStepCharge(w: World, action: Action, a: Id)
    requires action.Open?
    ensures Charge(Step(w, action).t, a)
            == Charge(OpenUpload(w.t, action.account, action.asset, action.source, action.manifest,
                                 action.maxPart).0, a)
  {
    hide OpenUpload;
    var t' := OpenUpload(w.t, action.account, action.asset, action.source, action.manifest, action.maxPart).0;
    SameCharge(t', Step(w, action).t, a);
  }

  lemma ProgressCharge(w: World, u: Id, io: bool, a: Id)
    requires Inv(w) && u in w.sessions
    ensures Charge(Step(w, Progress(u, io)).t, a) <= Charge(w.t, a)
  {
    hide TablesInv, SessionInv, DuplicateInv, Charge, Micro, Effect, Evolves, Lighter, RowStateFits;
    var pc := w.sessions[u];
    var t' := Micro(w.t, u, pc, io).0;
    MicroTables(w.t, u, pc, io);
    EffectKeys(w.t, t', u);
    if u in w.t.uploads && pc.Recording? {
      SoundOf(w.t, u, pc);
      RowOf(w.t, u);
      RecordingCharge(w.t, u, pc.r, pc.round, pc.approved, io, a);
    } else {
      OnlyRecordingAttaches(w.t, u, pc, io);
      if u in w.t.uploads {
        RowOf(w.t, u);
        StepEvolves(w, Progress(u, io), u);
      }
      EffectIsLighter(w.t, t', u);
      LighterCharge(w.t, t', a);
    }
  }

  /* ---- A fixed quota ---- */

  /** Whenever the account exists during the run it has this quota. */
  ghost predicate QuotaFixed(actions: seq<Action>, a: Id, quota: nat) {
    && (a in Run(actions).t.accounts ==> Run(actions).t.accounts[a].quota == quota)
    && (actions == [] || QuotaFixed(actions[..|actions| - 1], a, quota))
  }

  /** With a fixed quota other than 0, which means unlimited, an account never exceeds it. */
  lemma {:induction false} QuotaHolds(actions: seq<Action>, a: Id, quota: nat)
    requires AdmissibleRun(actions) && QuotaFixed(actions, a, quota) && 0 < quota <= MAX_JSON_INTEGER
    ensures Charge(Run(actions).t, a) <= quota
  {
    hide Inv, Step, Charge;
    if actions == [] {
      NothingCharged(a);
    } else {
      var earlier, last := actions[..|actions| - 1], actions[|actions| - 1];
      RunKeeps(earlier);
      QuotaHolds(earlier, a, quota);
      StepCharge(Run(earlier), last, a);
    }
  }

  lemma NothingCharged(a: Id)
    ensures Charge(EMPTY, a) == 0
  {
  }

  /** So the quota check of `begin_commit` cannot reject an upload created under that quota. */
  lemma CommitIsWithinQuota(actions: seq<Action>, u: Id, quota: nat)
    requires AdmissibleRun(actions) && u in Run(actions).t.uploads
    requires QuotaFixed(actions, Run(actions).t.uploads[u].account, quota) && quota <= MAX_JSON_INTEGER
    ensures BeginCommit(Run(actions).t, u).1 != BeginNoSpace
  {
    hide Run, AdmissibleRun, Inv, Charge, LoadCandidate;
    var t := Run(actions).t;
    var a := t.uploads[u].account;
    QuotaNow(actions, a, quota);
    if quota != 0 {
      QuotaHolds(actions, a, quota);
    }
    OpenIsLess(t, a);
  }

  lemma QuotaNow(actions: seq<Action>, a: Id, quota: nat)
    requires QuotaFixed(actions, a, quota)
    ensures a in Run(actions).t.accounts ==> Run(actions).t.accounts[a].quota == quota
  {
  }

  lemma OpenIsLess(t: Tables, a: Id)
    ensures Used(t, a) + Total(OpenReservations(t, a)) <= Charge(t, a)
  {
    TotalShrinks(OpenReservations(t, a), Reservations(t, a));
  }
}

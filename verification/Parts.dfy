/** Receiving parts: whatever else goes on, a part that was stored and then recorded is received for
    good, and the parts of an upload can always be sent. */
module Parts {
  import opened Prelude
  import opened Content
  import opened Durable
  import opened Session
  import opened World
  import opened TableInvariant
  import opened TableProofs
  import opened RequestInvariant
  import opened ServerProofs
  import opened WorldProofs
  import opened RequestProofs
  import opened Protocol

  /* ---- One part ---- */

  /** Storing a part and recording it, when its name is free or holds the same content. */
  lemma StoredIsReceived(t: Tables, u: Id, index: nat, content: Bytes)
    requires u in t.uploads && index < |t.uploads[u].manifest.parts|
    requires var spec := t.uploads[u].manifest.parts[index];
             && Fits(content, spec.size, spec.hash)
             && (PartKey(u, index) in t.files ==> Fits(t.files[PartKey(u, index)], spec.size, spec.hash))
    ensures var t' := Durable.MarkPart(Durable.StorePart(t, u, index, content), u, index);
            && t'.uploads == t.uploads[u := t.uploads[u].(received := t.uploads[u].received + {index})]
            && t' == t.(uploads := t'.uploads, files := t'.files)
            && PartKey(u, index) in t'.files && t'.files[PartKey(u, index)] == content
            && t'.files - {PartKey(u, index)} == t.files - {PartKey(u, index)}
  {
  }

  /* ---- What part files hold ---- */

  /** A part file is its upload's, and has the content of its manifest entry. */
  predicate PartsFit(t: Tables) {
    forall k :: k in t.files && k.PartKey? ==>
      k.upload < t.next
      && (k.upload in t.uploads ==>
            var parts := t.uploads[k.upload].manifest.parts;
            k.index < |parts| && Fits(t.files[k], parts[k.index].size, parts[k.index].hash))
  }

  /** Only `put_part` makes a part file. */
  lemma NewPart(w: World, action: Action, k: Key)
    requires Inv(w) && k.PartKey? && k in Step(w, action).t.files && k !in w.t.files
    ensures action.StorePart? && k.upload in w.t.uploads
    ensures var parts := w.t.uploads[k.upload].manifest.parts;
            k.index < |parts| && Fits(Step(w, action).t.files[k], parts[k.index].size, parts[k.index].hash)
  {
    hide TablesInv, SessionInv, DuplicateInv, Micro, OpenUpload, AccountInUse, Referenced, ReferencedStages, Fits,
         PathRefused, PathPinned;
    match action
    case Progress(u, io) =>
      if u in w.sessions {
        MicroTables(w.t, u, w.sessions[u], io);
      }
      assert false;
    case Open(account, asset, source, manifest, maxPart) =>
      OpenFiles(w.t, account, asset, source, manifest, maxPart);
      assert false;
    case AttachDuplicate(_) =>
      assert false;
    case _ =>
  }

  lemma OpenFiles(t: Tables, account: Id, asset: Option<Id>, source: string, manifest: Manifest, maxPart: nat)
    ensures OpenUpload(t, account, asset, source, manifest, maxPart).0.files == t.files
  {
    hide UpsertAsset, AssetRow, ActiveTwin, OverQuota, ValidManifest, Charge;
    UpsertAssetOnly(t, account, asset);
  }

  /** A part file stays as it is. */
  lemma PartStays(w: World, action: Action, k: Key)
    requires Inv(w) && k.PartKey? && k in w.t.files
    ensures k in Step(w, action).t.files && Step(w, action).t.files[k] == w.t.files[k]
  {
    hide TablesInv, SessionInv, DuplicateInv, Effect;
    if IsGentle(action) {
      GentleStep(w, action);
      GentleFile(w.t, Step(w, action).t, k);
    } else if action.Progress? && action.upload in w.sessions {
      ProgressFile(w, action, k);
    } else {
      RoughPart(w, action, k);
    }
  }

  lemma RoughPart(w: World, action: Action, k: Key)
    requires Inv(w) && !IsGentle(action) && !(action.Progress? && action.upload in w.sessions)
    requires k.PartKey? && k in w.t.files
    ensures k in Step(w, action).t.files && Step(w, action).t.files[k] == w.t.files[k]
  {
    hide AccountInUse, Referenced, TablesInv, SessionInv, DuplicateInv, Durable.Reclaim, Durable.ReclaimTorn, Cut;
    match action
    case Reclaim(b) => ReclaimedFiles(w.t, b, k);
    case ReclaimTorn(b) => ReclaimedFiles(w.t, b, k);
    case Abandon(u, tear) => if u in w.sessions { CutFilesOf(w.t, u, w.sessions[u], tear, k); }
    case _ =>
  }

  lemma ReclaimedFiles(t: Tables, b: Id, k: Key)
    requires TablesInv(t) && k.PartKey? && k in t.files
    ensures k in Durable.Reclaim(t, b).files && Durable.Reclaim(t, b).files[k] == t.files[k]
    ensures k in Durable.ReclaimTorn(t, b).files && Durable.ReclaimTorn(t, b).files[k] == t.files[k]
  {
    hide TablesInv, Referenced;
    if b in t.blobs {
      BlobAccount(t, b);
    }
  }

  /** What a torn write cuts is a stage. */
  lemma CutFilesOf(t: Tables, u: Id, pc: Pc, tear: nat, k: Key)
    requires SessionInv(t, u, pc) && k.PartKey? && k in t.files
    ensures k in Cut(t, pc, tear).files && Cut(t, pc, tear).files[k] == t.files[k]
  {
    hide PcSound;
  }

  lemma StepParts(w: World, action: Action)
    requires Inv(w) && PartsFit(w.t)
    ensures PartsFit(Step(w, action).t)
  {
    hide Inv, Step, Evolves, Fits;
    var t' := Step(w, action).t;
    forall k | k in t'.files && k.PartKey?
      ensures k.upload < t'.next
              && (k.upload in t'.uploads ==>
                    var parts := t'.uploads[k.upload].manifest.parts;
                    k.index < |parts| && Fits(t'.files[k], parts[k.index].size, parts[k.index].hash))
    {
      StepIds(w, action, k.upload);
      if k in w.t.files {
        PartStays(w, action, k);
      } else {
        NewPart(w, action, k);
        UploadBelow(w, k.upload);
      }
      if k.upload in t'.uploads && k.upload in w.t.uploads {
        StepEvolves(w, action, k.upload);
        SameDeclared(w.t.uploads[k.upload], t'.uploads[k.upload]);
      }
    }
  }

  lemma SameDeclared(before: Upload, after: Upload)
    requires Evolves(before, after)
    ensures after.manifest == before.manifest && before.received <= after.received
  {
  }

  /** In every reachable state each part file fits its manifest entry: no `put_part` meets other content
      under its name. */
  lemma {:induction false} PartFilesFit(actions: seq<Action>)
    requires AdmissibleRun(actions)
    ensures PartsFit(Run(actions).t)
  {
    hide Inv, Step, PartsFit;
    if actions == [] {
      assert PartsFit(EMPTY) by { NoParts(); }
    } else {
      var earlier, last := actions[..|actions| - 1], actions[|actions| - 1];
      RunKeeps(earlier);
      PartFilesFit(earlier);
      StepParts(Run(earlier), last);
    }
  }

  lemma NoParts()
    ensures PartsFit(EMPTY)
  {
  }

  /* ---- Any interleaving ---- */

  lemma {:induction false} PrefixAdmissible(actions: seq<Action>, n: nat)
    requires AdmissibleRun(actions) && n <= |actions|
    ensures AdmissibleRun(actions[..n])
    decreases |actions|
  {
    hide Run, Admissible;
    if n == |actions| {
      assert actions[..n] == actions;
    } else {
      PrefixAdmissible(actions[..|actions| - 1], n);
      assert actions[..|actions| - 1][..n] == actions[..n];
    }
  }

  lemma NextStep(actions: seq<Action>, n: nat)
    requires n < |actions|
    ensures Run(actions[..n + 1]) == Step(Run(actions[..n]), actions[n])
  {
    hide Step;
    assert actions[..n + 1][..n] == actions[..n];
  }

  /** A part file, once there, is there in every later state of the run. */
  lemma {:induction false} PartStaysOver(actions: seq<Action>, m: nat, n: nat, k: Key)
    requires AdmissibleRun(actions) && m <= n <= |actions| && k.PartKey? && k in Run(actions[..m]).t.files
    ensures k in Run(actions[..n]).t.files
    decreases n
  {
    hide Run, Step, Inv, AdmissibleRun;
    if m < n {
      PartStaysOver(actions, m, n - 1, k);
      PrefixAdmissible(actions, n - 1);
      RunKeeps(actions[..n - 1]);
      NextStep(actions, n - 1);
      PartStays(Run(actions[..n - 1]), actions[n - 1], k);
    }
  }

  /** An upload that is there at two points of a run is there in between. */
  lemma {:induction false} ThereBetween(actions: seq<Action>, m: nat, n: nat, u: Id)
    requires AdmissibleRun(actions) && m <= n <= |actions|
    requires u in Run(actions[..m]).t.uploads && u in Run(actions).t.uploads
    ensures u in Run(actions[..n]).t.uploads
    decreases |actions| - n
  {
    hide Run, Step, Inv, AdmissibleRun;
    if n == |actions| {
      assert actions[..n] == actions;
    } else {
      ThereBetween(actions, m, n + 1, u);
      PrefixAdmissible(actions, n);
      RunKeeps(actions[..n]);
      NextStep(actions, n);
      assert actions[..n][..m] == actions[..m];
      RunNext(actions[..n], m, u);
      StepIds(Run(actions[..n]), actions[n], u);
    }
  }

  lemma EvolvedBetween(actions: seq<Action>, m: nat, n: nat, u: Id)
    requires AdmissibleRun(actions) && m <= n <= |actions|
    requires u in Run(actions[..m]).t.uploads && u in Run(actions).t.uploads
    ensures u in Run(actions[..n]).t.uploads
    ensures Run(actions[..n]).t.uploads[u].manifest == Run(actions).t.uploads[u].manifest
    ensures Run(actions[..n]).t.uploads[u].received <= Run(actions).t.uploads[u].received
  {
    hide Run, AdmissibleRun, Evolves;
    ThereBetween(actions, m, n, u);
    RunEvolves(actions, n, u);
    SameDeclared(Run(actions[..n]).t.uploads[u], Run(actions).t.uploads[u]);
  }

  /** At these points of the run fitting bytes are stored for the part and then the part is recorded. */
  ghost predicate Sent(actions: seq<Action>, u: Id, index: nat, stored: nat, marked: nat) {
    && stored < marked < |actions| && u in Run(actions[..stored]).t.uploads && u in Run(actions).t.uploads
    && actions[stored].StorePart? && actions[stored].upload == u && actions[stored].index == index
    && actions[marked] == Action.MarkPart(u, index)
    && (var parts := Run(actions).t.uploads[u].manifest.parts;
        index < |parts| && Fits(actions[stored].bytes, parts[index].size, parts[index].hash))
  }

  lemma StoredFile(w: World, u: Id, index: nat, bytes: Bytes)
    requires u in w.t.uploads && index < |w.t.uploads[u].manifest.parts|
    requires Fits(bytes, w.t.uploads[u].manifest.parts[index].size, w.t.uploads[u].manifest.parts[index].hash)
    ensures PartKey(u, index) in Step(w, Action.StorePart(u, index, bytes)).t.files
  {
  }

  lemma MarkedPart(w: World, u: Id, index: nat)
    requires PartsFit(w.t) && u in w.t.uploads && PartKey(u, index) in w.t.files
    ensures u in Step(w, Action.MarkPart(u, index)).t.uploads
    ensures index in Step(w, Action.MarkPart(u, index)).t.uploads[u].received
  {
  }

  lemma SentIsReceived(actions: seq<Action>, u: Id, index: nat, stored: nat, marked: nat)
    requires AdmissibleRun(actions) && Sent(actions, u, index, stored, marked)
    ensures index in Run(actions).t.uploads[u].received
  {
    hide Run, Step, AdmissibleRun, PartsFit, Fits;
    EvolvedBetween(actions, stored, stored, u);
    NextStep(actions, stored);
    StoredFile(Run(actions[..stored]), u, index, actions[stored].bytes);
    PartStaysOver(actions, stored + 1, marked, PartKey(u, index));
    EvolvedBetween(actions, stored, marked, u);
    PrefixAdmissible(actions, marked);
    PartFilesFit(actions[..marked]);
    NextStep(actions, marked);
    MarkedPart(Run(actions[..marked]), u, index);
    EvolvedBetween(actions, stored, marked + 1, u);
  }

  /** Under any interleaving with other requests, other uploads, reclamation, crashes and everything
      else: when every part of an upload was stored with fitting bytes and recorded at some time, all
      its parts are received. `stored` and `marked` give the times. */
  lemma AllSentAreReceived(actions: seq<Action>, u: Id, stored: seq<nat>, marked: seq<nat>)
    requires AdmissibleRun(actions) && u in Run(actions).t.uploads
    requires |stored| == |marked| == |Run(actions).t.uploads[u].manifest.parts|
    requires forall i :: 0 <= i < |stored| ==> Sent(actions, u, i, stored[i], marked[i])
    ensures AllReceived(Run(actions).t.uploads[u])
  {
    hide Run, AdmissibleRun, Sent;
    forall i | 0 <= i < |stored| ensures i in Run(actions).t.uploads[u].received {
      SentIsReceived(actions, u, i, stored[i], marked[i]);
    }
  }

  /* ---- One part after the other ---- */

  predicate Matching(parts: seq<PartSpec>, contents: seq<Bytes>) {
    |contents| == |parts| && forall i :: 0 <= i < |parts| ==> Fits(contents[i], parts[i].size, parts[i].hash)
  }

  /** The actions that send the first `n` parts. */
  function Sending(u: Id, contents: seq<Bytes>, n: nat): seq<Action>
    requires n <= |contents|
  {
    if n == 0 then []
    else
      Sending(u, contents, n - 1)
      + [Action.StorePart(u, n - 1, contents[n - 1]), Action.MarkPart(u, n - 1)]
  }

  function UpTo(n: nat): (all: set<nat>)
    ensures forall i: nat :: i in all <==> i < n
  {
    if n == 0 then {} else UpTo(n - 1) + {n - 1}
  }

  /** What sending parts changes: the receipts, and part files under the upload's own names. */
  ghost predicate Receipts(t: Tables, t': Tables, u: Id, n: nat)
    requires u in t.uploads
  {
    && t'.uploads == t.uploads[u := t.uploads[u].(received := t.uploads[u].received + UpTo(n))]
    && t' == t.(uploads := t'.uploads, files := t'.files)
    && (forall k :: k in t.files ==> k in t'.files && t'.files[k] == t.files[k])
    && (forall k :: k in t'.files && k !in t.files ==> k.PartKey? && k.upload == u)
  }

  lemma TwoMore(actions: seq<Action>, one: Action, two: Action)
    ensures Run(actions + [one, two]) == Step(Step(Run(actions), one), two)
  {
    hide Step;
    var run := actions + [one, two];
    assert run[..|run| - 1] == actions + [one];
    assert (actions + [one])[..|actions|] == actions;
  }

  lemma StepMarks(w: World, u: Id, index: nat, content: Bytes)
    ensures Step(Step(w, Action.StorePart(u, index, content)), Action.MarkPart(u, index))
            == w.(t := Durable.MarkPart(Durable.StorePart(w.t, u, index, content), u, index))
  {
    hide Durable.StorePart, Durable.MarkPart;
  }

  lemma {:induction false} SendingAdmissible(actions: seq<Action>, u: Id, contents: seq<Bytes>, n: nat)
    requires AdmissibleRun(actions) && n <= |contents|
    ensures AdmissibleRun(actions + Sending(u, contents, n))
  {
    hide Run;
    if n == 0 {
      assert actions + [] == actions;
    } else {
      SendingAdmissible(actions, u, contents, n - 1);
      var earlier := actions + Sending(u, contents, n - 1);
      var one, two := Action.StorePart(u, n - 1, contents[n - 1]), Action.MarkPart(u, n - 1);
      assert actions + Sending(u, contents, n) == earlier + [one, two];
      assert (earlier + [one, two])[..|earlier| + 1] == earlier + [one];
      assert (earlier + [one])[..|earlier|] == earlier;
    }
  }

  lemma ReceiptsOn(t: Tables, t1: Tables, t2: Tables, u: Id, n: nat)
    requires u in t.uploads && Receipts(t, t1, u, n)
    requires t2.uploads == t1.uploads[u := t1.uploads[u].(received := t1.uploads[u].received + {n})]
    requires t2 == t1.(uploads := t2.uploads, files := t2.files)
    requires PartKey(u, n) in t1.files ==> t2.files == t1.files
    requires PartKey(u, n) in t2.files && t2.files - {PartKey(u, n)} == t1.files - {PartKey(u, n)}
    ensures Receipts(t, t2, u, n + 1)
  {
    assert UpTo(n + 1) == UpTo(n) + {n};
    hide UpTo;
    assert t.uploads[u].received + UpTo(n) + {n} == t.uploads[u].received + UpTo(n + 1);
    forall k | k in t1.files || k in t2.files
      ensures k != PartKey(u, n) ==>
                (k in t1.files <==> k in t2.files) && (k in t1.files ==> t2.files[k] == t1.files[k])
    {
      if k != PartKey(u, n) {
        assert k in t1.files <==> k in t1.files - {PartKey(u, n)};
        assert k in t2.files <==> k in t2.files - {PartKey(u, n)};
        if k in t1.files { assert (t2.files - {PartKey(u, n)})[k] == (t1.files - {PartKey(u, n)})[k]; }
      }
    }
  }

  /** From every reachable state the parts of an upload can be sent one after the other: all are received
      then, and nothing else has changed. */
  lemma {:induction false} SendingReceives(actions: seq<Action>, u: Id, contents: seq<Bytes>, n: nat)
    requires AdmissibleRun(actions) && u in Run(actions).t.uploads
    requires Matching(Run(actions).t.uploads[u].manifest.parts, contents) && n <= |contents|
    ensures var w := Run(actions);
            var w' := Run(actions + Sending(u, contents, n));
            AdmissibleRun(actions + Sending(u, contents, n)) && w' == w.(t := w'.t) && Receipts(w.t, w'.t, u, n)
  {
    hide Run, Step, AdmissibleRun, Fits, PartsFit, Receipts;
    SendingAdmissible(actions, u, contents, n);
    if n == 0 {
      assert actions + [] == actions;
      NothingSent(Run(actions).t, u);
    } else {
      SendingReceives(actions, u, contents, n - 1);
      SendingAdmissible(actions, u, contents, n - 1);
      var earlier := actions + Sending(u, contents, n - 1);
      assert actions + Sending(u, contents, n)
             == earlier + [Action.StorePart(u, n - 1, contents[n - 1]), Action.MarkPart(u, n - 1)];
      PartFilesFit(earlier);
      TwoMore(earlier, Action.StorePart(u, n - 1, contents[n - 1]), Action.MarkPart(u, n - 1));
      StepMarks(Run(earlier), u, n - 1, contents[n - 1]);
      OneSent(Run(actions).t, Run(earlier).t, u, contents, n - 1);
    }
  }

  lemma NothingSent(t: Tables, u: Id)
    requires u in t.uploads
    ensures Receipts(t, t, u, 0)
  {
    assert t.uploads[u].received + UpTo(0) == t.uploads[u].received;
    assert t.uploads[u := t.uploads[u]] == t.uploads;
  }

  lemma OneSent(t: Tables, t1: Tables, u: Id, contents: seq<Bytes>, n: nat)
    requires u in t.uploads && Matching(t.uploads[u].manifest.parts, contents) && n < |contents|
    requires Receipts(t, t1, u, n) && PartsFit(t1)
    ensures Receipts(t, Durable.MarkPart(Durable.StorePart(t1, u, n, contents[n]), u, n), u, n + 1)
  {
    hide Fits, Durable.MarkPart, Durable.StorePart;
    assert u in t1.uploads && t1.uploads[u].manifest == t.uploads[u].manifest;
    StoredIsReceived(t1, u, n, contents[n]);
    if PartKey(u, n) in t1.files {
      TakenStays(t1, u, n, contents[n]);
    }
    ReceiptsOn(t, t1, Durable.MarkPart(Durable.StorePart(t1, u, n, contents[n]), u, n), u, n);
  }

  lemma TakenStays(t: Tables, u: Id, index: nat, content: Bytes)
    requires PartKey(u, index) in t.files
    ensures Durable.MarkPart(Durable.StorePart(t, u, index, content), u, index).files == t.files
  {
    hide Fits;
  }
}

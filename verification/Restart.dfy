/** A restart: completing what was left between phases commits every good upload. */
module Restart {
  import opened Prelude
  import opened Content
  import opened Durable
  import opened Session
  import opened World
  import opened TableInvariant
  import opened TableProofs
  import opened RequestInvariant
  import opened RequestProofs
  import opened SessionProofs
  import opened WorldProofs
  import opened Protocol
  import opened Settling
  import opened Staging
  import opened Delivery

  /** The server with at most one request. */
  function Solo(t: Tables, sessions: map<Id, Pc>): World {
    World(t, sessions, map[])
  }

  ghost predicate WellOff(w: World) {
    Inv(w) && StagingInv(w) && CalmInv(w)
  }

  /** What tables satisfy after a run in which nothing was reclaimed, no stage was lost and storage worked,
      however many requests were cut off. */
  ghost predicate Sane(t: Tables) {
    WellOff(Solo(t, map[]))
  }

  lemma StepWellOff(w: World, action: Action)
    requires WellOff(w) && Calm(action) && Admissible(w, action)
    ensures WellOff(Step(w, action))
  {
    hide Inv, StagingInv, CalmInv, Step, Admissible, Calm;
    StepKeeps(w, action);
    StepStaged(w, action);
    StepGood(w, action);
  }

  /** Every state of a calm run is such, once its requests are cut off. */
  lemma {:induction false} CalmIsSane(actions: seq<Action>)
    requires CalmRun(actions)
    ensures Sane(Run(actions + [Crash]).t)
  {
    hide Run, Inv, StagingInv, CalmInv, AdmissibleRun;
    var run := actions + [Crash];
    assert CalmRun(run) by { hide *; StillCalm(actions); }
    CalmIsAdmissible(run);
    RunKeeps(run);
    StagesArePrefixes(run);
    RunGood(run);
    CrashedRun(actions);
    assert Run(run) == Solo(Run(run).t, map[]);
  }

  lemma StillCalm(actions: seq<Action>)
    requires CalmRun(actions)
    ensures CalmRun(actions + [Crash])
  {
  }

  lemma CrashedRun(actions: seq<Action>)
    ensures var w := Run(actions + [Crash]); w.sessions == map[] && w.duplicates == map[]
  {
    assert (actions + [Crash])[..|actions|] == actions;
  }

  lemma Entered(t: Tables, u: Id)
    requires Sane(t) && u in t.uploads
    ensures WellOff(Solo(t, map[u := Loading]))
  {
    hide WellOff, Run;
    StepWellOff(Solo(t, map[]), Action.Complete(u));
    assert Step(Solo(t, map[]), Action.Complete(u)) == Solo(t, map[u := Loading]);
  }

  lemma Left(t: Tables, u: Id, pc: Pc)
    requires WellOff(Solo(t, map[u := pc]))
    ensures Sane(t)
  {
    hide TablesInv, SessionInv, StagesStarted, Staged, StagedAt, AllHeld, OvertakenRows, GoodRow, Good;
  }

  lemma ProgressSolo(t: Tables, u: Id, pc: Pc)
    requires WellOff(Solo(t, map[u := pc]))
    ensures var (t', pc') := Micro(t, u, pc, true); WellOff(Solo(t', map[u := pc']))
  {
    hide WellOff, Micro;
    var (t', pc') := Micro(t, u, pc, true);
    StepWellOff(Solo(t, map[u := pc]), Progress(u, true));
    assert map[u := pc][u := pc'] == map[u := pc'];
  }

  lemma {:induction false} DriveSolo(t: Tables, u: Id, pc: Pc)
    requires WellOff(Solo(t, map[u := pc])) && Shaped(pc)
    ensures var (t', reply) := Drive(t, u, pc); WellOff(Solo(t', map[u := Done(reply)]))
    decreases Major(pc), Minor(pc)
  {
    hide WellOff, Micro, Shaped;
    if !pc.Done? {
      ProgressSolo(t, u, pc);
      MicroLowers(t, u, pc, true);
      DriveSolo(Micro(t, u, pc, true).0, u, Micro(t, u, pc, true).1);
    }
  }

  /** Completing an upload keeps the tables so; one with good content whose commit had started is
      committed, or was superseded by a newer committed upload. */
  lemma CompletionRestores(t: Tables, u: Id)
    requires Sane(t) && u in t.uploads
    ensures var (t', reply) := Drive(t, u, Loading);
            && Sane(t') && u in t'.uploads
            && (Coherent(t.uploads[u].manifest) && PreCommit(t.uploads[u]) ==>
                  || (reply.Ok? && t'.uploads[u].phase == Committed)
                  || (reply == Overtaken && t'.uploads[u].phase == Failed(true) && NewerCommitted(t', u)))
  {
    hide WellOff, Drive, Coherent, NewerCommitted, Sane;
    Entered(t, u);
    DriveSolo(t, u, Loading);
    var (t', reply) := Drive(t, u, Loading);
    Left(t', u, Done(reply));
    RowsStay(t, u);
    if Coherent(t.uploads[u].manifest) && PreCommit(t.uploads[u]) {
      GoodReply(t', u, reply);
    }
  }

  lemma RowsStay(t: Tables, u: Id)
    requires Sane(t) && u in t.uploads
    ensures var t' := Drive(t, u, Loading).0;
            && u in t'.uploads && t'.uploads[u].manifest == t.uploads[u].manifest
            && (PreCommit(t.uploads[u]) ==> t'.uploads[u].phase != Receiving)
  {
    hide Drive, Sane, WellOff, Evolves;
    Entered(t, u);
    DriveRow(t, u, Loading);
    SameContent(t.uploads[u], Drive(t, u, Loading).0.uploads[u]);
  }

  lemma SameContent(before: Upload, after: Upload)
    requires Evolves(before, after)
    ensures after.manifest == before.manifest && (PreCommit(before) ==> after.phase != Receiving)
  {
  }

  lemma {:induction false} DriveRow(t: Tables, u: Id, pc: Pc)
    requires WellOff(Solo(t, map[u := pc])) && Shaped(pc) && u in t.uploads
    ensures var t' := Drive(t, u, pc).0; u in t'.uploads && Evolves(t.uploads[u], t'.uploads[u])
    decreases Major(pc), Minor(pc)
  {
    hide WellOff, Micro, Shaped, Evolves;
    SameEvolves(t.uploads[u]);
    if !pc.Done? {
      var (t', pc') := Micro(t, u, pc, true);
      ProgressSolo(t, u, pc);
      MicroLowers(t, u, pc, true);
      MicroRow(t, u, pc);
      DriveRow(t', u, pc');
      EvolvesOn(t.uploads[u], t'.uploads[u], Drive(t', u, pc').0.uploads[u]);
    }
  }

  lemma MicroRow(t: Tables, u: Id, pc: Pc)
    requires WellOff(Solo(t, map[u := pc])) && u in t.uploads
    ensures var t' := Micro(t, u, pc, true).0; u in t'.uploads && Evolves(t.uploads[u], t'.uploads[u])
  {
    hide TablesInv, SessionInv, StagingInv, CalmInv, Micro, Effect, Evolves;
    var w := Solo(t, map[u := pc]);
    assert w.sessions[u] == pc && SessionInv(t, u, pc);
    MicroTables(t, u, pc, true);
    var t' := Micro(t, u, pc, true).0;
    EffectKeys(t, t', u);
    StepEvolves(w, Progress(u, true), u);
  }

  lemma GoodReply(t: Tables, u: Id, reply: Reply)
    requires WellOff(Solo(t, map[u := Done(reply)])) && u in t.uploads && Coherent(t.uploads[u].manifest)
    requires t.uploads[u].phase != Receiving
    ensures || (reply.Ok? && t.uploads[u].phase == Committed)
            || (reply == Overtaken && t.uploads[u].phase == Failed(true) && NewerCommitted(t, u))
  {
    hide TablesInv, StagingInv, Coherent, NewerCommitted, AllHeld, GoodRow;
    var w := Solo(t, map[u := Done(reply)]);
    assert SessionInv(t, u, w.sessions[u]) && Good(t, u, w.sessions[u]);
  }

  lemma SupersededBy(t: Tables)
    requires Sane(t)
    ensures forall u :: u in t.uploads && t.uploads[u].phase == Failed(true) ==> NewerCommitted(t, u)
  {
    hide Inv, StagingInv, AllHeld, NewerCommitted;
  }

  /** A committed upload could be at the end of its request. */
  lemma EndEntered(t: Tables, u: Id, pc: Pc)
    requires Sane(t) && u in t.uploads && pc.Tidying? && PcShape(t, u, pc) && PcSound(t, u, pc)
    ensures WellOff(Solo(t, map[u := pc]))
  {
    hide TablesInv, StagesStarted, Staged, AllHeld, OvertakenRows, GoodRow, SessionInv, StagedAt, Good, PcShape,
         PcSound;
    Below(t);
    EndFits(t, u, pc);
  }

  lemma EndFits(t: Tables, u: Id, pc: Pc)
    requires u < t.next && u in t.uploads && pc.Tidying? && PcShape(t, u, pc) && PcSound(t, u, pc)
    ensures SessionInv(t, u, pc) && StagedAt(t.files, pc) && Good(t, u, pc)
  {
    hide Coherent, ReadyShape;
  }

  /** Removing the stage of a committed upload keeps the tables so. */
  lemma TidyingKeeps(t: Tables, u: Id, stage: Key)
    requires Sane(t) && u in t.uploads && t.uploads[u].phase == Committed && t.uploads[u].staged == Some(stage)
    ensures Sane(TidyStage(t, u, stage))
  {
    hide TablesInv, StagingInv, CalmInv, TidyStage, Current;
    RowOf(t, u);
    ReadyFits(t, u);
    CommitStaged(t, u);
    var upload := t.uploads[u];
    var r := ReadyCommit(t, u).value;
    assert r.staged == upload.staged by { CopyStaged(upload, r); }
    var pc := Tidying(r, Ok(upload.resource.value, upload.asset, upload.deduplicated), false);
    hide Sane, WellOff, ReadyCommit;
    EndEntered(t, u, pc);
    ProgressSolo(t, u, pc);
    Left(TidyStage(t, u, stage), u, Done(pc.outcome));
  }

  lemma CopyStaged(upload: Upload, r: Ready)
    requires Current(upload, r)
    ensures r.staged == upload.staged
  {
  }

  /** Every upload that was between phases, with parts that make up its content, is committed now or was
      superseded by a newer committed upload. */
  ghost predicate Restored(before: map<Id, Upload>, t: Tables) {
    forall u :: u in before && PreCommit(before[u]) && Coherent(before[u].manifest) ==>
      u in t.uploads
      && (t.uploads[u].phase == Committed || (t.uploads[u].phase == Failed(true) && NewerCommitted(t, u)))
  }

  predicate Restores(before: Upload, after: Upload) {
    PreCommit(before) && Coherent(before.manifest) ==> after.phase == Committed || after.phase == Failed(true)
  }

  lemma SettledRestores(uploads: map<Id, Upload>)
    ensures forall u :: u in uploads && Settled(uploads[u]) ==> Restores(uploads[u], uploads[u])
  {
    hide Coherent;
  }

  lemma AllRestored(before: map<Id, Upload>, t: Tables)
    requires Sane(t) && before.Keys == t.uploads.Keys && forall u :: u in before ==> Restores(before[u], t.uploads[u])
    ensures Restored(before, t)
  {
    hide Sane, Coherent, NewerCommitted;
    SupersededBy(t);
  }

  lemma RestoredStill(before: map<Id, Upload>, t: Tables, t': Tables)
    requires Restored(before, t) && t'.uploads == t.uploads
    ensures Restored(before, t')
  {
    hide Coherent;
    forall u | u in t.uploads && NewerCommitted(t, u) ensures NewerCommitted(t', u) {
    }
  }
}

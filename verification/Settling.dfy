/** A request that runs to its reply leaves its upload settled, and every other upload as it was. */
module Settling {
  import opened Prelude
  import opened Content
  import opened Durable
  import opened Session
  import opened TableInvariant
  import opened TableProofs
  import opened RequestInvariant
  import opened RequestProofs
  import opened SessionProofs
  import opened Protocol
  import LoneRun
  import Recovery

  /** Nothing is left for a restart to do. */
  predicate Settled(upload: Upload) {
    !PreCommit(upload) && (upload.phase == Committed ==> upload.staged.None?)
  }

  lemma RecordSettles(t: Tables, u: Id, r: Ready, round: nat, approved: Option<Candidate>)
    requires TablesInv(t) && SessionInv(t, u, Recording(r, round, approved)) && u in t.uploads
    ensures u in Record(t, u, r, round, approved).0.uploads
    ensures Record(t, u, r, round, approved).1.Done? ==> Settled(Record(t, u, r, round, approved).0.uploads[u])
  {
    hide TablesInv, RecordMetadata, LoadCandidate, RowIs, ReadyShape;
    RecordedRow(t, u, r, round, approved);
    RecordingTouches(t, u, r, approved);
  }

  lemma LoadSettles(t: Tables, u: Id)
    requires u in t.uploads && RowHere(t, u)
    ensures u in Load(t, u).0.uploads && (Load(t, u).1.Done? ==> Settled(Load(t, u).0.uploads[u]))
  {
    hide RowSound, Current, ReadyShape, ReadyCommit;
    if Started(t.uploads[u]) {
      ReadyFits(t, u);
    }
  }

  lemma VetSettles(t: Tables, u: Id, r: Ready, round: nat, c: Candidate, again: bool)
    requires TablesInv(t) && SessionInv(t, u, Vetting(r, round, c, again)) && u in t.uploads
    ensures Vet(t, u, r, round, c, again, true).0 == t && !Vet(t, u, r, round, c, again, true).1.Done?
  {
    hide TablesInv, LoadCandidate, RowIs, ReadyShape, Current;
    LoneRun.VetPasses(t, u, r, c);
  }

  /** Other reads go on or give the upload up. */
  lemma ReadGivesUp(t: Tables, u: Id, pc: Pc)
    requires Reads(pc) && u in t.uploads && !pc.Done? && !pc.Confirming? && !pc.Loading? && !pc.Vetting?
    ensures var (t', pc') := Micro(t, u, pc, true); pc'.Done? ==> t' == MarkUnknown(t, u)
  {
    hide LoadCandidate, ReadyCommit, Holds, Inspect, MarkUnknown;
  }

  lemma ReadSettles(t: Tables, u: Id, pc: Pc)
    requires TablesInv(t) && SessionInv(t, u, pc) && u in t.uploads && Reads(pc) && !pc.Done?
    requires !pc.Confirming? && !pc.Loading?
    ensures u in Micro(t, u, pc, true).0.uploads
    ensures Micro(t, u, pc, true).1.Done? ==> Settled(Micro(t, u, pc, true).0.uploads[u])
  {
    hide TablesInv, SessionInv, Vet, Load, Reload, CheckFinal, Recheck, CheckStage, Verify, Look, Confirm;
    if pc.Vetting? {
      VetSettles(t, u, pc.r, pc.round, pc.candidate, pc.again);
    } else {
      QuietSteps(t, u, pc, true);
      ReadGivesUp(t, u, pc);
    }
  }

  lemma ConfirmSettles(t: Tables, u: Id, r: Ready, resource: Id, deduplicated: bool)
    requires u in t.uploads && InPhase(t, u, r, Committed)
    ensures u in Confirm(t, u, r, resource, deduplicated, true).0.uploads
    ensures var (t', pc) := Confirm(t, u, r, resource, deduplicated, true); pc.Done? ==> Settled(t'.uploads[u])
  {
    hide Holds;
  }

  lemma BeginSettles(t: Tables, u: Id)
    requires TablesInv(t) && SessionInv(t, u, Beginning) && u in t.uploads
    ensures u in Begin(t, u).0.uploads && (Begin(t, u).1.Done? ==> Settled(Begin(t, u).0.uploads[u]))
  {
    hide TablesInv, LoadCandidate, CommitOverQuota, AllReceived;
  }

  lemma RowSettles(t: Tables, u: Id, pc: Pc)
    requires u in t.uploads && PcSound(t, u, pc) && (pc.Counting? || pc.Failing? || pc.Advancing? || pc.Linking?)
    ensures u in Micro(t, u, pc, true).0.uploads
    ensures Micro(t, u, pc, true).1.Done? ==> Settled(Micro(t, u, pc, true).0.uploads[u])
  {
    hide Current, AllReceived, SoundManifest;
  }

  lemma EndSettles(t: Tables, u: Id, pc: Pc)
    requires SessionInv(t, u, pc) && u in t.uploads && (pc.Tidying? || pc.Discarding?)
    ensures u in Micro(t, u, pc, true).0.uploads && Settled(Micro(t, u, pc, true).0.uploads[u])
  {
  }

  lemma StepSettles(t: Tables, u: Id, pc: Pc)
    requires TablesInv(t) && SessionInv(t, u, pc) && u in t.uploads && !pc.Done?
    ensures u in Micro(t, u, pc, true).0.uploads
    ensures Micro(t, u, pc, true).1.Done? ==> Settled(Micro(t, u, pc, true).0.uploads[u])
  {
    hide TablesInv, SessionInv, Settled, Begin, Record, Write, OpenStage, Confirm, Count, MarkFailure, Advance, Link,
         Tidy, Discard, Load, Reload, CheckFinal, Recheck, CheckStage, Verify, Look, Vet;
    SoundOf(t, u, pc);
    if pc.Loading? {
      RowOf(t, u);
      LoadSettles(t, u);
    } else if pc.Confirming? {
      ConfirmSettles(t, u, pc.r, pc.resource, pc.deduplicated);
    } else if Reads(pc) {
      ReadSettles(t, u, pc);
    } else {
      match pc
      case Beginning => BeginSettles(t, u);
      case Recording(r, round, approved) => RecordSettles(t, u, r, round, approved);
      case OpeningStage(_) => AssemblyGoesOn(t, u, pc);
      case Writing(_, _, _) => AssemblyGoesOn(t, u, pc);
      case Tidying(_, _, _) => EndSettles(t, u, pc);
      case Discarding(_) => EndSettles(t, u, pc);
      case _ => RowSettles(t, u, pc);
    }
  }

  lemma AssemblyGoesOn(t: Tables, u: Id, pc: Pc)
    requires pc.OpeningStage? || pc.Writing?
    ensures Micro(t, u, pc, true).0.uploads == t.uploads && !Micro(t, u, pc, true).1.Done?
  {
    hide Holds, Fits;
  }

  /** Rows of other uploads, and accounts, do not change. */
  predicate Aside(t: Tables, t': Tables, u: Id) {
    && t'.uploads.Keys == t.uploads.Keys && t'.accounts == t.accounts
    && forall v :: v in t.uploads && v != u ==> t'.uploads[v] == t.uploads[v]
  }

  lemma EffectAside(t: Tables, t': Tables, u: Id)
    requires Effect(t, t', u)
    ensures Aside(t, t', u)
  {
  }

  lemma {:induction false} DriveSettles(t: Tables, u: Id, pc: Pc)
    requires TablesInv(t) && SessionInv(t, u, pc) && u in t.uploads && Shaped(pc)
    requires pc.Done? ==> Settled(t.uploads[u])
    ensures var t' := Drive(t, u, pc).0; TablesInv(t') && Aside(t, t', u) && Settled(t'.uploads[u])
    decreases Major(pc), Minor(pc)
  {
    hide TablesInv, SessionInv, Micro, Effect, Settled, Shaped;
    if !pc.Done? {
      var (t', pc') := Micro(t, u, pc, true);
      MicroTables(t, u, pc, true);
      EffectAside(t, t', u);
      MicroSession(t, u, pc, true);
      StepSettles(t, u, pc);
      MicroLowers(t, u, pc, true);
      DriveSettles(t', u, pc');
    }
  }

  /** A completion, from any state of the upload. */
  lemma CompletionSettles(t: Tables, u: Id)
    requires TablesInv(t) && u in t.uploads
    ensures var t' := Drive(t, u, Loading).0; TablesInv(t') && Aside(t, t', u) && Settled(t'.uploads[u])
  {
    hide TablesInv, Drive, Settled;
    Below(t);
    Recovery.LoadingSession(t, u);
    DriveSettles(t, u, Loading);
  }
}

/** Each step of a completing request establishes the assertion of the state it goes to. */
module SessionProofs {
  import opened Prelude
  import opened Content
  import opened Durable
  import opened Session
  import opened TableInvariant
  import opened TableProofs
  import opened RequestInvariant

  predicate RowHere(t: Tables, u: Id) {
    u in t.uploads ==> RowSound(t.accounts, t.assets, t.blobs, t.resources, t.files, u, t.uploads[u])
  }

  lemma ReadyFits(t: Tables, u: Id)
    requires u in t.uploads && RowHere(t, u) && Started(t.uploads[u])
    ensures ReadyCommit(t, u).Some?
    ensures ReadyShape(u, ReadyCommit(t, u).value) && Current(t.uploads[u], ReadyCommit(t, u).value)
  {
  }

  lemma GaveUp(t: Tables, u: Id)
    requires u < t.next
    ensures SessionInv(GiveUp(t, u).0, u, GiveUp(t, u).1)
  {
  }

  lemma LoadedSession(t: Tables, u: Id)
    requires u < t.next && RowHere(t, u)
    ensures SessionInv(Load(t, u).0, u, Load(t, u).1)
  {
    hide RowSound, ReadyShape, Current, ReadyCommit;
    GaveUp(t, u);
    if u in t.uploads && Started(t.uploads[u]) {
      ReadyFits(t, u);
      CommitStaged(t, u);
    }
  }

  lemma CommitStaged(t: Tables, u: Id)
    requires u in t.uploads && RowHere(t, u)
    ensures t.uploads[u].phase == CommitStarted ==> t.uploads[u].staged.Some?
    ensures t.uploads[u].phase == Committed ==> t.uploads[u].resource.Some?
  {
  }

  lemma CountedSession(t: Tables, u: Id)
    requires SessionInv(t, u, Counting)
    ensures SessionInv(Count(t, u).0, u, Count(t, u).1)
  {
  }

  lemma BegunSession(t: Tables, u: Id)
    requires SessionInv(t, u, Beginning) && RowHere(t, u)
    ensures SessionInv(Begin(t, u).0, u, Begin(t, u).1)
  {
    hide RowSound;
    assert u in t.uploads ==> t.uploads[u].account in t.accounts by {
      if u in t.uploads { AccountThere(t, u); }
    }
  }

  lemma AccountThere(t: Tables, u: Id)
    requires u in t.uploads && RowHere(t, u)
    ensures t.uploads[u].account in t.accounts
  {
  }

  lemma ReloadedSession(t: Tables, u: Id)
    requires SessionInv(t, u, Reloading) && RowHere(t, u)
    ensures SessionInv(Reload(t, u).0, u, Reload(t, u).1)
  {
    hide RowSound, ReadyShape, Current, ReadyCommit;
    GaveUp(t, u);
    if u in t.uploads {
      ReadyFits(t, u);
      CommitStaged(t, u);
    }
  }

  lemma CheckedFinal(t: Tables, u: Id, r: Ready, io: bool)
    requires SessionInv(t, u, CheckingFinal(r))
    ensures SessionInv(CheckFinal(t, u, r, io).0, u, CheckFinal(t, u, r, io).1)
  {
    hide ReadyShape, Current;
    GaveUp(t, u);
  }

  lemma OpenedStage(t: Tables, u: Id, r: Ready, io: bool)
    requires SessionInv(t, u, OpeningStage(r))
    ensures SessionInv(OpenStage(t, r, io).0, u, OpenStage(t, r, io).1)
  {
    hide ReadyShape, Current;
  }

  /** Writing leaves the rows alone. */
  lemma WritesFiles(t: Tables, u: Id, r: Ready, k: nat, read: Bytes, io: bool)
    ensures var t' := Write(t, u, r, k, read, io).0; t' == t.(files := t'.files)
  {
    hide Holds, Fits;
    assert t.(files := t.files) == t;
  }

  /** It goes on, ends or fails. */
  lemma WritesOn(t: Tables, u: Id, r: Ready, k: nat, read: Bytes, io: bool)
    requires k <= |r.manifest.parts|
    ensures var pc := Write(t, u, r, k, read, io).1;
            (|| pc == Done(IoError) || pc == Advancing(r) || pc == Failing
             || (pc.Writing? && pc.r == r && pc.k == k + 1 <= |r.manifest.parts|))
  {
    hide Holds, Fits;
  }

  lemma WrittenSession(t: Tables, files: Files, u: Id, r: Ready, k: nat, read: Bytes, pc: Pc)
    requires SessionInv(t, u, Writing(r, k, read))
    requires || pc == Done(IoError) || pc == Advancing(r) || pc == Failing
             || (pc.Writing? && pc.r == r && pc.k == k + 1 <= |r.manifest.parts|)
    ensures SessionInv(t.(files := files), u, pc)
  {
    hide ReadyShape, Current;
  }

  lemma Wrote(t: Tables, u: Id, r: Ready, k: nat, read: Bytes, io: bool)
    requires SessionInv(t, u, Writing(r, k, read))
    ensures SessionInv(Write(t, u, r, k, read, io).0, u, Write(t, u, r, k, read, io).1)
  {
    assert k <= |r.manifest.parts| by { hide PcSound; }
    hide SessionInv, Write;
    WritesFiles(t, u, r, k, read, io);
    WritesOn(t, u, r, k, read, io);
    WrittenSession(t, Write(t, u, r, k, read, io).0.files, u, r, k, read, Write(t, u, r, k, read, io).1);
  }

  lemma FailedSession(t: Tables, u: Id)
    requires SessionInv(t, u, Failing)
    ensures SessionInv(MarkFailure(t, u).0, u, MarkFailure(t, u).1)
  {
  }

  lemma Advanced(t: Tables, u: Id, r: Ready)
    requires SessionInv(t, u, Advancing(r))
    ensures SessionInv(Advance(t, u, r).0, u, Advance(t, u, r).1)
  {
    hide ReadyShape;
  }

  lemma Rechecked(t: Tables, u: Id, r: Ready, io: bool)
    requires SessionInv(t, u, Rechecking(r))
    ensures SessionInv(Recheck(t, u, r, io).0, u, Recheck(t, u, r, io).1)
  {
    hide ReadyShape, Current;
    GaveUp(t, u);
  }

  lemma CheckedStage(t: Tables, u: Id, r: Ready, io: bool)
    requires SessionInv(t, u, CheckingStage(r))
    ensures SessionInv(CheckStage(t, u, r, io).0, u, CheckStage(t, u, r, io).1)
  {
    hide ReadyShape, Current;
    GaveUp(t, u);
  }

  lemma Linked(t: Tables, u: Id, r: Ready, io: bool)
    requires SessionInv(t, u, Linking(r))
    ensures SessionInv(Link(t, u, r, io).0, u, Link(t, u, r, io).1)
  {
    hide ReadyShape, Current;
    GaveUp(t, u);
  }

  lemma Verified(t: Tables, u: Id, r: Ready, io: bool)
    requires SessionInv(t, u, Verifying(r))
    ensures SessionInv(Verify(t, u, r, io).0, u, Verify(t, u, r, io).1)
  {
    hide ReadyShape, Current;
    GaveUp(t, u);
  }

  lemma CandidateIs(t: Tables, r: Ready)
    requires IndexSound(t.blobs, t.content) && LoadCandidate(t, r.account, r.hash).Some?
    ensures RowIs(t, r, LoadCandidate(t, r.account, r.hash).value)
  {
  }

  lemma Looked(t: Tables, u: Id, r: Ready, round: nat, approved: Option<Candidate>)
    requires SessionInv(t, u, Looking(r, round, approved)) && IndexSound(t.blobs, t.content)
    ensures SessionInv(Look(t, r, round, approved).0, u, Look(t, r, round, approved).1)
  {
    hide ReadyShape, RowIs, Proven, LoadCandidate, IndexSound;
    if LoadCandidate(t, r.account, r.hash).Some? {
      CandidateIs(t, r);
    }
  }

  lemma Vetted(t: Tables, u: Id, r: Ready, round: nat, c: Candidate, again: bool, io: bool)
    requires SessionInv(t, u, Vetting(r, round, c, again))
    ensures SessionInv(Vet(t, u, r, round, c, again, io).0, u, Vet(t, u, r, round, c, again, io).1)
  {
    hide ReadyShape, RowIs, Proven;
    GaveUp(t, u);
  }

  /** In the second round the candidate checked in the first is the row, so it is approved. */
  lemma RecordedRow(t: Tables, u: Id, r: Ready, round: nat, approved: Option<Candidate>)
    requires TablesInv(t) && u in t.uploads && SessionInv(t, u, Recording(r, round, approved))
    ensures var reply := RecordMetadata(t, u, r, approved).1;
            && reply != PathChanged && reply != Refused
            && (reply.NeedsCheck? ==>
                  round == 0 && LoadCandidate(t, r.account, r.hash) == Some(reply.candidate))
            && (reply.Superseded? ==> RecordMetadata(t, u, r, approved).0.uploads[u].phase == Failed(true))
            && (reply.Recorded? ==>
                  var upload := RecordMetadata(t, u, r, approved).0.uploads[u];
                  && upload.phase == Committed && upload.staged == r.staged && upload.asset == r.asset
                  && upload.resource == Some(reply.resource) && upload.deduplicated == reply.deduplicated)
  {
    hide TablesInv, RowSound, ReadyShape;
    RecordedBlob(t, u, r);
    RecordMetadataCases(t, u, r, approved);
    AssetThere(t, u);
    assert Approved(r, None, Candidate(r.proposed, r.final, r.size, r.hash));
  }

  lemma AssetThere(t: Tables, u: Id)
    requires TablesInv(t) && u in t.uploads
    ensures t.uploads[u].asset in t.assets
  {
  }

  lemma RecordedSession(t: Tables, u: Id, r: Ready, round: nat, approved: Option<Candidate>)
    requires TablesInv(t) && SessionInv(t, u, Recording(r, round, approved))
    ensures SessionInv(Record(t, u, r, round, approved).0, u, Record(t, u, r, round, approved).1)
  {
    hide TablesInv, ReadyShape, RecordMetadata, LoadCandidate, Proven, RowIs, MarkUnknown;
    if u in t.uploads {
      RecordedHere(t, u, r, round, approved);
    } else {
      RecordedGone(t, u, r, round, approved);
    }
  }

  lemma RecordedHere(t: Tables, u: Id, r: Ready, round: nat, approved: Option<Candidate>)
    requires TablesInv(t) && SessionInv(t, u, Recording(r, round, approved)) && u in t.uploads
    ensures SessionInv(Record(t, u, r, round, approved).0, u, Record(t, u, r, round, approved).1)
  {
    hide TablesInv, ReadyShape, RecordMetadata, LoadCandidate, Proven, RowIs, MarkUnknown;
    RecordedRow(t, u, r, round, approved);
    RecordingTouches(t, u, r, approved);
    if RecordMetadata(t, u, r, approved).1.NeedsCheck? {
      assert IndexSound(t.blobs, t.content) by { IndexOf(t); }
      CandidateIs(t, r);
    }
  }

  lemma RecordedGone(t: Tables, u: Id, r: Ready, round: nat, approved: Option<Candidate>)
    requires SessionInv(t, u, Recording(r, round, approved)) && u !in t.uploads
    ensures SessionInv(Record(t, u, r, round, approved).0, u, Record(t, u, r, round, approved).1)
  {
    hide ReadyShape, RecordMetadata;
    RecordingNothing(t, u, r, approved);
  }

  lemma RecordingTouches(t: Tables, u: Id, r: Ready, approved: Option<Candidate>)
    requires u in t.uploads
    ensures t.next <= RecordMetadata(t, u, r, approved).0.next
    ensures u in RecordMetadata(t, u, r, approved).0.uploads
    ensures var (t', reply) := RecordMetadata(t, u, r, approved);
            !reply.Superseded? && !reply.Recorded? ==> t' == t
  {
  }

  lemma RecordingNothing(t: Tables, u: Id, r: Ready, approved: Option<Candidate>)
    requires u !in t.uploads
    ensures RecordMetadata(t, u, r, approved).0 == t
  {
  }

  lemma Tidied(t: Tables, u: Id, r: Ready, outcome: Reply, strict: bool, io: bool)
    requires SessionInv(t, u, Tidying(r, outcome, strict))
    ensures SessionInv(Tidy(t, u, r, outcome, strict, io).0, u, Tidy(t, u, r, outcome, strict, io).1)
  {
  }

  lemma Confirmed(t: Tables, u: Id, r: Ready, resource: Id, deduplicated: bool, io: bool)
    requires SessionInv(t, u, Confirming(r, resource, deduplicated))
    ensures SessionInv(Confirm(t, u, r, resource, deduplicated, io).0, u,
                       Confirm(t, u, r, resource, deduplicated, io).1)
  {
    hide ReadyShape;
    GaveUp(t, u);
  }

  lemma Discarded(t: Tables, u: Id, r: Ready, io: bool)
    requires SessionInv(t, u, Discarding(r))
    ensures SessionInv(Discard(t, r, io).0, u, Discard(t, r, io).1)
  {
  }

  lemma MicroSession(t: Tables, u: Id, pc: Pc, io: bool)
    requires TablesInv(t) && SessionInv(t, u, pc)
    ensures SessionInv(Micro(t, u, pc, io).0, u, Micro(t, u, pc, io).1)
  {
    hide TablesInv, SessionInv, RowSound, IndexSound;
    assert u < t.next by { BelowNext(t, u, pc); }
    if u in t.uploads {
      RowOf(t, u);
    }
    IndexOf(t);
    match pc
    case Loading => LoadedSession(t, u);
    case Counting => CountedSession(t, u);
    case Beginning => BegunSession(t, u);
    case Reloading => ReloadedSession(t, u);
    case CheckingFinal(r) => CheckedFinal(t, u, r, io);
    case OpeningStage(r) => OpenedStage(t, u, r, io);
    case Writing(r, k, read) => Wrote(t, u, r, k, read, io);
    case Failing => FailedSession(t, u);
    case Advancing(r) => Advanced(t, u, r);
    case Rechecking(r) => Rechecked(t, u, r, io);
    case CheckingStage(r) => CheckedStage(t, u, r, io);
    case Linking(r) => Linked(t, u, r, io);
    case Verifying(r) => Verified(t, u, r, io);
    case Looking(r, round, approved) => Looked(t, u, r, round, approved);
    case Vetting(r, round, c, again) => Vetted(t, u, r, round, c, again, io);
    case Recording(r, round, approved) => RecordedSession(t, u, r, round, approved);
    case Tidying(r, outcome, strict) => Tidied(t, u, r, outcome, strict, io);
    case Discarding(r) => Discarded(t, u, r, io);
    case Confirming(r, resource, deduplicated) => Confirmed(t, u, r, resource, deduplicated, io);
    case Done(_) =>
  }

  lemma BelowNext(t: Tables, u: Id, pc: Pc)
    requires SessionInv(t, u, pc)
    ensures u < t.next
  {
  }
}

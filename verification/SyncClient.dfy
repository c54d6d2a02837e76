/** A client that fills a cache by the watermark protocol: take the head, walk the snapshot by id,
    then apply every later event by reading the asset again. The server goes on changing meanwhile. */
module SyncClient {
  import opened Prelude
  import opened Library

  datatype Phase =
    | Fresh
    | Walking(cursor: Option<Id>)
    | Replaying
    | Reading(events: seq<Event>, read: map<Id, Option<Summary>>)   // one page of events

  /** `after` is the sequence the cache is saved with. */
  datatype Client = Client(phase: Phase, after: nat, cache: map<Id, Summary>)

  /** `stale` holds the assets that `create_upload` overwrote without an event, until they are read again
      or announced. */
  datatype Replica = Replica(t: Tables, client: Client, stale: set<Id>)

  const START := Replica(EMPTY, Client(Fresh, 0, map[]), {})

  datatype Action =
    | Update(asset: Id, favorite: Option<bool>, archived: Option<bool>)
    | Trash(asset: Id, trashedMs: Option<int>)
    | Delete(asset: Id)
    | NewTag(tag: Id, name: string)
    | SetTag(tag: Id, ids: seq<Id>, order: seq<Id>)
    | ChangeTag(tag: Id, asset: Id, add: bool)
    | Commit(asset: Id, source: string, resource: string)
    | Duplicate(asset: Id, row: Details, source: string, resource: string)
    | Upsert(asset: Id, row: Details)
    | Album(album: Id)
    | OtherAccounts(events: nat)
    | TakeHead
    | TakePage(limit: nat, ids: seq<Id>, more: bool)
    | TakeChanges(limit: nat)
    | ReadAsset(target: Id)
    | Apply
    | Retry
    | Restart

  function Cached(cache: map<Id, Summary>, a: Id): Option<Summary> {
    if a in cache then Some(cache[a]) else None
  }

  function Serve(w: Replica, t': Tables, silent: set<Id>): Replica {
    w.(t := t', stale := (set a | a in w.stale && !Pending(t', w.t.last, a)) + silent)
  }

  /** The assets a page of events is about. */
  function Subjects(events: seq<Event>): set<Id> {
    set e | e in events && e.kind == AssetEvent :: e.entity
  }

  function Filled(t: Tables, cache: map<Id, Summary>, ids: seq<Id>): map<Id, Summary> {
    map a | a in cache.Keys + (set x | x in ids && Visible(t, x).Some?) ::
      if a in ids && Visible(t, a).Some? then Visible(t, a).value else cache[a]
  }

  function Applied(cache: map<Id, Summary>, read: map<Id, Option<Summary>>): map<Id, Summary> {
    map a | a in cache.Keys + read.Keys && (if a in read then read[a].Some? else true) ::
      if a in read then read[a].value else cache[a]
  }

  ghost function Step(w: Replica, action: Action): Replica {
    var c := w.client;
    match action
    case Update(a, favorite, archived) => Serve(w, UpdateAsset(w.t, a, favorite, archived).0, {})
    case Trash(a, at) => Serve(w, SetTrashed(w.t, a, at).0, {})
    case Delete(a) => Serve(w, DeleteAsset(w.t, a).0, {})
    case NewTag(tag, name) => Serve(w, CreateTag(w.t, tag, name).0, {})
    case SetTag(tag, ids, order) =>
      if Lists(order, Affected(w.t, tag, ids)) then Serve(w, SetTagAssets(w.t, tag, ids, order).0, {}) else w
    case ChangeTag(tag, a, add) => Serve(w, ChangeTagAsset(w.t, tag, a, add).0, {})
    case Commit(a, source, resource) => Serve(w, AttachResource(w.t, a, source, resource).0, {})
    case Duplicate(a, row, source, resource) => Serve(w, Deduplicate(w.t, a, row, source, resource), {})
    case Upsert(a, row) => Serve(w, UpsertRow(w.t, a, row), Silent(w.t, a, row))
    case Album(album) => Serve(w, SyncAlbum(w.t, album), {})
    case OtherAccounts(events) => Serve(w, w.t.(last := w.t.last + events), {})
    case TakeHead =>
      if c.phase == Fresh then w.(client := Client(Walking(None), Head(w.t), map[])) else w
    case TakePage(limit, ids, more) =>
      if c.phase.Walking? && IsPage(w.t, c.phase.cursor, limit, ids, more) then
        w.(client := c.(cache := Filled(w.t, c.cache, ids),
                        phase := if more then Walking(Some(ids[|ids| - 1])) else Replaying),
           stale := set a | a in w.stale && a !in ids)
      else w
    case TakeChanges(limit) =>
      if c.phase == Replaying && Changes(w.t, c.after, limit) != []
      then w.(client := c.(phase := Reading(Changes(w.t, c.after, limit), map[]))) else w
    case ReadAsset(a) =>
      if c.phase.Reading? && a in Subjects(c.phase.events) && a !in c.phase.read
      then
        var read := c.phase.read[a := Visible(w.t, a)];
        w.(client := c.(phase := Reading(c.phase.events, read)), stale := w.stale - {a})
      else w
    case Apply =>
      if c.phase.Reading? && c.phase.events != [] && Subjects(c.phase.events) <= c.phase.read.Keys
      then
        var last := c.phase.events[|c.phase.events| - 1];
        w.(client := Client(Replaying, last.sequence, Applied(c.cache, c.phase.read)))
      else w
    case Retry => if c.phase.Reading? then w.(client := c.(phase := Replaying)) else w
    case Restart => w.(client := START.client)
  }

  ghost function Run(actions: seq<Action>): Replica {
    if actions == [] then START else Step(Run(actions[..|actions| - 1]), actions[|actions| - 1])
  }

  /* ---- The invariant ---- */

  predicate Agrees(w: Replica, a: Id) {
    Cached(w.client.cache, a) == Visible(w.t, a)
  }

  /** Whatever is cached about an asset is current, or will be read again. */
  predicate Covered(w: Replica, a: Id) {
    var c := w.client;
    match c.phase
    case Fresh => true
    case Walking(cursor) => Beyond(cursor, a) || Agrees(w, a) || Pending(w.t, c.after, a)
    case Replaying => Agrees(w, a) || Pending(w.t, c.after, a)
    case Reading(events, read) =>
      events != [] &&
      (|| Pending(w.t, events[|events| - 1].sequence, a)
       || (a in Subjects(events) && a !in read)
       || (a in read && read[a] == Visible(w.t, a))
       || (a !in Subjects(events) && a !in read && Agrees(w, a)))
  }

  predicate ClientSound(w: Replica) {
    var c := w.client;
    && c.after <= w.t.last
    && (c.phase.Walking? ==> forall a :: a in c.cache ==> !Beyond(c.phase.cursor, a))
    && (c.phase.Reading? ==>
          && c.phase.events != [] && c.phase.read.Keys <= Subjects(c.phase.events)
          && IsNextPage(w.t.log, c.after, c.phase.events)
          && c.phase.events[|c.phase.events| - 1].sequence <= w.t.last)
  }

  /** The events up to the last of the page, after the saved sequence, are all in the page. */
  predicate IsNextPage(log: seq<Event>, after: nat, events: seq<Event>)
    requires events != []
  {
    && (forall e :: e in log && after < e.sequence <= events[|events| - 1].sequence ==> e in events)
    && (forall e :: e in events ==> e in log && e.sequence > after)
    && after <= events[|events| - 1].sequence
  }

  ghost predicate Inv(w: Replica) {
    Sound(w.t) && ClientSound(w) && forall a: Id :: a !in w.stale ==> Covered(w, a)
  }

  /* ---- The server goes on ---- */

  lemma PendingOn(t: Tables, t': Tables, sequence: nat, a: Id)
    requires Pending(t, sequence, a) && t.log <= t'.log
    ensures Pending(t', sequence, a)
  {
  }

  lemma PendingEarlier(t: Tables, sequence: nat, earlier: nat, a: Id)
    requires Pending(t, sequence, a) && earlier <= sequence
    ensures Pending(t, earlier, a)
  {
  }

  lemma ServeCovers(w: Replica, t': Tables, silent: set<Id>, a: Id)
    requires Inv(w) && Sound(t') && Announced(w.t, t', silent) && a !in Serve(w, t', silent).stale
    ensures Covered(Serve(w, t', silent), a)
  {
    hide Visible;
    var c := w.client;
    if Pending(t', w.t.last, a) {
      PendingEarlier(t', w.t.last, c.after, a);
      if c.phase.Reading? {
        PendingEarlier(t', w.t.last, c.phase.events[|c.phase.events| - 1].sequence, a);
      }
    } else {
      assert a !in w.stale && Visible(t', a) == Visible(w.t, a);
      assert Covered(w, a);
      if Pending(w.t, c.after, a) {
        PendingOn(w.t, t', c.after, a);
      }
      if c.phase.Reading? && Pending(w.t, c.phase.events[|c.phase.events| - 1].sequence, a) {
        PendingOn(w.t, t', c.phase.events[|c.phase.events| - 1].sequence, a);
      }
    }
  }

  lemma ServeKeeps(w: Replica, t': Tables, silent: set<Id>)
    requires Inv(w) && Sound(t') && Announced(w.t, t', silent)
    ensures Inv(Serve(w, t', silent))
  {
    var w' := Serve(w, t', silent);
    forall a: Id | a !in w'.stale ensures Covered(w', a) {
      ServeCovers(w, t', silent, a);
    }
    hide Visible, Covered, Pending;
    if w.client.phase.Reading? {
      var events := w.client.phase.events;
      forall e | e in t'.log && w.client.after < e.sequence <= events[|events| - 1].sequence ensures e in events {
        var i :| 0 <= i < |t'.log| && t'.log[i] == e;
        assert i < |w.t.log| && w.t.log[i] == e;
      }
      forall e | e in events ensures e in t'.log {
        var i :| 0 <= i < |w.t.log| && w.t.log[i] == e;
        assert t'.log[i] == e;
      }
    }
  }

  /* ---- The client goes on ---- */

  /** A page of the walk settles every id up to its end. */
  lemma PageCovers(w: Replica, limit: nat, ids: seq<Id>, more: bool, a: Id)
    requires Inv(w) && w.client.phase.Walking? && IsPage(w.t, w.client.phase.cursor, limit, ids, more)
    requires a !in Step(w, TakePage(limit, ids, more)).stale
    ensures Covered(Step(w, TakePage(limit, ids, more)), a)
  {
    hide Visible, Pending;
    assert a !in ids ==> a !in w.stale && Covered(w, a);
    var cursor := w.client.phase.cursor;
    assert a !in ids && Visible(w.t, a).Some? && Beyond(cursor, a) ==> InPage(w.t, cursor, a);
  }

  lemma PageKeeps(w: Replica, limit: nat, ids: seq<Id>, more: bool)
    requires Inv(w)
    ensures Inv(Step(w, TakePage(limit, ids, more)))
  {
    hide Visible, Pending;
    var w' := Step(w, TakePage(limit, ids, more));
    if w.client.phase.Walking? && IsPage(w.t, w.client.phase.cursor, limit, ids, more) {
      forall a: Id | a !in w'.stale ensures Covered(w', a) {
        PageCovers(w, limit, ids, more, a);
      }
      if more {
        forall a | a in w'.client.cache ensures !Beyond(w'.client.phase.cursor, a) {
          if a in ids {
            var i :| 0 <= i < |ids| && ids[i] == a;
          } else {
            assert InPage(w.t, w.client.phase.cursor, ids[|ids| - 1]);
          }
        }
      }
    }
  }

  predicate Rising(log: seq<Event>) {
    forall i, j :: 0 <= i < j < |log| ==> log[i].sequence < log[j].sequence
  }

  lemma {:induction false} AfterIs(log: seq<Event>, sequence: nat)
    requires Rising(log)
    ensures forall e :: e in After(log, sequence) <==> e in log && e.sequence > sequence
    ensures Rising(After(log, sequence))
  {
    if log != [] {
      var last := log[|log| - 1];
      var earlier := After(log[..|log| - 1], sequence);
      AfterIs(log[..|log| - 1], sequence);
      InLog(log);
      RisesOn(earlier, last);
    }
  }

  /** The last element is after all the others. */
  lemma InLog(log: seq<Event>)
    requires log != [] && Rising(log)
    ensures forall e :: e in log <==> e in log[..|log| - 1] || e == log[|log| - 1]
    ensures forall e :: e in log[..|log| - 1] ==> e.sequence < log[|log| - 1].sequence
  {
  }

  lemma RisesOn(earlier: seq<Event>, last: Event)
    requires Rising(earlier) && forall e :: e in earlier ==> e.sequence < last.sequence
    ensures Rising(earlier + [last])
  {
  }

  lemma ChangesAre(t: Tables, after: nat, limit: nat)
    requires Sound(t) && Changes(t, after, limit) != []
    ensures IsNextPage(t.log, after, Changes(t, after, limit))
    ensures var events := Changes(t, after, limit); events[|events| - 1].sequence <= t.last
  {
    assert Rising(t.log);
    AfterIs(t.log, after);
    var events, page := After(t.log, after), Changes(t, after, limit);
    assert forall i :: |page| <= i < |events| ==> page[|page| - 1].sequence < events[i].sequence;
    forall e | e in events && e.sequence <= page[|page| - 1].sequence ensures e in page {
      var i :| 0 <= i < |events| && events[i] == e;
      assert page[i] == e;
    }
  }

  lemma ChangesKeep(w: Replica, limit: nat)
    requires Inv(w)
    ensures Inv(Step(w, TakeChanges(limit)))
  {
    hide Visible, Changes;
    if w.client.phase == Replaying && Changes(w.t, w.client.after, limit) != [] {
      ChangesAre(w.t, w.client.after, limit);
      var w' := Step(w, TakeChanges(limit));
      var events := w'.client.phase.events;
      forall a: Id | a !in w'.stale ensures Covered(w', a) {
        assert Covered(w, a);
        if Pending(w.t, w.client.after, a) {
          var i :| 0 <= i < |w.t.log| && w.t.log[i].sequence > w.client.after
                   && w.t.log[i].kind == AssetEvent && w.t.log[i].entity == a;
          assert w.t.log[i] in w.t.log;
        }
      }
    }
  }

  lemma ReadKeeps(w: Replica, a: Id)
    requires Inv(w)
    ensures Inv(Step(w, ReadAsset(a)))
  {
    hide Visible, Pending, Subjects;
    var w' := Step(w, ReadAsset(a));
    forall b: Id | b !in w'.stale ensures Covered(w', b) {
      if b != a {
        assert b !in w.stale && Covered(w, b);
      }
    }
  }

  lemma ApplyKeeps(w: Replica)
    requires Inv(w)
    ensures Inv(Step(w, Apply))
  {
    hide Visible, Pending, Subjects;
    var w' := Step(w, Apply);
    forall b: Id | b !in w'.stale ensures Covered(w', b) {
      assert Covered(w, b);
    }
  }

  lemma RetryKeeps(w: Replica)
    requires Inv(w)
    ensures Inv(Step(w, Retry))
  {
    hide Visible;
    if w.client.phase.Reading? {
      var w' := Step(w, Retry);
      var events := w.client.phase.events;
      forall b: Id | b !in w'.stale ensures Covered(w', b) {
        assert Covered(w, b);
        if b in Subjects(events) {
          var e :| e in events && e.kind == AssetEvent && e.entity == b;
          var i :| 0 <= i < |w.t.log| && w.t.log[i] == e;
        }
      }
    }
  }

  lemma HeadKeeps(w: Replica)
    requires Inv(w)
    ensures Inv(Step(w, TakeHead))
  {
    hide Visible, Pending;
  }

  lemma OthersKeep(w: Replica, events: nat)
    requires Inv(w)
    ensures Inv(Step(w, OtherAccounts(events)))
  {
    hide Announced, Visible, ClientSound, Covered, Sound;
    assert Sound(w.t);
    OthersAnnounce(w.t, events);
    ServeKeeps(w, w.t.(last := w.t.last + events), {});
  }

  /** Every step keeps it, whichever side takes it. */
  lemma StepKeeps(w: Replica, action: Action)
    requires Inv(w)
    ensures Inv(Step(w, action))
  {
    hide Announced, Visible, ClientSound, Covered;
    match action
    case Update(a, favorite, archived) =>
      UpdateAssetAnnounces(w.t, a, favorite, archived);
      ServeKeeps(w, UpdateAsset(w.t, a, favorite, archived).0, {});
    case Trash(a, at) =>
      SetTrashedAnnounces(w.t, a, at);
      ServeKeeps(w, SetTrashed(w.t, a, at).0, {});
    case Delete(a) =>
      DeleteAssetAnnounces(w.t, a);
      ServeKeeps(w, DeleteAsset(w.t, a).0, {});
    case NewTag(tag, name) =>
      CreateTagAnnounces(w.t, tag, name);
      ServeKeeps(w, CreateTag(w.t, tag, name).0, {});
    case SetTag(tag, ids, order) =>
      if Lists(order, Affected(w.t, tag, ids)) {
        SetTagAssetsAnnounces(w.t, tag, ids, order);
        ServeKeeps(w, SetTagAssets(w.t, tag, ids, order).0, {});
      }
    case ChangeTag(tag, a, add) =>
      ChangeTagAssetAnnounces(w.t, tag, a, add);
      ServeKeeps(w, ChangeTagAsset(w.t, tag, a, add).0, {});
    case Commit(a, source, resource) =>
      AttachResourceAnnounces(w.t, a, source, resource);
      ServeKeeps(w, AttachResource(w.t, a, source, resource).0, {});
    case Duplicate(a, row, source, resource) =>
      DeduplicateAnnounces(w.t, a, row, source, resource);
      ServeKeeps(w, Deduplicate(w.t, a, row, source, resource), {});
    case Upsert(a, row) =>
      UpsertRowIsSilent(w.t, a, row);
      ServeKeeps(w, UpsertRow(w.t, a, row), Silent(w.t, a, row));
    case Album(album) =>
      SyncAlbumAnnounces(w.t, album);
      ServeKeeps(w, SyncAlbum(w.t, album), {});
    case OtherAccounts(events) => OthersKeep(w, events);
    case TakeHead => HeadKeeps(w);
    case TakePage(limit, ids, more) => PageKeeps(w, limit, ids, more);
    case TakeChanges(limit) => ChangesKeep(w, limit);
    case ReadAsset(a) => ReadKeeps(w, a);
    case Apply => ApplyKeeps(w);
    case Retry => RetryKeeps(w);
    case Restart => RestartKeeps(w);
  }

  lemma RestartKeeps(w: Replica)
    requires Inv(w)
    ensures Inv(Step(w, Restart))
  {
  }

  lemma {:induction false} RunKeeps(actions: seq<Action>)
    ensures Inv(Run(actions))
  {
    hide Inv, Step;
    if actions == [] {
      StartKeeps();
    } else {
      RunKeeps(actions[..|actions| - 1]);
      StepKeeps(Run(actions[..|actions| - 1]), actions[|actions| - 1]);
    }
  }

  lemma StartKeeps()
    ensures Inv(START)
  {
  }

  /** Convergence: when a page of changes comes back empty, the cache holds exactly what the server
      shows, for every asset but those that were changed silently since they were last read. */
  lemma EmptyPageMeansConverged(actions: seq<Action>, limit: nat)
    requires var w := Run(actions);
             w.client.phase == Replaying && limit > 0 && Changes(w.t, w.client.after, limit) == []
    ensures var w := Run(actions); forall a: Id :: a !in w.stale ==> Cached(w.client.cache, a) == Visible(w.t, a)
  {
    hide Run, Visible;
    RunKeeps(actions);
    var w := Run(actions);
    assert Rising(w.t.log);
    AfterIs(w.t.log, w.client.after);
    forall a: Id | a !in w.stale ensures Agrees(w, a) {
      assert Covered(w, a);
      assert !Pending(w.t, w.client.after, a);
    }
  }

  /* ---- Exactly when uploads break it ---- */

  /** The client is up to date by the protocol. */
  predicate CaughtUp(w: Replica, limit: nat) {
    w.client.phase == Replaying && Changes(w.t, w.client.after, limit) == []
  }

  ghost predicate Converged(w: Replica) {
    forall a: Id :: Agrees(w, a)
  }

  /** From a converged state an upload without stored content leaves the client up to date by the
      protocol, and converged if and only if it does not overwrite a shown asset. */
  lemma UpsertKeepsConverged(w: Replica, limit: nat, a: Id, row: Details)
    requires Inv(w) && CaughtUp(w, limit) && Converged(w)
    ensures var w' := Step(w, Upsert(a, row));
            CaughtUp(w', limit) && (Converged(w') <==> !Overwrites(w.t, a, row))
  {
    hide Visible, Overwrites;
    var w' := Step(w, Upsert(a, row));
    UpsertShows(w.t, a, row);
    assert Agrees(w, a);
    if !Overwrites(w.t, a, row) {
      forall b: Id ensures Agrees(w', b) {
        assert Agrees(w, b);
      }
    } else {
      assert !Agrees(w', a);
    }
  }

  /** No upload of the run overwrites a shown asset. */
  ghost predicate Harmless(actions: seq<Action>) {
    actions == [] ||
    (var earlier, last := actions[..|actions| - 1], actions[|actions| - 1];
     Harmless(earlier) && (last.Upsert? ==> !Overwrites(Run(earlier).t, last.asset, last.row)))
  }

  /** Then being up to date by the protocol is having converged, for every asset. */
  lemma HarmlessConverges(actions: seq<Action>, limit: nat)
    requires Harmless(actions) && limit > 0 && CaughtUp(Run(actions), limit)
    ensures Converged(Run(actions))
  {
    hide Run, Visible;
    HarmlessIsFresh(actions);
    EmptyPageMeansConverged(actions, limit);
  }

  lemma {:induction false} HarmlessIsFresh(actions: seq<Action>)
    requires Harmless(actions)
    ensures Run(actions).stale == {}
  {
    hide Visible, Overwrites;
    if actions != [] {
      HarmlessIsFresh(actions[..|actions| - 1]);
      StaysFresh(Run(actions[..|actions| - 1]), actions[|actions| - 1]);
    }
  }

  lemma StaysFresh(w: Replica, action: Action)
    requires w.stale == {} && (action.Upsert? ==> !Overwrites(w.t, action.asset, action.row))
    ensures Step(w, action).stale == {}
  {
    hide Visible, Overwrites, Pending, Filled, Applied, Changes, Lists;
  }

  const PHOTO := Details("photo", 0, false, false, None)
  const VIDEO := Details("video", 0, false, false, None)

  /** An asset is uploaded and cached; then another upload of it says that it is a video. */
  const MISSED: seq<Action> :=
    [Upsert(1, PHOTO), Commit(1, "original", "content"), TakeHead, TakePage(1, [1], false), Upsert(1, VIDEO)]

  lemma RunOne(actions: seq<Action>, n: nat)
    requires n < |actions|
    ensures Run(actions[..n + 1]) == Step(Run(actions[..n]), actions[n])
  {
    hide Step;
    assert actions[..n + 1][..n] == actions[..n];
  }

  const BARE := Tables(map[1 := PHOTO], map[], map[], {}, [], 0)
  const STORED := Tables(map[1 := PHOTO], map[(1, "original") := "content"], map[], {}, [Event(1, AssetEvent, 1)], 1)
  const CACHED := Client(Replaying, 1, map[1 := Visible(STORED, 1).value])

  lemma MissedBefore()
    ensures Run(MISSED[..3]) == Replica(STORED, Client(Walking(None), 1, map[]), {})
  {
    hide Run;
    assert Run(MISSED[..0]) == START by { StartsThere(); }
    RunOne(MISSED, 0);
    assert Run(MISSED[..1]) == Replica(BARE, Client(Fresh, 0, map[]), {});
    RunOne(MISSED, 1);
    assert Run(MISSED[..2]) == Replica(STORED, Client(Fresh, 0, map[]), {});
    RunOne(MISSED, 2);
  }

  lemma MissedCached()
    ensures Run(MISSED[..4]) == Replica(STORED, CACHED, {})
  {
    hide Run, Visible;
    MissedBefore();
    RunOne(MISSED, 3);
    Shown(STORED);
    assert IsPage(STORED, None, 1, [1], false);
    assert Filled(STORED, map[], [1]) == map[1 := Visible(STORED, 1).value];
  }

  /** Such a run: this client is up to date by the protocol, with the old kind. */
  lemma SilentUpsertIsMissed()
    ensures var w := Run(MISSED);
            && CaughtUp(w, 1) && w.stale == {1}
            && Cached(w.client.cache, 1).Some? && Cached(w.client.cache, 1).value.details == PHOTO
            && Visible(w.t, 1).Some? && Visible(w.t, 1).value.details == VIDEO
  {
    hide Run, Visible;
    MissedCached();
    RunOne(MISSED, 4);
    assert MISSED[..5] == MISSED;
    Shown(STORED);
    var w := Run(MISSED);
    Shown(w.t);
  }

  lemma StartsThere()
    ensures Run(MISSED[..0]) == START
  {
  }

  lemma Shown(t: Tables)
    requires 1 in t.assets && t.resources == map[(1, "original") := "content"] && t.assets.Keys == {1}
    ensures Visible(t, 1).Some? && Visible(t, 1).value.details == t.assets[1]
    ensures forall a: Id :: Visible(t, a).Some? ==> a == 1
  {
  }
}

/** One account's library and its change log, and the operations that write both. */
module Library {
  import opened Prelude

  type Id = nat

  datatype Details = Details(kind: string, createdMs: int, favorite: bool, archived: bool, trashedMs: Option<int>)
  datatype Kind = AssetEvent | TagEvent | AlbumEvent
  datatype Event = Event(sequence: nat, kind: Kind, entity: Id)

  /** `resources` by asset and source resource, `members` are pairs of a tag and an asset, `last` is the
      last sequence given out to any account. */
  datatype Tables = Tables(
    assets: map<Id, Details>,
    resources: map<(Id, string), string>,
    tags: map<Id, string>,
    members: set<(Id, Id)>,
    log: seq<Event>,
    last: nat)

  const EMPTY := Tables(map[], map[], map[], {}, [], 0)

  /** What a client sees of an asset. */
  datatype Summary = Summary(details: Details, resources: map<string, string>, tagNames: set<(Id, string)>)

  predicate HasResource(t: Tables, a: Id) {
    exists k :: k in t.resources && k.0 == a
  }

  function ResourcesOf(t: Tables, a: Id): map<string, string> {
    var names := set k | k in t.resources && k.0 == a :: k.1;
    map name | name in names :: t.resources[(a, name)]
  }

  function TagNames(t: Tables, a: Id): set<(Id, string)> {
    set m | m in t.members && m.1 == a && m.0 in t.tags :: (m.0, t.tags[m.0])
  }

  /** `load_asset_summary`: nothing for an asset without resources. */
  function Visible(t: Tables, a: Id): Option<Summary> {
    if a in t.assets && HasResource(t, a) then Some(Summary(t.assets[a], ResourcesOf(t, a), TagNames(t, a)))
    else None
  }

  /** Append one event; other accounts' events may have taken sequence numbers in between. */
  function Logged(t: Tables, kind: Kind, entity: Id): Tables {
    t.(log := t.log + [Event(t.last + 1, kind, entity)], last := t.last + 1)
  }

  function LoggedAll(t: Tables, assets: seq<Id>): Tables {
    if assets == [] then t
    else Logged(LoggedAll(t, assets[..|assets| - 1]), AssetEvent, assets[|assets| - 1])
  }

  datatype Reply = Done | BadRequest | NotFound

  function UpdateAsset(t: Tables, a: Id, favorite: Option<bool>, archived: Option<bool>): (Tables, Reply) {
    if favorite.None? && archived.None? then (t, BadRequest)
    else if a !in t.assets then (t, NotFound)
    else
      var row := t.assets[a];
      var row1 := row.(favorite := if favorite.Some? then favorite.value else row.favorite,
                       archived := if archived.Some? then archived.value else row.archived);
      (Logged(t.(assets := t.assets[a := row1]), AssetEvent, a), Done)
  }

  function SetTrashed(t: Tables, a: Id, trashedMs: Option<int>): (Tables, Reply) {
    if a !in t.assets then (t, NotFound)
    else (Logged(t.(assets := t.assets[a := t.assets[a].(trashedMs := trashedMs)]), AssetEvent, a), Done)
  }

  /** `delete_asset_permanently`: with its resources and tag memberships (ON DELETE CASCADE). */
  function DeleteAsset(t: Tables, a: Id): (Tables, Reply) {
    if a !in t.assets || t.assets[a].trashedMs.None? || !HasResource(t, a) then (t, NotFound)
    else
      (Logged(t.(assets := t.assets - {a},
                 resources := map k | k in t.resources && k.0 != a :: t.resources[k],
                 members := set m | m in t.members && m.1 != a),
              AssetEvent, a),
       Done)
  }

  function CreateTag(t: Tables, tag: Id, name: string): (Tables, Reply) {
    if tag in t.tags then (t, BadRequest)
    else (Logged(t.(tags := t.tags[tag := name]), TagEvent, tag), Done)
  }

  function ChangeTagAsset(t: Tables, tag: Id, a: Id, add: bool): (Tables, Reply) {
    if tag !in t.tags || a !in t.assets then (t, NotFound)
    else
      (Logged(t.(members := if add then t.members + {(tag, a)} else t.members - {(tag, a)}), AssetEvent, a), Done)
  }

  const MAX_TAG_ASSETS: nat := 10_000

  /** The old members of a tag and the requested ones that exist. */
  function Affected(t: Tables, tag: Id, ids: seq<Id>): set<Id> {
    (set m | m in t.members && m.0 == tag :: m.1) + (set a | a in ids && a in t.assets)
  }

  function Retagged(t: Tables, tag: Id, ids: seq<Id>): set<(Id, Id)> {
    (set m | m in t.members && m.0 != tag) + (set a | a in ids && a in t.assets :: (tag, a))
  }

  /** A listing of a set, in any order. */
  ghost predicate Lists(order: seq<Id>, all: set<Id>) {
    (forall a :: a in order <==> a in all) && |order| == |all|
  }

  /** `set_tag_assets`: one event for every old and new member, in the order of a hash set. */
  function SetTagAssets(t: Tables, tag: Id, ids: seq<Id>, order: seq<Id>): (Tables, Reply) {
    if |ids| > MAX_TAG_ASSETS then (t, BadRequest)
    else if tag !in t.tags then (t, NotFound)
    else (Logged(LoggedAll(t.(members := Retagged(t, tag, ids)), order), TagEvent, tag), Done)
  }

  /** A committed upload attaches a resource (`commit_metadata`). */
  function AttachResource(t: Tables, a: Id, source: string, resource: string): (Tables, Reply) {
    if a !in t.assets then (t, NotFound)
    else (Logged(t.(resources := t.resources[(a, source) := resource]), AssetEvent, a), Done)
  }

  /** `upsert_asset` of `create_upload`: an existing row changes kind and date. */
  function UpsertRow(t: Tables, a: Id, row: Details): Tables {
    t.(assets := t.assets[a := if a in t.assets then t.assets[a].(kind := row.kind, createdMs := row.createdMs)
                               else row.(archived := false, trashedMs := None)])
  }

  /** `create_upload` when the content is stored: row, resource and event. */
  function Deduplicate(t: Tables, a: Id, row: Details, source: string, resource: string): Tables {
    AttachResource(UpsertRow(t, a, row), a, source, resource).0
  }

  function SyncAlbum(t: Tables, album: Id): Tables {
    Logged(t, AlbumEvent, album)
  }

  /* ---- Queries ---- */

  /** `sync_head`: the watermark. */
  function Head(t: Tables): nat {
    if t.log == [] then 0 else t.log[|t.log| - 1].sequence
  }

  /** The events after a sequence. */
  function After(log: seq<Event>, sequence: nat): seq<Event> {
    if log == [] then []
    else
      var earlier := After(log[..|log| - 1], sequence);
      if log[|log| - 1].sequence > sequence then earlier + [log[|log| - 1]] else earlier
  }

  /** `sync_changes`: at most `limit` of them. */
  function Changes(t: Tables, sequence: nat, limit: nat): seq<Event> {
    var events := After(t.log, sequence);
    if |events| > limit then events[..limit] else events
  }

  predicate Beyond(cursor: Option<Id>, a: Id) {
    cursor.None? || a > cursor.value
  }

  predicate InPage(t: Tables, cursor: Option<Id>, a: Id) {
    Visible(t, a).Some? && Beyond(cursor, a)
  }

  /** `snapshot`: the first `limit` visible ids beyond the cursor in ascending order, and whether
      there are more. */
  ghost predicate IsPage(t: Tables, cursor: Option<Id>, limit: nat, ids: seq<Id>, more: bool) {
    && (forall i, j :: 0 <= i < j < |ids| ==> ids[i] < ids[j])
    && (forall a :: a in ids ==> InPage(t, cursor, a))
    && (if more then |ids| == limit > 0 && forall a :: InPage(t, cursor, a) && a !in ids ==> a > ids[|ids| - 1]
        else forall a :: InPage(t, cursor, a) ==> a in ids)
  }

  /* ---- What every operation keeps ---- */

  /** Sequences rise along the log and are at most the last one given out; memberships are of tags
      and resources of assets that exist. */
  predicate Sound(t: Tables) {
    && (forall m :: m in t.members ==> m.0 in t.tags) && (forall k :: k in t.resources ==> k.0 in t.assets)
    && (forall i, j :: 0 <= i < j < |t.log| ==> t.log[i].sequence < t.log[j].sequence)
    && (forall i :: 0 <= i < |t.log| ==> t.log[i].sequence <= t.last)
  }

  /** Some event about the asset comes after the sequence. */
  predicate Pending(t: Tables, sequence: nat, a: Id) {
    exists i :: 0 <= i < |t.log| && t.log[i].sequence > sequence && t.log[i].kind == AssetEvent && t.log[i].entity == a
  }

  /** The log only grows, by later sequences, and every asset that changed for clients, other than
      the silent ones, has an event among the new ones. */
  ghost predicate Announced(t: Tables, t': Tables, silent: set<Id>) {
    && t.last <= t'.last && t.log <= t'.log
    && (forall i :: |t.log| <= i < |t'.log| ==> t'.log[i].sequence > t.last)
    && (forall a :: Visible(t', a) != Visible(t, a) && a !in silent ==> Pending(t', t.last, a))
  }

  lemma LoggedKeeps(t: Tables, kind: Kind, entity: Id)
    requires Sound(t)
    ensures Sound(Logged(t, kind, entity))
    ensures kind == AssetEvent ==> Pending(Logged(t, kind, entity), t.last, entity)
    ensures forall a :: Visible(Logged(t, kind, entity), a) == Visible(t, a)
  {
    var t' := Logged(t, kind, entity);
    assert t'.log[|t.log|] == Event(t.last + 1, kind, entity);
    forall a ensures Visible(t', a) == Visible(t, a) {
      SameRows(t, t', a);
    }
  }

  /** What a client sees of an asset depends on its row, its resources and its tags only. */
  lemma SameRows(t: Tables, t': Tables, a: Id)
    requires a in t.assets <==> a in t'.assets
    requires a in t.assets ==> t.assets[a] == t'.assets[a]
    requires forall name :: (a, name) in t.resources <==> (a, name) in t'.resources
    requires forall name :: (a, name) in t.resources ==> t.resources[(a, name)] == t'.resources[(a, name)]
    requires forall tag :: (tag, a) in t.members <==> (tag, a) in t'.members
    requires forall tag :: (tag, a) in t.members ==>
               (tag in t.tags <==> tag in t'.tags) && (tag in t.tags ==> t.tags[tag] == t'.tags[tag])
    ensures Visible(t', a) == Visible(t, a)
  {
    assert HasResource(t, a) == HasResource(t', a) by {
      if HasResource(t, a) {
        var k :| k in t.resources && k.0 == a;
        assert (a, k.1) in t'.resources;
      }
      if HasResource(t', a) {
        var k :| k in t'.resources && k.0 == a;
        assert (a, k.1) in t.resources;
      }
    }
    assert ResourcesOf(t, a) == ResourcesOf(t', a) by {
      forall name ensures name in ResourcesOf(t, a) <==> name in ResourcesOf(t', a) {
        assert name in ResourcesOf(t, a) <==> (a, name) in t.resources;
        assert name in ResourcesOf(t', a) <==> (a, name) in t'.resources;
      }
    }
    assert TagNames(t, a) == TagNames(t', a) by {
      forall tag: Id, name: string ensures (tag, name) in TagNames(t, a) <==> (tag, name) in TagNames(t', a) {
        TagName(t, a, tag, name);
        TagName(t', a, tag, name);
      }
    }
  }

  lemma TagName(t: Tables, a: Id, tag: Id, name: string)
    ensures (tag, name) in TagNames(t, a) <==> (tag, a) in t.members && tag in t.tags && t.tags[tag] == name
  {
  }

  /* ---- Every operation announces what it changes ---- */

  lemma OneAnnounced(t: Tables, t1: Tables, kind: Kind, entity: Id)
    requires Sound(t) && Sound(t1) && t1.log == t.log && t1.last == t.last
    requires forall a :: a != entity || kind != AssetEvent ==> Visible(t1, a) == Visible(t, a)
    ensures Sound(Logged(t1, kind, entity)) && Announced(t, Logged(t1, kind, entity), {})
  {
    hide Visible;
    LoggedKeeps(t1, kind, entity);
  }

  lemma NothingAnnounced(t: Tables)
    ensures Announced(t, t, {})
  {
  }

  lemma UpdateAssetAnnounces(t: Tables, a: Id, favorite: Option<bool>, archived: Option<bool>)
    requires Sound(t)
    ensures var t' := UpdateAsset(t, a, favorite, archived).0; Sound(t') && Announced(t, t', {})
  {
    hide Announced;
    NothingAnnounced(t);
    if UpdateAsset(t, a, favorite, archived).1.Done? {
      var t1 := t.(assets := UpdateAsset(t, a, favorite, archived).0.assets);
      RowChanged(t, t1, a);
      OneAnnounced(t, t1, AssetEvent, a);
    }
  }

  /** A change of one asset's row shows in that asset only. */
  lemma RowChanged(t: Tables, t1: Tables, a: Id)
    requires t1.resources == t.resources && t1.tags == t.tags && t1.members == t.members
    requires forall b :: b != a ==>
               (b in t1.assets <==> b in t.assets) && (b in t.assets ==> t1.assets[b] == t.assets[b])
    ensures forall b :: b != a ==> Visible(t1, b) == Visible(t, b)
  {
    hide Visible;
    forall b | b != a ensures Visible(t1, b) == Visible(t, b) {
      SameRows(t, t1, b);
    }
  }

  lemma SetTrashedAnnounces(t: Tables, a: Id, trashedMs: Option<int>)
    requires Sound(t)
    ensures var t' := SetTrashed(t, a, trashedMs).0; Sound(t') && Announced(t, t', {})
  {
    hide Announced;
    NothingAnnounced(t);
    if a in t.assets {
      var t1 := t.(assets := SetTrashed(t, a, trashedMs).0.assets);
      RowChanged(t, t1, a);
      OneAnnounced(t, t1, AssetEvent, a);
    }
  }

  lemma DeleteAssetAnnounces(t: Tables, a: Id)
    requires Sound(t)
    ensures var t' := DeleteAsset(t, a).0; Sound(t') && Announced(t, t', {})
  {
    hide Announced, HasResource, Visible;
    NothingAnnounced(t);
    if DeleteAsset(t, a).1.Done? {
      var t' := DeleteAsset(t, a).0;
      var t1 := t.(assets := t'.assets, resources := t'.resources, members := t'.members);
      forall b | b != a ensures Visible(t1, b) == Visible(t, b) {
        SameRows(t, t1, b);
      }
      OneAnnounced(t, t1, AssetEvent, a);
    }
  }

  lemma CreateTagAnnounces(t: Tables, tag: Id, name: string)
    requires Sound(t)
    ensures var t' := CreateTag(t, tag, name).0; Sound(t') && Announced(t, t', {})
  {
    hide Announced, Visible;
    NothingAnnounced(t);
    if tag !in t.tags {
      var t1 := t.(tags := t.tags[tag := name]);
      forall b: Id ensures Visible(t1, b) == Visible(t, b) {
        assert forall g: Id :: (g, b) in t.members ==> (g, b).0 in t.tags;
        SameRows(t, t1, b);
      }
      OneAnnounced(t, t1, TagEvent, tag);
    }
  }

  lemma ChangeTagAssetAnnounces(t: Tables, tag: Id, a: Id, add: bool)
    requires Sound(t)
    ensures var t' := ChangeTagAsset(t, tag, a, add).0; Sound(t') && Announced(t, t', {})
  {
    hide Announced, Visible;
    NothingAnnounced(t);
    if tag in t.tags && a in t.assets {
      var t1 := t.(members := ChangeTagAsset(t, tag, a, add).0.members);
      forall b | b != a ensures Visible(t1, b) == Visible(t, b) {
        SameRows(t, t1, b);
      }
      OneAnnounced(t, t1, AssetEvent, a);
    }
  }

  lemma AttachResourceAnnounces(t: Tables, a: Id, source: string, resource: string)
    requires Sound(t)
    ensures var t' := AttachResource(t, a, source, resource).0; Sound(t') && Announced(t, t', {})
  {
    hide Announced, Visible;
    NothingAnnounced(t);
    if a in t.assets {
      var t1 := t.(resources := t.resources[(a, source) := resource]);
      forall b | b != a ensures Visible(t1, b) == Visible(t, b) {
        SameRows(t, t1, b);
      }
      OneAnnounced(t, t1, AssetEvent, a);
    }
  }

  lemma DeduplicateAnnounces(t: Tables, a: Id, row: Details, source: string, resource: string)
    requires Sound(t)
    ensures var t' := Deduplicate(t, a, row, source, resource); Sound(t') && Announced(t, t', {})
  {
    hide Announced, Visible;
    var t1 := UpsertRow(t, a, row).(resources := t.resources[(a, source) := resource]);
    forall b | b != a ensures Visible(t1, b) == Visible(t, b) {
      SameRows(t, t1, b);
    }
    OneAnnounced(t, t1, AssetEvent, a);
  }

  lemma {:induction false} LoggedAllKeeps(t: Tables, assets: seq<Id>)
    requires Sound(t)
    ensures var t' := LoggedAll(t, assets);
            && Sound(t') && t.log <= t'.log && t'.last == t.last + |assets|
            && (forall i :: |t.log| <= i < |t'.log| ==> t'.log[i].sequence > t.last)
            && (forall a :: a in assets ==> Pending(t', t.last, a))
            && (forall a :: Visible(t', a) == Visible(t, a))
  {
    hide Visible;
    if assets != [] {
      var earlier, last := assets[..|assets| - 1], assets[|assets| - 1];
      LoggedAllKeeps(t, earlier);
      var t1 := LoggedAll(t, earlier);
      LoggedKeeps(t1, AssetEvent, last);
      var t' := Logged(t1, AssetEvent, last);
      forall a | a in assets ensures Pending(t', t.last, a) {
        if a in earlier {
          var i :| 0 <= i < |t1.log| && t1.log[i].sequence > t.last
                   && t1.log[i].kind == AssetEvent && t1.log[i].entity == a;
          assert t'.log[i] == t1.log[i];
        } else {
          assert a == last;
        }
      }
    }
  }

  lemma AnnouncedOn(t: Tables, t1: Tables, kind: Kind, entity: Id)
    requires Sound(t1) && Announced(t, t1, {})
    ensures Announced(t, Logged(t1, kind, entity), {})
  {
    hide Visible;
    LoggedKeeps(t1, kind, entity);
    var t' := Logged(t1, kind, entity);
    forall a | Pending(t1, t.last, a) ensures Pending(t', t.last, a) {
      var i :| 0 <= i < |t1.log| && t1.log[i].sequence > t.last
               && t1.log[i].kind == AssetEvent && t1.log[i].entity == a;
      assert t'.log[i] == t1.log[i];
    }
  }

  lemma RetaggedAnnounced(t: Tables, tag: Id, ids: seq<Id>, order: seq<Id>)
    requires Sound(t) && Lists(order, Affected(t, tag, ids)) && tag in t.tags
    ensures var t1 := LoggedAll(t.(members := Retagged(t, tag, ids)), order); Sound(t1) && Announced(t, t1, {})
  {
    hide Visible, Affected;
    var t1 := t.(members := Retagged(t, tag, ids));
    forall b | b !in Affected(t, tag, ids) ensures Visible(t1, b) == Visible(t, b) {
      OthersTagged(t, tag, ids, b);
      SameRows(t, t1, b);
    }
    LoggedAllKeeps(t1, order);
  }

  /** Both the old and the new members of the tag are announced. */
  lemma SetTagAssetsAnnounces(t: Tables, tag: Id, ids: seq<Id>, order: seq<Id>)
    requires Sound(t) && Lists(order, Affected(t, tag, ids))
    ensures var t' := SetTagAssets(t, tag, ids, order).0; Sound(t') && Announced(t, t', {})
  {
    hide Visible, Affected, Announced, LoggedAll, Lists;
    NothingAnnounced(t);
    if SetTagAssets(t, tag, ids, order).1.Done? {
      RetaggedAnnounced(t, tag, ids, order);
      var t1 := LoggedAll(t.(members := Retagged(t, tag, ids)), order);
      LoggedKeeps(t1, TagEvent, tag);
      AnnouncedOn(t, t1, TagEvent, tag);
    }
  }

  lemma OthersTagged(t: Tables, tag: Id, ids: seq<Id>, b: Id)
    requires b !in Affected(t, tag, ids)
    ensures forall g: Id :: (g, b) in Retagged(t, tag, ids) <==> (g, b) in t.members
  {
  }

  lemma SyncAlbumAnnounces(t: Tables, album: Id)
    requires Sound(t)
    ensures Sound(SyncAlbum(t, album)) && Announced(t, SyncAlbum(t, album), {})
  {
  }

  /** Sequences taken by other accounts change nothing here. */
  lemma OthersAnnounce(t: Tables, events: nat)
    requires Sound(t)
    ensures Sound(t.(last := t.last + events)) && Announced(t, t.(last := t.last + events), {})
  {
    hide Visible;
    forall a ensures Visible(t.(last := t.last + events), a) == Visible(t, a) {
      SameRows(t, t.(last := t.last + events), a);
    }
  }

  /** What a caller can see before `create_upload`: the asset is shown, and the upload gives it another
      kind or date. */
  predicate Overwrites(t: Tables, a: Id, row: Details) {
    Visible(t, a).Some? && (row.kind != t.assets[a].kind || row.createdMs != t.assets[a].createdMs)
  }

  /** The assets that change for clients without an event. */
  function Silent(t: Tables, a: Id, row: Details): set<Id> {
    if Overwrites(t, a, row) then {a} else {}
  }

  lemma UpsertShows(t: Tables, a: Id, row: Details)
    requires Sound(t)
    ensures Visible(UpsertRow(t, a, row), a) != Visible(t, a) <==> Overwrites(t, a, row)
    ensures forall b :: b != a ==> Visible(UpsertRow(t, a, row), b) == Visible(t, b)
  {
    RowChanged(t, UpsertRow(t, a, row), a);
    if !Overwrites(t, a, row) && Visible(t, a).Some? {
      SameRows(t, UpsertRow(t, a, row), a);
    }
  }

  /** `create_upload` without stored content writes no event, and changes no asset for clients but the
      one it overwrites. */
  lemma UpsertRowIsSilent(t: Tables, a: Id, row: Details)
    requires Sound(t)
    ensures Sound(UpsertRow(t, a, row)) && Announced(t, UpsertRow(t, a, row), Silent(t, a, row))
  {
    UpsertShows(t, a, row);
    hide Visible;
  }
}

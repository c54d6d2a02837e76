/** What each library operation changes for clients: when it is done, what an asset shows afterwards, and
    the events it writes. */
module LibraryEffects {
  import opened Prelude
  import opened Library

  /** The log has one more event. */
  predicate OneEvent(t: Tables, t': Tables, kind: Kind, entity: Id) {
    t'.last == t.last + 1 && t'.log == t.log + [Event(t.last + 1, kind, entity)]
  }

  /** Every other asset shows what it showed. */
  ghost predicate OthersShow(t: Tables, t': Tables, a: Id) {
    forall b :: b != a ==> Visible(t', b) == Visible(t, b)
  }

  lemma LoggedShows(t: Tables, kind: Kind, entity: Id)
    ensures forall a :: Visible(Logged(t, kind, entity), a) == Visible(t, a)
  {
    forall a ensures Visible(Logged(t, kind, entity), a) == Visible(t, a) {
      SameRows(t, Logged(t, kind, entity), a);
    }
  }

  /** A change of an asset's row shows in its details. */
  lemma RowShows(t: Tables, a: Id, row: Details)
    requires a in t.assets
    ensures var t' := Logged(t.(assets := t.assets[a := row]), AssetEvent, a);
            && OthersShow(t, t', a) && OneEvent(t, t', AssetEvent, a)
            && Visible(t', a) == if Visible(t, a).Some? then Some(Visible(t, a).value.(details := row)) else None
  {
    var t1 := t.(assets := t.assets[a := row]);
    RowChanged(t, t1, a);
    LoggedShows(t1, AssetEvent, a);
    assert HasResource(t1, a) == HasResource(t, a) && ResourcesOf(t1, a) == ResourcesOf(t, a);
    assert TagNames(t1, a) == TagNames(t, a);
  }

  /** Marking an asset needs a mark and the asset; a mark that is given takes its value, the other stays. */
  lemma UpdatingShows(t: Tables, a: Id, favorite: Option<bool>, archived: Option<bool>)
    ensures var (t', reply) := UpdateAsset(t, a, favorite, archived);
            && reply == (if favorite.None? && archived.None? then BadRequest
                         else if a !in t.assets then NotFound else Done)
            && (reply != Done ==> t' == t)
            && (reply == Done ==>
                  var row := t.assets[a];
                  && a in t'.assets
                  && (favorite.Some? ==> t'.assets[a].favorite == favorite.value)
                  && (favorite.None? ==> t'.assets[a].favorite == row.favorite)
                  && (archived.Some? ==> t'.assets[a].archived == archived.value)
                  && (archived.None? ==> t'.assets[a].archived == row.archived)
                  && t'.assets[a].kind == row.kind && t'.assets[a].createdMs == row.createdMs
                  && t'.assets[a].trashedMs == row.trashedMs
                  && OthersShow(t, t', a) && OneEvent(t, t', AssetEvent, a)
                  && (Visible(t', a).Some? <==> Visible(t, a).Some?)
                  && (Visible(t, a).Some? ==>
                        Visible(t', a).value == Visible(t, a).value.(details := t'.assets[a])))
  {
    hide Visible, OthersShow;
    if UpdateAsset(t, a, favorite, archived).1 == Done {
      RowShows(t, a, UpdateAsset(t, a, favorite, archived).0.assets[a]);
    }
  }

  lemma TrashingShows(t: Tables, a: Id, trashedMs: Option<int>)
    ensures var (t', reply) := SetTrashed(t, a, trashedMs);
            && reply == (if a in t.assets then Done else NotFound) && (reply != Done ==> t' == t)
            && (reply == Done ==>
                  && OthersShow(t, t', a) && OneEvent(t, t', AssetEvent, a)
                  && a in t'.assets && t'.assets[a].trashedMs == trashedMs
                  && t'.assets[a] == t.assets[a].(trashedMs := trashedMs)
                  && (Visible(t', a).Some? <==> Visible(t, a).Some?)
                  && (Visible(t, a).Some? ==>
                        Visible(t', a).value == Visible(t, a).value.(details := t'.assets[a])))
  {
    hide Visible, OthersShow;
    if a in t.assets {
      RowShows(t, a, t.assets[a].(trashedMs := trashedMs));
    }
  }

  /** Only an asset that is shown and in the trash is deleted. It shows no more, its resources and
      memberships are gone, and all others show what they did. */
  lemma DeletingShows(t: Tables, a: Id)
    ensures var (t', reply) := DeleteAsset(t, a);
            && reply == (if Visible(t, a).Some? && Visible(t, a).value.details.trashedMs.Some? then Done else NotFound)
            && (reply != Done ==> t' == t)
            && (reply == Done ==>
                  && OthersShow(t, t', a) && OneEvent(t, t', AssetEvent, a) && Visible(t', a).None?
                  && a !in t'.assets && !HasResource(t', a) && (forall tag :: (tag, a) !in t'.members)
                  && t'.tags == t.tags)
  {
    if DeleteAsset(t, a).1 == Done {
      var t' := DeleteAsset(t, a).0;
      forall b | b != a ensures Visible(t', b) == Visible(t, b) {
        hide Visible;
        SameRows(t, t', b);
      }
    }
  }

  lemma CreatingTagShows(t: Tables, tag: Id, name: string)
    requires Sound(t)
    ensures var (t', reply) := CreateTag(t, tag, name);
            && reply == (if tag in t.tags then BadRequest else Done) && (reply != Done ==> t' == t)
            && (reply == Done ==>
                  && t'.tags == t.tags[tag := name] && OneEvent(t, t', TagEvent, tag)
                  && forall a :: Visible(t', a) == Visible(t, a))
  {
    if tag !in t.tags {
      var t' := CreateTag(t, tag, name).0;
      forall a: Id ensures Visible(t', a) == Visible(t, a) {
        hide Visible;
        assert forall g: Id :: (g, a) in t.members ==> (g, a).0 in t.tags;
        SameRows(t, t', a);
      }
    }
  }

  /** What a change of memberships shows. */
  lemma MembersShow(t: Tables, t': Tables, a: Id)
    requires t'.assets == t.assets && t'.resources == t.resources && t'.tags == t.tags
    ensures Visible(t', a).Some? <==> Visible(t, a).Some?
    ensures Visible(t, a).Some? ==>
              && Visible(t', a).value.details == Visible(t, a).value.details
              && Visible(t', a).value.resources == Visible(t, a).value.resources
              && (forall tag, name :: (tag, name) in Visible(t', a).value.tagNames <==>
                    (tag, a) in t'.members && tag in t.tags && t.tags[tag] == name)
  {
    assert HasResource(t', a) == HasResource(t, a) && ResourcesOf(t', a) == ResourcesOf(t, a);
    forall tag, name ensures (tag, name) in TagNames(t', a) <==>
                               (tag, a) in t'.members && tag in t.tags && t.tags[tag] == name
    {
      TagName(t', a, tag, name);
    }
  }

  /** Tagging one asset adds or removes just this tag's name. */
  lemma TaggingShows(t: Tables, tag: Id, a: Id, add: bool)
    ensures var (t', reply) := ChangeTagAsset(t, tag, a, add);
            && reply == (if tag in t.tags && a in t.assets then Done else NotFound) && (reply != Done ==> t' == t)
            && (reply == Done ==>
                  && OthersShow(t, t', a) && OneEvent(t, t', AssetEvent, a)
                  && (Visible(t', a).Some? <==> Visible(t, a).Some?)
                  && (Visible(t, a).Some? ==>
                        && Visible(t', a).value.details == Visible(t, a).value.details
                        && Visible(t', a).value.resources == Visible(t, a).value.resources
                        && Visible(t', a).value.tagNames
                           == if add then Visible(t, a).value.tagNames + {(tag, t.tags[tag])}
                              else Visible(t, a).value.tagNames - {(tag, t.tags[tag])}))
  {
    var (t', reply) := ChangeTagAsset(t, tag, a, add);
    if reply == Done {
      hide Visible;
      MembersShow(t, t, a);
      MembersShow(t, t', a);
      forall b | b != a ensures Visible(t', b) == Visible(t, b) {
        SameRows(t, t', b);
      }
      if Visible(t, a).Some? {
        forall g, name
          ensures (g, name) in Visible(t', a).value.tagNames <==>
                    if g == tag && name == t.tags[tag] then add else (g, name) in Visible(t, a).value.tagNames
        {
        }
      }
    }
  }

  lemma {:induction false} LoggedAllIs(t: Tables, order: seq<Id>)
    ensures var t' := LoggedAll(t, order);
            && t' == t.(log := t'.log, last := t.last + |order|) && |t'.log| == |t.log| + |order|
            && t.log <= t'.log
            && (forall i :: 0 <= i < |order| ==>
                  t'.log[|t.log| + i] == Event(t.last + 1 + i, AssetEvent, order[i]))
  {
    if order != [] {
      LoggedAllIs(t, order[..|order| - 1]);
    }
  }

  /** Setting a tag's assets: afterwards exactly the listed assets that exist have it, and all other tags
      are as they were. */
  lemma SettingTagShows(t: Tables, tag: Id, ids: seq<Id>, order: seq<Id>, a: Id)
    ensures var (t', reply) := SetTagAssets(t, tag, ids, order);
            && reply == (if |ids| > MAX_TAG_ASSETS then BadRequest else if tag !in t.tags then NotFound else Done)
            && (reply != Done ==> t' == t)
            && (reply == Done ==>
                  && (Visible(t', a).Some? <==> Visible(t, a).Some?)
                  && (Visible(t, a).Some? ==>
                        && Visible(t', a).value.details == Visible(t, a).value.details
                        && Visible(t', a).value.resources == Visible(t, a).value.resources
                        && (forall g, name :: (g, name) in Visible(t', a).value.tagNames <==>
                              if g == tag then a in ids && name == t.tags[tag]
                              else (g, name) in Visible(t, a).value.tagNames)))
  {
    var (t', reply) := SetTagAssets(t, tag, ids, order);
    if reply == Done {
      LoggedAllIs(t.(members := Retagged(t, tag, ids)), order);
      MembersOf(t, tag, ids, a);
      ShownAsset(t, a);
      hide Visible, LoggedAll, Retagged;
      MembersShow(t, t, a);
      MembersShow(t, t', a);
    }
  }

  lemma ShownAsset(t: Tables, a: Id)
    ensures Visible(t, a).Some? ==> a in t.assets
  {
  }

  lemma MembersOf(t: Tables, tag: Id, ids: seq<Id>, a: Id)
    ensures forall g :: (g, a) in Retagged(t, tag, ids) <==>
              if g == tag then a in ids && a in t.assets else (g, a) in t.members
  {
  }

  /** It writes one event for every asset that had the tag or has it now, then one for the tag. */
  lemma SettingTagLogs(t: Tables, tag: Id, ids: seq<Id>, order: seq<Id>)
    requires Lists(order, Affected(t, tag, ids)) && SetTagAssets(t, tag, ids, order).1 == Done
    ensures var t' := SetTagAssets(t, tag, ids, order).0;
            && (forall a :: a in order <==> (tag, a) in t.members || (a in ids && a in t.assets))
            && |t'.log| == |t.log| + |order| + 1 && t.log <= t'.log
            && (forall i :: 0 <= i < |order| ==>
                  t'.log[|t.log| + i] == Event(t.last + 1 + i, AssetEvent, order[i]))
            && t'.log[|t.log| + |order|] == Event(t.last + 1 + |order|, TagEvent, tag)
  {
    LoggedAllIs(t.(members := Retagged(t, tag, ids)), order);
    forall a ensures a in order <==> (tag, a) in t.members || (a in ids && a in t.assets) {
      assert (tag, a) in t.members ==> (tag, a).1 in Affected(t, tag, ids);
    }
    hide LoggedAll, Affected;
  }

  /** A commit attaches the resource to its asset. */
  lemma AttachingShows(t: Tables, a: Id, source: string, resource: string)
    ensures var (t', reply) := AttachResource(t, a, source, resource);
            && reply == (if a in t.assets then Done else NotFound) && (reply != Done ==> t' == t)
            && (reply == Done ==>
                  && OthersShow(t, t', a) && OneEvent(t, t', AssetEvent, a) && Visible(t', a).Some?
                  && Visible(t', a).value.details == t.assets[a]
                  && source in Visible(t', a).value.resources && Visible(t', a).value.resources[source] == resource
                  && (Visible(t, a).Some? ==>
                        && Visible(t', a).value.resources == Visible(t, a).value.resources[source := resource]
                        && Visible(t', a).value.tagNames == Visible(t, a).value.tagNames))
  {
    if a in t.assets {
      var t' := AttachResource(t, a, source, resource).0;
      assert (a, source) in t'.resources && (a, source).0 == a;
      forall b | b != a ensures Visible(t', b) == Visible(t, b) {
        hide Visible;
        SameRows(t, t', b);
      }
      NamesOf(t, a);
      NamesOf(t', a);
      assert ResourcesOf(t', a) == ResourcesOf(t, a)[source := resource];
      assert TagNames(t', a) == TagNames(t, a);
    }
  }

  lemma NamesOf(t: Tables, a: Id)
    ensures forall name :: name in ResourcesOf(t, a) <==> (a, name) in t.resources
    ensures forall name :: name in ResourcesOf(t, a) ==> ResourcesOf(t, a)[name] == t.resources[(a, name)]
  {
    forall name | (a, name) in t.resources ensures name in ResourcesOf(t, a) {
      assert (a, name).0 == a && (a, name).1 == name;
    }
  }

  /** An upload's row: a new asset starts outside archive and trash; an existing one takes kind and date,
      and keeps its marks. */
  lemma UpsertingShows(t: Tables, a: Id, row: Details)
    ensures var t' := UpsertRow(t, a, row);
            && t' == t.(assets := t'.assets) && a in t'.assets && OthersShow(t, t', a)
            && t'.assets[a].kind == row.kind && t'.assets[a].createdMs == row.createdMs
            && (if a in t.assets then
                  && t'.assets[a].favorite == t.assets[a].favorite && t'.assets[a].archived == t.assets[a].archived
                  && t'.assets[a].trashedMs == t.assets[a].trashedMs
                else
                  t'.assets[a].favorite == row.favorite && !t'.assets[a].archived && t'.assets[a].trashedMs.None?)
            && (Visible(t, a).Some? ==> Visible(t', a) == Some(Visible(t, a).value.(details := t'.assets[a])))
  {
    var t' := UpsertRow(t, a, row);
    RowChanged(t, t', a);
    if Visible(t, a).Some? {
      assert HasResource(t', a) == HasResource(t, a) && ResourcesOf(t', a) == ResourcesOf(t, a);
      assert TagNames(t', a) == TagNames(t, a);
    }
  }

  /** Changing an album announces the album and shows in no asset. */
  lemma AlbumsShow(t: Tables, album: Id)
    ensures var t' := SyncAlbum(t, album);
            && OneEvent(t, t', AlbumEvent, album) && t' == t.(log := t'.log, last := t'.last)
            && forall a :: Visible(t', a) == Visible(t, a)
  {
    hide Visible;
    LoggedShows(t, AlbumEvent, album);
  }
}

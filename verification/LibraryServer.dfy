/** The library operations as the server runs them, on rows updated in place. */
module LibraryServer {
  import opened Prelude
  import opened Library

  class Server {
    var assets: map<Id, Details>
    var resources: map<(Id, string), string>
    var tags: map<Id, string>
    var members: set<(Id, Id)>
    var log: seq<Event>
    var last: nat

    function View(): Tables
      reads this
    {
      Tables(assets, resources, tags, members, log, last)
    }

    constructor ()
      ensures View() == EMPTY
    {
      assets, resources, tags, members, log, last := map[], map[], map[], {}, [], 0;
    }

    /** `record_change`. */
    method RecordChange(kind: Kind, entity: Id)
      modifies this`log, this`last
      ensures View() == Logged(old(View()), kind, entity)
    {
      last := last + 1;
      log := log + [Event(last, kind, entity)];
    }

    method UpdateAsset(a: Id, favorite: Option<bool>, archived: Option<bool>) returns (reply: Reply)
      modifies this
      ensures (View(), reply) == Library.UpdateAsset(old(View()), a, favorite, archived)
    {
      if favorite.None? && archived.None? {
        return BadRequest;
      }
      if a !in assets {
        return NotFound;
      }
      var row := assets[a];
      if favorite.Some? {
        row := row.(favorite := favorite.value);
      }
      if archived.Some? {
        row := row.(archived := archived.value);
      }
      assets := assets[a := row];
      RecordChange(AssetEvent, a);
      return Done;
    }

    method SetTrashed(a: Id, trashedMs: Option<int>) returns (reply: Reply)
      modifies this
      ensures (View(), reply) == Library.SetTrashed(old(View()), a, trashedMs)
    {
      if a !in assets {
        return NotFound;
      }
      assets := assets[a := assets[a].(trashedMs := trashedMs)];
      RecordChange(AssetEvent, a);
      return Done;
    }

    method DeleteAsset(a: Id) returns (reply: Reply)
      modifies this
      ensures (View(), reply) == Library.DeleteAsset(old(View()), a)
    {
      if a !in assets || assets[a].trashedMs.None? || !HasResource(View(), a) {
        return NotFound;
      }
      assets := assets - {a};
      resources := map k | k in resources && k.0 != a :: resources[k];
      members := set m | m in members && m.1 != a;
      RecordChange(AssetEvent, a);
      return Done;
    }

    method ChangeTagAsset(tag: Id, a: Id, add: bool) returns (reply: Reply)
      modifies this
      ensures (View(), reply) == Library.ChangeTagAsset(old(View()), tag, a, add)
    {
      if tag !in tags || a !in assets {
        return NotFound;
      }
      members := if add then members + {(tag, a)} else members - {(tag, a)};
      RecordChange(AssetEvent, a);
      return Done;
    }

    /** The first half of `set_tag_assets`: clear the tag and insert the requested assets that exist,
        collecting its old and new members. */
    method ReplaceMembers(tag: Id, ids: seq<Id>) returns (affected: set<Id>)
      modifies this`members
      ensures affected == Affected(old(View()), tag, ids)
      ensures members == Retagged(old(View()), tag, ids)
    {
      affected := set m | m in members && m.0 == tag :: m.1;
      ghost var before := affected;
      members := set m | m in members && m.0 != tag;
      ghost var others := members;
      var n := 0;
      while n < |ids|
        invariant n <= |ids|
        invariant affected == before + set a | a in ids[..n] && a in assets
        invariant members == others + set a | a in ids[..n] && a in assets :: (tag, a)
      {
        assert ids[..n + 1] == ids[..n] + [ids[n]];
        if ids[n] in assets {
          affected := affected + {ids[n]};
          members := members + {(tag, ids[n])};
        }
        n := n + 1;
      }
      assert ids[..n] == ids;
    }

    /** The second half: one event for each of them. */
    method RecordAssets(affected: set<Id>) returns (ghost order: seq<Id>)
      modifies this`log, this`last
      ensures Lists(order, affected) && View() == LoggedAll(old(View()), order)
    {
      order := [];
      var rest := affected;
      while rest != {}
        invariant rest <= affected && |order| + |rest| == |affected|
        invariant forall a :: a in order <==> a in affected - rest
        invariant View() == LoggedAll(old(View()), order)
        decreases |rest|
      {
        var a :| a in rest;
        assert (order + [a])[..|order|] == order;
        RecordChange(AssetEvent, a);
        order := order + [a];
        rest := rest - {a};
      }
    }

    /** `set_tag_assets`. */
    method SetTagAssets(tag: Id, ids: seq<Id>) returns (reply: Reply, ghost order: seq<Id>)
      modifies this
      ensures reply == Done ==> Lists(order, Affected(old(View()), tag, ids))
      ensures (View(), reply) == Library.SetTagAssets(old(View()), tag, ids, order)
    {
      hide LoggedAll, Affected, Retagged;
      if |ids| > MAX_TAG_ASSETS {
        return BadRequest, [];
      }
      if tag !in tags {
        return NotFound, [];
      }
      var affected := ReplaceMembers(tag, ids);
      order := RecordAssets(affected);
      RecordChange(TagEvent, tag);
      return Done, order;
    }

    /** `snapshot`: the visible ids beyond the cursor in ascending order, one more than the limit. */
    method Snapshot(cursor: Option<Id>, limit: nat) returns (ids: seq<Id>, more: bool)
      requires limit > 0
      ensures IsPage(View(), cursor, limit, ids, more)
    {
      var rest := set a | a in assets && InPage(View(), cursor, a);
      ids := [];
      while |ids| < limit && rest != {}
        invariant |ids| <= limit
        invariant forall i, j :: 0 <= i < j < |ids| ==> ids[i] < ids[j]
        invariant forall a :: a in ids ==> InPage(View(), cursor, a)
        invariant forall a :: a in rest ==> InPage(View(), cursor, a)
        invariant forall a :: InPage(View(), cursor, a) ==> a in ids || a in rest
        invariant forall a, i :: a in rest && 0 <= i < |ids| ==> ids[i] < a
        decreases |rest|
      {
        var least := Least(rest);
        ids := ids + [least];
        rest := rest - {least};
      }
      more := rest != {};
    }

    /** `sync_changes`. */
    method SyncChanges(after: nat, limit: nat) returns (events: seq<Event>, next: nat, more: bool)
      requires limit > 0
      ensures events == Changes(View(), after, limit)
      ensures more == (|After(log, after)| > limit)
      ensures next == if events == [] then after else events[|events| - 1].sequence
    {
      events := [];
      more := false;
      var n := 0;
      while n < |log|
        invariant n <= |log|
        invariant var all := After(log[..n], after); events == if |all| > limit then all[..limit] else all
        invariant more == (|After(log[..n], after)| > limit)
      {
        assert log[..n + 1][..n] == log[..n];
        if log[n].sequence > after {
          if |events| < limit {
            events := events + [log[n]];
          } else {
            more := true;
          }
        }
        n := n + 1;
      }
      assert log[..n] == log;
      next := if events == [] then after else events[|events| - 1].sequence;
    }
  }

  method Least(ids: set<Id>) returns (least: Id)
    requires ids != {}
    ensures least in ids && forall a :: a in ids ==> least <= a
  {
    least :| least in ids;
    var rest := ids - {least};
    while rest != {}
      invariant rest <= ids && least in ids
      invariant forall a :: a in ids && a !in rest ==> least <= a
      decreases |rest|
    {
      var a :| a in rest;
      if a < least {
        least := a;
      }
      rest := rest - {a};
    }
  }
}

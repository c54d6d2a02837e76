/** A client that is left alone catches up: its replay ends, and a fresh start repairs its cache. */
module SyncProgress {
  import opened Prelude
  import opened Library
  import opened SyncClient

  /** What the client does by itself. */
  predicate OfClient(actions: seq<Action>) {
    forall i :: 0 <= i < |actions| ==>
      || actions[i].TakeHead? || actions[i].TakePage? || actions[i].TakeChanges? || actions[i].ReadAsset?
      || actions[i].Apply? || actions[i].Retry? || actions[i].Restart?
  }

  ghost function RunFrom(w: Replica, actions: seq<Action>): Replica {
    if actions == [] then w else Step(RunFrom(w, actions[..|actions| - 1]), actions[|actions| - 1])
  }

  lemma {:induction false} RunFromOn(w: Replica, first: seq<Action>, second: seq<Action>)
    ensures RunFrom(w, first + second) == RunFrom(RunFrom(w, first), second)
    decreases |second|
  {
    hide Step;
    if second == [] {
      assert first + [] == first;
    } else {
      assert (first + second)[..|first + second| - 1] == first + second[..|second| - 1];
      RunFromOn(w, first, second[..|second| - 1]);
    }
  }

  lemma {:induction false} RunIsFrom(actions: seq<Action>)
    ensures Run(actions) == RunFrom(START, actions)
  {
    hide Step;
    if actions != [] {
      RunIsFrom(actions[..|actions| - 1]);
    }
  }

  lemma OneStep(w: Replica, action: Action)
    ensures RunFrom(w, [action]) == Step(w, action)
  {
    hide Step;
    assert [action][..0] == [];
  }

  /** One step, then more. */
  lemma StepThen(w: Replica, action: Action, more: seq<Action>)
    requires OfClient([action]) && OfClient(more)
    ensures RunFrom(w, [action] + more) == RunFrom(Step(w, action), more) && OfClient([action] + more)
  {
    hide Step;
    OneStep(w, action);
    RunFromOn(w, [action], more);
  }

  /* ---- Pages of changes ---- */

  /** A page has as many of the later events as fit, and what is left is what comes after its last one. */
  lemma PageTakes(t: Tables, after: nat, limit: nat)
    requires Sound(t) && limit > 0
    ensures var later := After(t.log, after);
            var page := Changes(t, after, limit);
            && (later == [] <==> page == [])
            && |page| == (if |later| < limit then |later| else limit)
            && (page != [] ==> After(t.log, page[|page| - 1].sequence) == later[|page|..])
            && (|later| > limit <==> exists e :: e in t.log && e.sequence > after && e !in page)
  {
    assert SyncClient.Rising(t.log);
    AfterIs(t.log, after);
    var later, page := After(t.log, after), Changes(t, after, limit);
    if page != [] {
      AfterAfter(t.log, after, |page|);
    }
    if |later| > limit {
      assert later[limit] in later;
      assert forall i :: 0 <= i < limit ==> page[i].sequence < later[limit].sequence;
    }
  }

  lemma {:induction false} AfterAfter(log: seq<Event>, after: nat, n: nat)
    requires SyncClient.Rising(log) && 0 < n <= |After(log, after)|
    ensures After(log, After(log, after)[n - 1].sequence) == After(log, after)[n..]
  {
    var m := |log| - 1;
    var later := After(log, after);
    var earlier := After(log[..m], after);
    InLog(log);
    AfterIs(log, after);
    AfterIs(log[..m], after);
    if n <= |earlier| {
      AfterAfter(log[..m], after, n);
      assert earlier[n - 1] in earlier;
      assert later[n - 1] == earlier[n - 1];
      if log[m].sequence > after {
        assert later[n..] == earlier[n..] + [log[m]];
      }
    } else {
      assert later == earlier + [log[m]] && later[n - 1] == log[m];
      NoneAfter(log, log[m].sequence);
    }
  }

  lemma {:induction false} NoneAfter(log: seq<Event>, sequence: nat)
    requires forall e :: e in log ==> e.sequence <= sequence
    ensures After(log, sequence) == []
  {
    if log != [] {
      NoneAfter(log[..|log| - 1], sequence);
    }
  }

  /* ---- Replaying ---- */

  /** The page is the same, and all it is about has been read. */
  predicate AllRead(w: Replica, w': Replica)
    requires w.client.phase.Reading?
  {
    && w'.t == w.t && w'.client.after == w.client.after && w'.client.phase.Reading?
    && w'.client.phase.events == w.client.phase.events
    && Subjects(w.client.phase.events) <= w'.client.phase.read.Keys
  }

  lemma ReadsOne(w: Replica, a: Id)
    requires w.client.phase.Reading? && a in Subjects(w.client.phase.events) && a !in w.client.phase.read
    ensures var w1 := Step(w, ReadAsset(a));
            && w1.client.phase.Reading? && w1.client.phase.events == w.client.phase.events
            && w1.client.phase.read.Keys == w.client.phase.read.Keys + {a}
            && w1.t == w.t && w1.client.after == w.client.after
  {
    hide Visible, Subjects;
  }

  lemma NoneLeft(all: set<Id>, done: set<Id>)
    requires all - done == {}
    ensures all <= done
  {
    forall a | a in all ensures a in done {
      assert a !in all - done;
    }
  }

  lemma NothingLeft(w: Replica)
    requires w.client.phase.Reading? && Subjects(w.client.phase.events) - w.client.phase.read.Keys == {}
    ensures AllRead(w, RunFrom(w, [])) && OfClient([])
  {
    hide Subjects, Step;
    NoneLeft(Subjects(w.client.phase.events), w.client.phase.read.Keys);
  }

  lemma AllReadOn(w: Replica, w1: Replica, w2: Replica)
    requires w.client.phase.Reading? && w1.client.phase.Reading? && AllRead(w1, w2)
    requires w1.t == w.t && w1.client.after == w.client.after && w1.client.phase.events == w.client.phase.events
    ensures AllRead(w, w2)
  {
    hide Subjects;
  }

  /** The client reads every asset of its page. */
  lemma {:induction false} ReadsAll(w: Replica)
    requires w.client.phase.Reading?
    ensures exists more :: OfClient(more) && AllRead(w, RunFrom(w, more))
    decreases |Subjects(w.client.phase.events) - w.client.phase.read.Keys|
  {
    hide Step, Subjects, AllRead, RunFrom;
    var left := Subjects(w.client.phase.events) - w.client.phase.read.Keys;
    if left == {} {
      NothingLeft(w);
    } else {
      var a :| a in left;
      ReadsOne(w, a);
      var w1 := Step(w, ReadAsset(a));
      assert Subjects(w1.client.phase.events) - w1.client.phase.read.Keys == left - {a};
      ReadsAll(w1);
      var rest :| OfClient(rest) && AllRead(w1, RunFrom(w1, rest));
      StepThen(w, ReadAsset(a), rest);
      AllReadOn(w, w1, RunFrom(w1, rest));
    }
  }

  /** The client has gone on to the end of this page. */
  predicate Behind(w: Replica, w': Replica, page: seq<Event>)
    requires page != []
  {
    w'.t == w.t && w'.client.phase == Replaying && w'.client.after == page[|page| - 1].sequence
  }

  lemma TakesPage(w: Replica, limit: nat)
    requires w.client.phase == Replaying && Changes(w.t, w.client.after, limit) != []
    ensures var w1 := Step(w, TakeChanges(limit));
            w1.t == w.t && w1.client.phase == Reading(Changes(w.t, w.client.after, limit), map[])
  {
    hide Changes;
  }

  lemma AppliesPage(w: Replica, w2: Replica)
    requires w.client.phase.Reading? && w.client.phase.events != [] && AllRead(w, w2)
    ensures Behind(w, Step(w2, Apply), w.client.phase.events)
  {
    hide Subjects, Applied;
  }

  /** One page of changes: taken, read and applied. */
  lemma PageApplies(w: Replica, limit: nat)
    requires w.client.phase == Replaying && Changes(w.t, w.client.after, limit) != []
    ensures exists more :: OfClient(more) && Behind(w, RunFrom(w, more), Changes(w.t, w.client.after, limit))
  {
    hide Step, Changes, AllRead;
    var page := Changes(w.t, w.client.after, limit);
    var w1 := Step(w, TakeChanges(limit));
    TakesPage(w, limit);
    ReadsAll(w1);
    var reading :| OfClient(reading) && AllRead(w1, RunFrom(w1, reading));
    AppliesPage(w1, RunFrom(w1, reading));
    RunFromOn(w1, reading, [Apply]);
    OneStep(RunFrom(w1, reading), Apply);
    StepThen(w, TakeChanges(limit), reading + [Apply]);
    var more := [TakeChanges(limit)] + (reading + [Apply]);
    assert Behind(w, RunFrom(w, more), page);
  }

  /** A replay that nothing disturbs ends: page by page the client catches up. */
  lemma {:induction false} ReplayEnds(w: Replica, limit: nat)
    requires Sound(w.t) && limit > 0 && w.client.phase == Replaying
    ensures exists more :: OfClient(more) && RunFrom(w, more).t == w.t && CaughtUp(RunFrom(w, more), limit)
    decreases |After(w.t.log, w.client.after)|
  {
    hide Step, Changes, Visible;
    PageTakes(w.t, w.client.after, limit);
    if Changes(w.t, w.client.after, limit) == [] {
      assert RunFrom(w, []) == w && OfClient([]);
    } else {
      PageApplies(w, limit);
      var page := Changes(w.t, w.client.after, limit);
      var first :| OfClient(first) && Behind(w, RunFrom(w, first), page);
      var w1 := RunFrom(w, first);
      ReplayEnds(w1, limit);
      var rest :| OfClient(rest) && RunFrom(w1, rest).t == w1.t && CaughtUp(RunFrom(w1, rest), limit);
      RunFromOn(w, first, rest);
      assert OfClient(first + rest);
    }
  }

  /* ---- A fresh start ---- */

  /** The set in ascending order. */
  ghost predicate Orders(order: seq<Id>, ids: set<Id>) {
    (forall i, j :: 0 <= i < j < |order| ==> order[i] < order[j]) && (forall a :: a in order <==> a in ids)
  }

  lemma OrdersMore(order: seq<Id>, ids: set<Id>, last: Id)
    requires Orders(order, ids - {last}) && last in ids && forall a :: a in ids ==> a <= last
    ensures Orders(order + [last], ids)
  {
    assert forall i :: 0 <= i < |order| ==> order[i] in ids - {last};
    forall a ensures a in order + [last] <==> a in ids {
      assert a in order + [last] <==> a in order || a == last;
    }
  }

  lemma {:induction false} Ascending(ids: set<Id>)
    ensures exists order :: Orders(order, ids)
    decreases |ids|
  {
    if ids == {} {
      assert Orders([], ids);
    } else {
      hide Orders;
      var last := Greatest(ids);
      Ascending(ids - {last});
      var order :| Orders(order, ids - {last});
      OrdersMore(order, ids, last);
    }
  }

  ghost function Greatest(ids: set<Id>): (last: Id)
    requires ids != {}
    ensures last in ids && forall a :: a in ids ==> a <= last
    decreases |ids|
  {
    var one :| one in ids;
    assert forall a :: a in ids ==> a == one || a in ids - {one};
    if ids == {one} then one
    else
      assert ids - {one} != {};
      var other := Greatest(ids - {one});
      if one < other then other else one
  }

  /** The beginning of the ids ahead, in ascending order, is a page. */
  lemma BeginningIsPage(t: Tables, cursor: Option<Id>, limit: nat, order: seq<Id>)
    requires 0 < limit < |order|
    requires forall i, j :: 0 <= i < j < |order| ==> order[i] < order[j]
    requires forall a :: a in order <==> InPage(t, cursor, a)
    ensures IsPage(t, cursor, limit, order[..limit], true)
  {
    hide InPage;
    var ids := order[..limit];
    assert forall a :: a in ids ==> a in order;
    forall i | 0 <= i < limit ensures order[i] in ids {
      assert ids[i] == order[i];
    }
    forall a | InPage(t, cursor, a) && a !in ids ensures a > ids[|ids| - 1] {
      var i :| 0 <= i < |order| && order[i] == a;
    }
  }

  /** The snapshot always has a page. */
  lemma PageExists(t: Tables, cursor: Option<Id>, limit: nat)
    requires limit > 0
    ensures exists ids, more :: IsPage(t, cursor, limit, ids, more)
  {
    var all := set a | a in t.assets && InPage(t, cursor, a);
    ShownExist(t);
    assert forall a :: a in all <==> InPage(t, cursor, a);
    hide InPage;
    Ascending(all);
    var order :| Orders(order, all);
    if |order| <= limit {
      assert IsPage(t, cursor, limit, order, false);
    } else {
      BeginningIsPage(t, cursor, limit, order);
    }
  }

  lemma ShownExist(t: Tables)
    ensures forall a :: Visible(t, a).Some? ==> a in t.assets
  {
  }

  /** So far the cache is what the server shows. */
  ghost predicate WalkedTo(w: Replica) {
    w.client.phase.Walking? && forall a: Id ::
      if Beyond(w.client.phase.cursor, a) then a !in w.client.cache else Agrees(w, a)
  }

  function Ahead(w: Replica): set<Id>
    requires w.client.phase.Walking?
  {
    set a | a in w.t.assets && InPage(w.t, w.client.phase.cursor, a)
  }

  lemma PageWalks(w: Replica, limit: nat, ids: seq<Id>, more: bool)
    requires WalkedTo(w) && limit > 0 && IsPage(w.t, w.client.phase.cursor, limit, ids, more)
    ensures var w' := Step(w, TakePage(limit, ids, more));
            && w'.t == w.t && w'.client.after == w.client.after
            && if more then WalkedTo(w') && |Ahead(w')| < |Ahead(w)|
               else w'.client.phase == Replaying && Converged(w')
  {
    hide Visible;
    var w' := Step(w, TakePage(limit, ids, more));
    var cursor := w.client.phase.cursor;
    forall a: Id ensures if more && Beyond(w'.client.phase.cursor, a) then a !in w'.client.cache else Agrees(w', a) {
      if more {
        assert InPage(w.t, cursor, ids[|ids| - 1]);
      }
      if a in ids {
        var i :| 0 <= i < |ids| && ids[i] == a;
      } else {
        assert Visible(w.t, a).Some? && Beyond(cursor, a) ==> InPage(w.t, cursor, a);
      }
    }
    if more {
      var last := ids[|ids| - 1];
      assert InPage(w.t, cursor, last);
      ShownExist(w.t);
      assert last in Ahead(w) && last !in Ahead(w') && Ahead(w') <= Ahead(w);
      Fewer(Ahead(w'), Ahead(w));
    }
  }

  lemma {:induction false} WalkEnds(w: Replica, limit: nat)
    requires WalkedTo(w) && limit > 0
    ensures exists more ::
              var w' := RunFrom(w, more);
              && OfClient(more) && w'.t == w.t && w'.client.after == w.client.after
              && w'.client.phase == Replaying && Converged(w')
    decreases |Ahead(w)|
  {
    hide Step, WalkedTo, Converged, IsPage, Ahead;
    var cursor := WalkingAt(w);
    PageExists(w.t, cursor, limit);
    var ids, more :| IsPage(w.t, cursor, limit, ids, more);
    var page := TakePage(limit, ids, more);
    PageWalks(w, limit, ids, more);
    if more {
      var w1 := Step(w, page);
      WalkEnds(w1, limit);
      var rest :| var w' := RunFrom(w1, rest);
                  && OfClient(rest) && w'.t == w1.t && w'.client.after == w1.client.after
                  && w'.client.phase == Replaying && Converged(w');
      StepThen(w, page, rest);
    } else {
      OneStep(w, page);
      assert OfClient([page]);
    }
  }

  ghost function WalkingAt(w: Replica): Option<Id>
    requires WalkedTo(w)
  {
    w.client.phase.cursor
  }

  lemma NothingAhead(t: Tables, limit: nat)
    requires Sound(t)
    ensures Changes(t, Head(t), limit) == []
  {
    NoneAfter(t.log, Head(t));
  }

  /** From any state of server and client, a fresh start that nothing disturbs ends with the client up to
      date and its cache equal to what the server shows, whatever was overwritten silently before. */
  lemma RestartRepairs(actions: seq<Action>, limit: nat)
    requires limit > 0
    ensures exists more ::
              && OfClient(more) && Run(actions + more).t == Run(actions).t
              && CaughtUp(Run(actions + more), limit) && Converged(Run(actions + more))
  {
    hide Run, Step, Converged, Changes, Sound;
    RunKeeps(actions);
    var w := Run(actions);
    assert Sound(w.t) by { SoundOf(w); }
    FreshWalk(w, limit);
    var more :| var w' := RunFrom(w, more);
                && OfClient(more) && w'.t == w.t && w'.client.after == Head(w.t) && w'.client.phase == Replaying
                && Converged(w');
    NothingAhead(w.t, limit);
    RunIsFrom(actions);
    RunIsFrom(actions + more);
    RunFromOn(START, actions, more);
    assert Run(actions + more) == RunFrom(w, more);
  }

  lemma FreshWalk(w: Replica, limit: nat)
    requires limit > 0
    ensures exists more ::
              var w' := RunFrom(w, more);
              && OfClient(more) && w'.t == w.t && w'.client.after == Head(w.t) && w'.client.phase == Replaying
              && Converged(w')
  {
    hide Step, Converged, Head;
    var w1 := Step(w, Restart);
    var w2 := Step(w1, TakeHead);
    Restarted(w);
    WalkEnds(w2, limit);
    var rest :| var w' := RunFrom(w2, rest);
                && OfClient(rest) && w'.t == w2.t && w'.client.after == w2.client.after
                && w'.client.phase == Replaying && Converged(w');
    StepThen(w1, TakeHead, rest);
    StepThen(w, Restart, [TakeHead] + rest);
  }

  lemma SoundOf(w: Replica)
    requires Inv(w)
    ensures Sound(w.t)
  {
  }

  lemma Restarted(w: Replica)
    ensures var w2 := Step(Step(w, Restart), TakeHead);
            WalkedTo(w2) && w2.t == w.t && w2.client.after == Head(w.t)
  {
    hide Visible;
  }

  /** The same for a client that goes on from where it is: once it replays, it catches up. */
  lemma ClientCatchesUp(actions: seq<Action>, limit: nat)
    requires limit > 0 && Run(actions).client.phase == Replaying
    ensures exists more ::
              && OfClient(more) && Run(actions + more).t == Run(actions).t && CaughtUp(Run(actions + more), limit)
              && forall a: Id :: a !in Run(actions + more).stale ==> Agrees(Run(actions + more), a)
  {
    hide Run, Step, Changes, Sound, Agrees;
    RunKeeps(actions);
    var w := Run(actions);
    assert Sound(w.t) by { SoundOf(w); }
    ReplayEnds(w, limit);
    var more :| OfClient(more) && RunFrom(w, more).t == w.t && CaughtUp(RunFrom(w, more), limit);
    RunIsFrom(actions);
    RunIsFrom(actions + more);
    RunFromOn(START, actions, more);
    assert Run(actions + more) == RunFrom(w, more);
    ConvergedThen(actions + more, limit);
  }

  lemma ConvergedThen(actions: seq<Action>, limit: nat)
    requires limit > 0 && CaughtUp(Run(actions), limit)
    ensures forall a: Id :: a !in Run(actions).stale ==> Agrees(Run(actions), a)
  {
    hide Run, Changes, Visible;
    EmptyPageMeansConverged(actions, limit);
  }
}

/** Paging through the audit log by sequence, in both directions, and the text of its cursors. */
module LogPages {
  import opened Prelude

  const PAGE: nat := 50

  datatype Direction = Older | Newer
  datatype Cursor = Cursor(direction: Direction, sequence: nat)

  /** The matching events' sequences, rising. */
  predicate Rising(log: seq<nat>) {
    forall i, j :: 0 <= i < j < |log| ==> log[i] < log[j]
  }

  function Smaller(log: seq<nat>, sequence: nat): seq<nat> {
    if log == [] then []
    else
      var rest := Smaller(log[..|log| - 1], sequence);
      if log[|log| - 1] < sequence then rest + [log[|log| - 1]] else rest
  }

  function Larger(log: seq<nat>, sequence: nat): seq<nat> {
    if log == [] then []
    else
      var rest := Larger(log[..|log| - 1], sequence);
      if log[|log| - 1] > sequence then rest + [log[|log| - 1]] else rest
  }

  function Reversed(s: seq<nat>): (r: seq<nat>)
    ensures |r| == |s| && forall i :: 0 <= i < |s| ==> r[i] == s[|s| - 1 - i]
  {
    if s == [] then [] else Reversed(s[1..]) + [s[0]]
  }

  function Take(s: seq<nat>): seq<nat> {
    if |s| > PAGE then s[..PAGE] else s
  }

  /** The rows of a page, newest first: `ORDER BY sequence DESC` or, for newer ones, `ASC` and then
      turned around. */
  function Rows(log: seq<nat>, cursor: Option<Cursor>): seq<nat> {
    match cursor
    case None => Take(Reversed(log))
    case Some(Cursor(Older, s)) => Take(Reversed(Smaller(log, s)))
    case Some(Cursor(Newer, s)) => Reversed(Take(Larger(log, s)))
  }

  predicate HasNewer(log: seq<nat>, sequence: nat) {
    exists s :: s in log && s > sequence
  }

  predicate HasOlder(log: seq<nat>, sequence: nat) {
    exists s :: s in log && s < sequence
  }

  datatype Page = Page(rows: seq<nat>, previous: Option<Cursor>, next: Option<Cursor>)

  /** `logs`. The rows and the two checks for more are separate queries: `later` is the log by then. */
  function PageAt(log: seq<nat>, later: seq<nat>, cursor: Option<Cursor>): Page {
    var rows := Rows(log, cursor);
    if rows == [] then Page([], None, None)
    else
      var first, last := rows[0], rows[|rows| - 1];
      Page(rows,
           if HasNewer(later, first) then Some(Cursor(Newer, first)) else None,
           if HasOlder(later, last) then Some(Cursor(Older, last)) else None)
  }

  /* ---- Rows as stretches of the log ---- */

  lemma {:induction false} SmallerIs(log: seq<nat>, n: nat)
    requires Rising(log) && n < |log|
    ensures Smaller(log, log[n]) == log[..n]
  {
    var k := |log| - 1;
    if n < k {
      SmallerIs(log[..k], n);
      assert log[..k][..n] == log[..n];
    } else {
      AllSmaller(log[..k], log[n]);
    }
  }

  lemma {:induction false} AllSmaller(log: seq<nat>, sequence: nat)
    requires forall i :: 0 <= i < |log| ==> log[i] < sequence
    ensures Smaller(log, sequence) == log
  {
    if log != [] {
      AllSmaller(log[..|log| - 1], sequence);
      assert log[..|log| - 1] + [log[|log| - 1]] == log;
    }
  }

  lemma {:induction false} LargerIs(log: seq<nat>, n: nat)
    requires Rising(log) && n < |log|
    ensures Larger(log, log[n]) == log[n + 1..]
  {
    var k := |log| - 1;
    if n < k {
      LargerIs(log[..k], n);
      assert log[..k][n + 1..] + [log[k]] == log[n + 1..];
    } else {
      NoneLarger(log[..k], log[n]);
    }
  }

  lemma {:induction false} NoneLarger(log: seq<nat>, sequence: nat)
    requires forall i :: 0 <= i < |log| ==> log[i] <= sequence
    ensures Larger(log, sequence) == []
  {
    if log != [] {
      NoneLarger(log[..|log| - 1], sequence);
    }
  }

  /** The `k`th chunk of a log, counted from the newest event. */
  function Chunk(log: seq<nat>, k: nat): Page
    requires k * PAGE < |log|
  {
    var high := |log| - k * PAGE;
    var low := if high > PAGE then high - PAGE else 0;
    Page(Reversed(log[low..high]),
         if high < |log| then Some(Cursor(Newer, log[high - 1])) else None,
         if low > 0 then Some(Cursor(Older, log[low])) else None)
  }

  lemma TakeReversed(s: seq<nat>)
    ensures Take(Reversed(s)) == Reversed(s[if |s| > PAGE then |s| - PAGE else 0..])
  {
    hide Reversed;
    if |s| > PAGE {
      var newest := s[|s| - PAGE..];
      assert |Reversed(newest)| == PAGE;
      assert forall i :: 0 <= i < PAGE ==> Reversed(newest)[i] == newest[PAGE - 1 - i] == s[|s| - 1 - i];
      assert Reversed(s)[..PAGE] == Reversed(newest);
    } else {
      assert s[0..] == s;
    }
  }

  /** What a page of a fixed log shows beside its rows. */
  lemma StretchPage(log: seq<nat>, low: nat, high: nat, cursor: Option<Cursor>)
    requires Rising(log) && low < high <= |log| && Rows(log, cursor) == Reversed(log[low..high])
    ensures PageAt(log, log, cursor)
            == Page(Reversed(log[low..high]),
                    if high < |log| then Some(Cursor(Newer, log[high - 1])) else None,
                    if low > 0 then Some(Cursor(Older, log[low])) else None)
  {
    MoreThere(log, low, high);
    hide HasNewer, HasOlder, Rows;
    var rows := Reversed(log[low..high]);
    assert rows[0] == log[high - 1] && rows[|rows| - 1] == log[low];
  }

  lemma MoreThere(log: seq<nat>, low: nat, high: nat)
    requires Rising(log) && low < high <= |log|
    ensures HasNewer(log, log[high - 1]) <==> high < |log|
    ensures HasOlder(log, log[low]) <==> low > 0
  {
    assert high < |log| ==> log[high] in log && log[high] > log[high - 1];
    assert low > 0 ==> log[low - 1] in log && log[low - 1] < log[low];
  }

  /** The first page is the newest chunk. */
  lemma FirstIsChunk(log: seq<nat>)
    requires Rising(log) && log != []
    ensures PageAt(log, log, None) == Chunk(log, 0)
  {
    var low := if |log| > PAGE then |log| - PAGE else 0;
    TakeReversed(log);
    assert log[low..] == log[low..|log|];
    StretchPage(log, low, |log|, None);
  }

  /** Its next cursor leads from each chunk to the one below, and the previous cursor to the one above. */
  lemma NextIsChunk(log: seq<nat>, k: nat)
    requires Rising(log) && k * PAGE < |log| && Chunk(log, k).next.Some?
    ensures (k + 1) * PAGE < |log| && PageAt(log, log, Chunk(log, k).next) == Chunk(log, k + 1)
  {
    var high := |log| - (k + 1) * PAGE;
    var low := if high > PAGE then high - PAGE else 0;
    assert Chunk(log, k).next == Some(Cursor(Older, log[high]));
    SmallerIs(log, high);
    TakeReversed(log[..high]);
    hide Reversed, Take, Smaller;
    assert log[..high][low..] == log[low..high];
    StretchPage(log, low, high, Chunk(log, k).next);
  }

  lemma LargerRows(log: seq<nat>, low: nat)
    requires Rising(log) && 0 < low && low + PAGE <= |log|
    ensures Rows(log, Some(Cursor(Newer, log[low - 1]))) == Reversed(log[low..low + PAGE])
  {
    LargerIs(log, low - 1);
    assert Take(log[low..]) == log[low..low + PAGE];
    hide Take, Larger, Reversed;
  }

  lemma PreviousIsChunk(log: seq<nat>, k: nat)
    requires Rising(log) && k * PAGE < |log| && Chunk(log, k).previous.Some?
    ensures k > 0 && PageAt(log, log, Chunk(log, k).previous) == Chunk(log, k - 1)
  {
    var low := |log| - k * PAGE;
    assert k > 0 && (k - 1) * PAGE == k * PAGE - PAGE;
    assert Chunk(log, k).previous == Some(Cursor(Newer, log[low - 1]));
    hide Rows, Reversed, HasNewer, HasOlder, Rising;
    LargerRows(log, low);
    StretchPage(log, low, low + PAGE, Chunk(log, k).previous);
  }

  /* ---- Walks over a fixed log ---- */

  datatype Turn = Back | Forward

  /** The page after following some cursors from the first page; a missing cursor leads nowhere. */
  function Walk(log: seq<nat>, turns: seq<Turn>): Page {
    if turns == [] then PageAt(log, log, None)
    else
      var page := Walk(log, turns[..|turns| - 1]);
      var cursor := if turns[|turns| - 1] == Forward then page.next else page.previous;
      if cursor.None? then page else PageAt(log, log, cursor)
  }

  /** Every page that can be reached is a chunk. */
  lemma {:induction false} WalkIsChunk(log: seq<nat>, turns: seq<Turn>)
    requires Rising(log) && log != []
    ensures exists k: nat :: k * PAGE < |log| && Walk(log, turns) == Chunk(log, k)
  {
    hide Chunk, PageAt;
    if turns == [] {
      FirstIsChunk(log);
      assert 0 * PAGE < |log|;
    } else {
      WalkIsChunk(log, turns[..|turns| - 1]);
      var k: nat :| k * PAGE < |log| && Walk(log, turns[..|turns| - 1]) == Chunk(log, k);
      if turns[|turns| - 1] == Forward {
        if Chunk(log, k).next.Some? {
          NextIsChunk(log, k);
        }
      } else if Chunk(log, k).previous.Some? {
        PreviousIsChunk(log, k);
      }
    }
  }

  lemma ChunkLinks(log: seq<nat>, k: nat)
    requires k * PAGE < |log|
    ensures Chunk(log, k).next.Some? <==> (k + 1) * PAGE < |log|
    ensures Chunk(log, k).previous.Some? <==> k > 0
  {
  }

  lemma OnAndBack(log: seq<nat>, k: nat)
    requires Rising(log) && k * PAGE < |log| && Chunk(log, k).next.Some?
    ensures var page := PageAt(log, log, Chunk(log, k).next);
            page.previous.Some? && PageAt(log, log, page.previous) == Chunk(log, k)
  {
    hide Chunk, PageAt;
    NextIsChunk(log, k);
    ChunkLinks(log, k + 1);
    PreviousIsChunk(log, k + 1);
  }

  lemma BackAndOn(log: seq<nat>, k: nat)
    requires Rising(log) && k * PAGE < |log| && Chunk(log, k).previous.Some?
    ensures var page := PageAt(log, log, Chunk(log, k).previous);
            page.next.Some? && PageAt(log, log, page.next) == Chunk(log, k)
  {
    hide Chunk, PageAt;
    PreviousIsChunk(log, k);
    ChunkLinks(log, k - 1);
    NextIsChunk(log, k - 1);
  }

  /** From every page that can be reached, going on and back, or back and on, shows the same page. */
  lemma ThereAndBack(log: seq<nat>, turns: seq<Turn>)
    requires Rising(log)
    ensures var page := Walk(log, turns);
            && (page.next.Some? ==> Walk(log, turns + [Forward, Back]) == page)
            && (page.previous.Some? ==> Walk(log, turns + [Back, Forward]) == page)
  {
    hide Chunk, Walk, PageAt;
    var page := Walk(log, turns);
    if log == [] {
      EmptyWalk(turns);
    } else {
      WalkIsChunk(log, turns);
      var k: nat :| k * PAGE < |log| && page == Chunk(log, k);
      if page.next.Some? {
        TwoTurns(log, turns, Forward, Back);
        OnAndBack(log, k);
      }
      if page.previous.Some? {
        TwoTurns(log, turns, Back, Forward);
        BackAndOn(log, k);
      }
    }
  }

  lemma {:induction false} EmptyWalk(turns: seq<Turn>)
    ensures Walk([], turns) == Page([], None, None)
  {
    if turns != [] {
      EmptyWalk(turns[..|turns| - 1]);
    }
  }

  lemma OneTurn(log: seq<nat>, turns: seq<Turn>, one: Turn)
    ensures var page := Walk(log, turns);
            var cursor := if one == Forward then page.next else page.previous;
            Walk(log, turns + [one]) == if cursor.None? then page else PageAt(log, log, cursor)
  {
    hide PageAt;
    assert (turns + [one])[..|turns|] == turns;
  }

  lemma TwoTurns(log: seq<nat>, turns: seq<Turn>, one: Turn, two: Turn)
    ensures Walk(log, turns + [one, two])
            == (var page := Walk(log, turns);
                var there := if one == Forward then page.next else page.previous;
                var page1 := if there.None? then page else PageAt(log, log, there);
                var back := if two == Forward then page1.next else page1.previous;
                if back.None? then page1 else PageAt(log, log, back))
  {
    hide PageAt, Walk;
    OneTurn(log, turns, one);
    OneTurn(log, turns + [one], two);
    assert turns + [one] + [two] == turns + [one, two];
  }

  /* ---- Walks while the log changes ---- */

  lemma {:induction false} SmallerMembers(log: seq<nat>, sequence: nat)
    requires Rising(log)
    ensures forall x :: x in Smaller(log, sequence) <==> x in log && x < sequence
    ensures Rising(Smaller(log, sequence))
  {
    if log != [] {
      var last := log[|log| - 1];
      SmallerMembers(log[..|log| - 1], sequence);
      assert log == log[..|log| - 1] + [last];
      var rest := Smaller(log[..|log| - 1], sequence);
      forall x | x in rest ensures x < last {
        var i :| 0 <= i < |log| - 1 && log[i] == x;
      }
      assert forall i :: 0 <= i < |rest| ==> rest[i] in rest;
    }
  }

  predicate Falling(s: seq<nat>) {
    forall i, j :: 0 <= i < j < |s| ==> s[i] > s[j]
  }

  lemma ReversedIs(s: seq<nat>)
    requires Rising(s)
    ensures Falling(Reversed(s)) && forall x :: x in Reversed(s) <==> x in s
  {
  }

  /** A cursor that the walk may be at: the start, or below a sequence. */
  predicate Under(cursor: Option<Cursor>, x: nat) {
    cursor.None? || x < cursor.value.sequence
  }

  /** The first page of falling rows leaves out only lower ones, and only when it is full. */
  lemma TakeFalls(all: seq<nat>)
    requires Falling(all)
    ensures var rows := Take(all);
            && Falling(rows) && (forall x :: x in rows ==> x in all)
            && (forall x :: x in all ==> x in rows || (|rows| == PAGE && x < rows[PAGE - 1]))
  {
    if |all| > PAGE {
      forall x | x in all && x !in all[..PAGE] ensures x < all[PAGE - 1] {
        assert all == all[..PAGE] + all[PAGE..];
        var i :| 0 <= i < |all[PAGE..]| && all[PAGE..][i] == x;
      }
    }
  }

  /** Rows going on from a cursor fall, and leave out nothing between it and the last of them. */
  lemma RowsGoOn(log: seq<nat>, cursor: Option<Cursor>)
    requires Rising(log) && (cursor.Some? ==> cursor.value.direction == Older)
    ensures var rows := Rows(log, cursor);
            && Falling(rows) && (forall x :: x in rows ==> x in log && Under(cursor, x))
            && (forall x :: x in log && Under(cursor, x) ==> x in rows || (|rows| == PAGE && x < rows[|rows| - 1]))
  {
    var all := if cursor.None? then log else Smaller(log, cursor.value.sequence);
    if cursor.Some? {
      SmallerMembers(log, cursor.value.sequence);
    }
    ReversedIs(all);
    TakeFalls(Reversed(all));
    hide Take, Reversed, Smaller, Falling;
  }

  /** The log when a page's rows are read, and when it is checked for more. */
  datatype View = View(log: seq<nat>, later: seq<nat>)

  datatype Progress = Progress(shown: seq<nat>, cursor: Option<Cursor>, done: bool)

  /** One more page. */
  function Next(p: Progress, view: View): Progress {
    var page := PageAt(view.log, view.later, p.cursor);
    Progress(p.shown + page.rows, if page.next.Some? then page.next else p.cursor, page.next.None?)
  }

  /** Following the next cursors from the first page until there is none. */
  function Follow(views: seq<View>): Progress {
    if views == [] then Progress([], None, false)
    else
      var before := Follow(views[..|views| - 1]);
      var view := views[|views| - 1];
      if before.done then before
      else Next(before, view)
  }

  predicate Throughout(views: seq<View>, x: nat) {
    forall i :: 0 <= i < |views| ==> x in views[i].log && x in views[i].later
  }

  predicate AllRising(views: seq<View>) {
    forall i :: 0 <= i < |views| ==> Rising(views[i].log)
  }

  /** Rows fall, page by page, and those still to come are under the cursor. */
  predicate Walked(p: Progress) {
    && Falling(p.shown) && (p.cursor.Some? ==> p.cursor.value.direction == Older)
    && (!p.done ==> forall y :: y in p.shown ==> !Under(p.cursor, y))
  }

  predicate ShownSoFar(p: Progress, x: nat) {
    x in p.shown || (!p.done && Under(p.cursor, x))
  }

  lemma {:induction false} FollowWalks(views: seq<View>)
    requires AllRising(views)
    ensures Walked(Follow(views))
  {
    if views != [] {
      FollowWalks(views[..|views| - 1]);
      if !Follow(views[..|views| - 1]).done {
        PageWalks(Follow(views[..|views| - 1]), views[|views| - 1]);
      }
    }
  }

  lemma FallingOn(shown: seq<nat>, rows: seq<nat>, cursor: Option<Cursor>)
    requires Falling(shown) && Falling(rows) && (forall y :: y in rows ==> Under(cursor, y))
    requires forall y :: y in shown ==> !Under(cursor, y)
    ensures Falling(shown + rows)
    ensures rows != [] ==> forall y :: y in shown + rows ==> y >= rows[|rows| - 1]
  {
    assert forall i :: 0 <= i < |rows| ==> rows[i] in rows;
    assert forall i :: 0 <= i < |shown| ==> shown[i] in shown;
    forall y | y in shown + rows && rows != [] ensures y >= rows[|rows| - 1] {
      if y in rows {
        var i :| 0 <= i < |rows| && rows[i] == y;
      }
    }
  }

  lemma PageWalks(p: Progress, view: View)
    requires Walked(p) && !p.done && Rising(view.log)
    ensures Walked(Next(p, view))
  {
    RowsGoOn(view.log, p.cursor);
    hide Rows, Falling, Rising, HasNewer, HasOlder;
    FallingOn(p.shown, PageAt(view.log, view.later, p.cursor).rows, p.cursor);
  }

  lemma {:induction false} FollowShows(views: seq<View>, x: nat)
    requires AllRising(views) && Throughout(views, x)
    ensures ShownSoFar(Follow(views), x)
  {
    if views != [] {
      var earlier := views[..|views| - 1];
      FollowShows(earlier, x);
      FollowWalks(earlier);
      if !Follow(earlier).done {
        PageShows(Follow(earlier), views[|views| - 1], x);
      }
    }
  }

  lemma PageShows(p: Progress, view: View, x: nat)
    requires Walked(p) && ShownSoFar(p, x) && !p.done && Rising(view.log) && x in view.log && x in view.later
    ensures ShownSoFar(Next(p, view), x)
  {
    RowsGoOn(view.log, p.cursor);
    hide Rows, Falling, Rising;
  }

  /** An event that is in the log all through a complete walk is shown exactly once, whatever else is
      added or removed meanwhile. */
  lemma ShownOnce(views: seq<View>, x: nat)
    requires AllRising(views) && Throughout(views, x) && Follow(views).done
    ensures exists i :: 0 <= i < |Follow(views).shown| && Follow(views).shown[i] == x
                        && forall j :: 0 <= j < |Follow(views).shown| && Follow(views).shown[j] == x ==> j == i
  {
    FollowWalks(views);
    FollowShows(views, x);
    var shown := Follow(views).shown;
    var i :| 0 <= i < |shown| && shown[i] == x;
  }

  /* ---- Walks end ---- */

  predicate OnlyAgesFrom(one: seq<nat>, two: seq<nat>, top: nat) {
    forall x :: x in two && x <= top ==> x in one
  }

  /** Since the walk began, events newer than all were added, and any were removed, but none was put in
      between: sequences only rise. */
  predicate OnlyAges(views: seq<View>, top: nat) {
    && (forall i :: 0 <= i < |views| ==> OnlyAgesFrom(views[i].log, views[i].later, top))
    && (forall i :: 0 < i < |views| ==> OnlyAgesFrom(views[i - 1].later, views[i].log, top))
  }

  /** What was shown is of the first log; before the end the pages are full and there is more. */
  predicate Ends(p: Progress, views: seq<View>, top: nat)
    requires views != []
  {
    && (forall y :: y in p.shown ==> y in views[0].log)
    && (!p.done ==> && p.cursor.Some? && p.cursor.value.sequence <= top + 1 && |p.shown| == |views| * PAGE
                    && exists x :: x in views[|views| - 1].later && Under(p.cursor, x))
  }

  lemma {:induction false} OldIsFirst(views: seq<View>, top: nat)
    requires views != [] && OnlyAges(views, top)
    ensures OnlyAgesFrom(views[0].log, views[|views| - 1].later, top)
  {
    var n := |views| - 1;
    if n > 0 {
      OldIsFirst(views[..n], top);
    }
  }

  lemma {:induction false} FollowEnds(views: seq<View>, top: nat)
    requires views != [] && AllRising(views) && OnlyAges(views, top) && (forall x :: x in views[0].log ==> x <= top)
    ensures Ends(Follow(views), views, top)
  {
    var n := |views| - 1;
    var view := views[n];
    var earlier := views[..n];
    OldIsFirst(views, top);
    if n == 0 {
      assert Follow(earlier) == Progress([], None, false);
      RowsGoOn(view.log, None);
      FirstEnds(views, top);
    } else {
      FollowEnds(earlier, top);
      FollowWalks(earlier);
      OldIsFirst(earlier, top);
      if !Follow(earlier).done {
        NextEnds(Follow(earlier), views, top);
      }
    }
  }

  lemma FirstEnds(views: seq<View>, top: nat)
    requires |views| == 1 && AllRising(views) && OnlyAges(views, top) && (forall x :: x in views[0].log ==> x <= top)
    ensures Ends(Next(Progress([], None, false), views[0]), views, top)
  {
    RowsGoOn(views[0].log, None);
    PageFull(views[0], None, top);
    hide Rows, Falling, Rising, HasOlder, HasNewer;
  }

  /** A page with a next cursor is full, the cursor is its last row, and something older is there. */
  lemma PageFull(view: View, cursor: Option<Cursor>, top: nat)
    requires Rising(view.log) && OnlyAgesFrom(view.log, view.later, top)
    requires if cursor.Some? then cursor.value.direction == Older && cursor.value.sequence <= top + 1
             else forall x :: x in view.log ==> x <= top
    ensures var page := PageAt(view.log, view.later, cursor);
            page.next.Some? ==>
              && |page.rows| == PAGE && page.next.value.sequence <= top
              && exists x :: x in view.later && Under(page.next, x)
  {
    RowsGoOn(view.log, cursor);
    var page := PageAt(view.log, view.later, cursor);
    if page.next.Some? {
      var last := page.rows[|page.rows| - 1];
      assert last in page.rows;
      var x :| x in view.later && x < last;
      RowsFull(view, cursor, top, x);
      assert Under(page.next, x);
    }
  }

  /** If an older event is there after the rows were read, the page was full. */
  lemma RowsFull(view: View, cursor: Option<Cursor>, top: nat, x: nat)
    requires Rising(view.log) && OnlyAgesFrom(view.log, view.later, top)
    requires cursor.Some? ==> cursor.value.direction == Older
    requires var rows := Rows(view.log, cursor); rows != [] && rows[|rows| - 1] <= top && x < rows[|rows| - 1]
    requires x in view.later
    ensures |Rows(view.log, cursor)| == PAGE && Under(cursor, x)
  {
    RowsGoOn(view.log, cursor);
    var rows := Rows(view.log, cursor);
    assert rows[|rows| - 1] in rows;
    assert x !in rows by {
      hide Rows;
      assert forall i :: 0 <= i < |rows| ==> rows[i] >= rows[|rows| - 1];
    }
  }

  lemma NextEnds(p: Progress, views: seq<View>, top: nat)
    requires |views| > 1 && AllRising(views) && OnlyAges(views, top)
    requires OnlyAgesFrom(views[0].log, views[|views| - 2].later, top)
    requires Walked(p) && !p.done && Ends(p, views[..|views| - 1], top)
    ensures Ends(Next(p, views[|views| - 1]), views, top)
  {
    var view := views[|views| - 1];
    RowsGoOn(view.log, p.cursor);
    PageFull(view, p.cursor, top);
    hide Rows, Falling, Rising, HasOlder, HasNewer;
    assert forall y :: y in PageAt(view.log, view.later, p.cursor).rows ==> y <= top && y in views[|views| - 2].later;
  }

  function Members(s: seq<nat>): set<nat> {
    set y | y in s
  }

  lemma MembersMore(s: seq<nat>, n: nat)
    requires |s| == n + 1
    ensures Members(s) == Members(s[..n]) + {s[n]}
  {
    assert s == s[..n] + [s[n]];
  }

  lemma FallingCounts(shown: seq<nat>, log: seq<nat>)
    requires Falling(shown) && forall y :: y in shown ==> y in log
    ensures |shown| <= |log|
  {
    DistinctCount(shown);
    Fewer(Members(shown), Members(log));
    MembersCount(log);
  }

  lemma {:induction false} DistinctCount(shown: seq<nat>)
    requires Falling(shown)
    ensures |Members(shown)| == |shown|
  {
    if shown != [] {
      var n := |shown| - 1;
      DistinctCount(shown[..n]);
      MembersMore(shown, n);
      assert shown[n] !in Members(shown[..n]);
      hide Members, Falling;
    }
  }

  lemma {:induction false} MembersCount(log: seq<nat>)
    ensures |Members(log)| <= |log|
  {
    if log != [] {
      var n := |log| - 1;
      MembersCount(log[..n]);
      MembersMore(log, n);
      hide Members;
    }
  }

  /** A walk over a log that only ages has ended when its pages could hold the events it began with. */
  lemma WalkEnds(views: seq<View>, top: nat)
    requires views != [] && AllRising(views) && OnlyAges(views, top) && (forall x :: x in views[0].log ==> x <= top)
    requires |views| * PAGE >= |views[0].log|
    ensures Follow(views).done
  {
    var p := Follow(views);
    FollowEnds(views, top);
    FollowWalks(views);
    OldIsFirst(views, top);
    if !p.done {
      var x :| x in views[|views| - 1].later && Under(p.cursor, x);
      assert Falling(p.shown + [x]) by { OneLower(p.shown, x, p.cursor); }
      FallingCounts(p.shown + [x], views[0].log);
    }
  }

  lemma OneLower(shown: seq<nat>, x: nat, cursor: Option<Cursor>)
    requires Falling(shown) && cursor.Some? && Under(cursor, x) && forall y :: y in shown ==> !Under(cursor, y)
    ensures Falling(shown + [x])
  {
    assert forall i :: 0 <= i < |shown| ==> shown[i] in shown;
  }

  /* ---- The forward walk over a fixed log ---- */

  /** The events that `pages` pages leave out. */
  function LeftOut(log: seq<nat>, pages: nat): nat {
    if |log| > pages * PAGE then |log| - pages * PAGE else 0
  }

  lemma ReversedJoin(one: seq<nat>, two: seq<nat>)
    ensures Reversed(two) + Reversed(one) == Reversed(one + two)
  {
    hide Reversed;
  }

  /** `k` pages in, one more adds the next chunk. */
  lemma ChunkShown(log: seq<nat>, k: nat)
    requires k * PAGE < |log|
    ensures Reversed(log[LeftOut(log, k)..]) + Chunk(log, k).rows == Reversed(log[LeftOut(log, k + 1)..])
    ensures Chunk(log, k).next.None? <==> (k + 1) * PAGE >= |log|
  {
    var high, low := LeftOut(log, k), LeftOut(log, k + 1);
    ReversedJoin(log[low..high], log[high..]);
    assert log[low..high] + log[high..] == log[low..];
  }

  /** On a log that does not change the walk shows the newest pages, in order, and nothing else; it
      ends exactly with the page that reaches the oldest event. */
  lemma {:induction false} FixedWalkShowsAll(log: seq<nat>, views: seq<View>)
    requires Rising(log) && views != [] && forall i :: 0 <= i < |views| ==> views[i] == View(log, log)
    ensures Follow(views).done <==> |views| * PAGE >= |log|
    ensures Follow(views).shown == Reversed(log[LeftOut(log, |views|)..])
    ensures !Follow(views).done ==> log != [] && Follow(views).cursor == Chunk(log, |views| - 1).next
  {
    hide Chunk, PageAt, Reversed;
    var k := |views| - 1;
    if log == [] {
      NothingToShow(views);
    } else if k == 0 {
      assert Follow(views[..0]) == Progress([], None, false);
      FirstIsChunk(log);
      assert log[LeftOut(log, 0)..] == [];
      ChunkShown(log, 0);
    } else {
      FixedWalkShowsAll(log, views[..k]);
      if !Follow(views[..k]).done {
        ChunkLinks(log, k - 1);
        NextIsChunk(log, k - 1);
        ChunkShown(log, k);
      }
    }
  }

  lemma {:induction false} NothingToShow(views: seq<View>)
    requires views != [] && forall i :: 0 <= i < |views| ==> views[i] == View([], [])
    ensures Follow(views).done && Follow(views).shown == [] == Reversed([])
  {
    if |views| > 1 {
      NothingToShow(views[..|views| - 1]);
    }
  }
}

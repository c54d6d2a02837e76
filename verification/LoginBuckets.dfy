/** The bounded map of token buckets that limits login attempts: its operations as functions, the ideal
    it stands for, and why eviction and expiry cannot be observed. Times and tokens are reals. */
module LoginBuckets {
  import opened Prelude

  type Key = string

  datatype Policy = Policy(burst: nat, interval: real, capacity: nat, ttl: real)

  predicate ValidPolicy(p: Policy) {
    p.burst > 0 && p.interval > 0.0 && p.capacity > 0 && p.ttl > 0.0
  }

  datatype Bucket = Bucket(tokens: real, lastRefill: real, lastSeen: real)

  type Entries = map<Key, Bucket>

  datatype Verdict = Admitted | Rejected(delay: real)

  const NANOSECOND: real := 0.000000001

  function Min(a: real, b: real): real {
    if a < b then a else b
  }

  function Max(a: real, b: real): real {
    if a < b then b else a
  }

  /** `saturating_duration_since`. */
  function Since(now: real, then_: real): real {
    Max(now - then_, 0.0)
  }

  function Refilled(p: Policy, tokens: real, elapsed: real): real
    requires ValidPolicy(p)
  {
    Min(tokens + elapsed / p.interval, p.burst as real)
  }

  function TokensAt(p: Policy, b: Bucket, now: real): real
    requires ValidPolicy(p)
  {
    Refilled(p, b.tokens, Since(now, b.lastRefill))
  }

  function DelayUntil(p: Policy, b: Bucket, wanted: real, now: real): real
    requires ValidPolicy(p)
  {
    Max(wanted - TokensAt(p, b, now), 0.0) * p.interval
  }

  function NewBucket(p: Policy, now: real): Bucket {
    Bucket(p.burst as real, now, now)
  }

  predicate Alive(p: Policy, b: Bucket, now: real) {
    Since(now, b.lastSeen) < p.ttl
  }

  /** `prune_expired`. */
  function Pruned(p: Policy, entries: Entries, now: real): Entries {
    map k | k in entries && Alive(p, entries[k], now) :: entries[k]
  }

  predicate Full(p: Policy, b: Bucket, now: real)
    requires ValidPolicy(p)
  {
    TokensAt(p, b, now) >= p.burst as real
  }

  /** The longest a full map makes a new key wait for one entry. */
  function RoomIn(p: Policy, b: Bucket, now: real): real
    requires ValidPolicy(p)
  {
    Min(DelayUntil(p, b, p.burst as real, now), Max(p.ttl - Since(now, b.lastSeen), 0.0))
  }

  /** What iterating over the hash map in some order may choose: the full entry seen least recently,
      if there is one, and otherwise the shortest wait. */
  datatype Choice = Choice(victim: Option<Key>, room: real)

  predicate ValidChoice(p: Policy, entries: Entries, now: real, choice: Choice)
    requires ValidPolicy(p)
  {
    match choice.victim
    case Some(v) =>
      v in entries && Full(p, entries[v], now)
      && forall k :: k in entries && Full(p, entries[k], now) ==> entries[v].lastSeen <= entries[k].lastSeen
    case None =>
      && (forall k :: k in entries ==> !Full(p, entries[k], now))
      && (forall k :: k in entries ==> choice.room <= RoomIn(p, entries[k], now))
      && (exists k :: k in entries && choice.room == RoomIn(p, entries[k], now))
  }

  /** The end of `check_at` for a key that has an entry. */
  function Take(p: Policy, entries: Entries, key: Key, now: real): (Entries, Verdict)
    requires ValidPolicy(p) && key in entries
  {
    var b := Bucket(TokensAt(p, entries[key], now), now, now);
    if b.tokens < 1.0 then (entries[key := b], Rejected(DelayUntil(p, b, 1.0, now)))
    else (entries[key := b.(tokens := b.tokens - 1.0)], Admitted)
  }

  /** `check_at`. */
  function Check(p: Policy, entries: Entries, key: Key, now: real, choice: Choice): (Entries, Verdict)
    requires ValidPolicy(p)
  {
    var live := Pruned(p, entries, now);
    if key in live then Take(p, live, key, now)
    else if |live| < p.capacity then Take(p, live[key := NewBucket(p, now)], key, now)
    else if choice.victim.Some? then Take(p, (live - {choice.victim.value})[key := NewBucket(p, now)], key, now)
    else (live, Rejected(Max(choice.room, NANOSECOND)))
  }

  /** Whether the choice is one that this check could make. */
  predicate Possible(p: Policy, entries: Entries, key: Key, now: real, choice: Choice)
    requires ValidPolicy(p)
  {
    var live := Pruned(p, entries, now);
    key !in live && |live| >= p.capacity ==> ValidChoice(p, live, now, choice)
  }

  /** `retry_after_seconds`: whole seconds, rounded up, at least one. */
  function RetryAfter(delay: real): int {
    var seconds := if delay > delay.Floor as real then delay.Floor + 1 else delay.Floor;
    if seconds < 1 then 1 else seconds
  }

  /* ---- The ideal bucket ---- */

  /** The tokens of a bucket that nothing but its own admissions ever touched. */
  function Level(p: Policy, admitted: seq<real>, now: real): real
    requires ValidPolicy(p)
  {
    if admitted == [] then p.burst as real
    else
      var last := admitted[|admitted| - 1];
      Refilled(p, Level(p, admitted[..|admitted| - 1], last) - 1.0, now - last)
  }

  predicate Rising(times: seq<real>) {
    forall i, j :: 0 <= i < j < |times| ==> times[i] <= times[j]
  }

  predicate UpTo(times: seq<real>, now: real) {
    forall i :: 0 <= i < |times| ==> times[i] <= now
  }

  /* ---- Arithmetic of refilling ---- */

  lemma Quotients(a: real, b: real, i: real)
    requires i > 0.0
    ensures a / i + b / i == (a + b) / i
    ensures a >= 0.0 ==> a / i >= 0.0
  {
  }

  /** Refilling in two goes is refilling once. */
  lemma RefillOn(p: Policy, tokens: real, a: real, b: real)
    requires ValidPolicy(p) && a >= 0.0 && b >= 0.0
    ensures Refilled(p, Refilled(p, tokens, a), b) == Refilled(p, tokens, a + b)
  {
    Quotients(a, b, p.interval);
  }

  lemma RefillBounds(p: Policy, tokens: real, elapsed: real)
    requires ValidPolicy(p) && elapsed >= 0.0 && tokens <= p.burst as real
    ensures tokens <= Refilled(p, tokens, elapsed) <= p.burst as real
    ensures Refilled(p, tokens, elapsed) <= tokens + elapsed / p.interval
  {
    Quotients(elapsed, 0.0, p.interval);
  }

  lemma LevelBound(p: Policy, admitted: seq<real>, now: real)
    requires ValidPolicy(p)
    ensures Level(p, admitted, now) <= p.burst as real
  {
  }

  lemma LevelOn(p: Policy, admitted: seq<real>, now: real, later: real)
    requires ValidPolicy(p) && now <= later && UpTo(admitted, now)
    ensures Level(p, admitted, later) == Refilled(p, Level(p, admitted, now), later - now)
  {
    if admitted != [] {
      var last := admitted[|admitted| - 1];
      RefillOn(p, Level(p, admitted[..|admitted| - 1], last) - 1.0, now - last, later - now);
    } else {
      RefillBounds(p, p.burst as real, later - now);
    }
  }

  /* ---- The rate an ideal bucket allows ---- */

  /** Every admission found a token. */
  predicate Earned(p: Policy, admitted: seq<real>)
    requires ValidPolicy(p)
  {
    forall n :: 0 <= n < |admitted| ==> Level(p, admitted[..n], admitted[n]) >= 1.0
  }

  /** After the `i`th admission the level is bounded by what time can have brought back. */
  lemma {:induction false} LevelFalls(p: Policy, admitted: seq<real>, i: nat, j: nat)
    requires ValidPolicy(p) && Rising(admitted) && i <= j < |admitted|
    ensures Level(p, admitted[..j], admitted[j])
            <= p.burst as real - (j - i) as real + (admitted[j] - admitted[i]) / p.interval
    decreases j
  {
    if i == j {
      LevelBound(p, admitted[..j], admitted[j]);
      Quotients(0.0, 0.0, p.interval);
    } else {
      LevelFalls(p, admitted, i, j - 1);
      assert admitted[..j][..j - 1] == admitted[..j - 1];
      Quotients(admitted[j] - admitted[j - 1], admitted[j - 1] - admitted[i], p.interval);
    }
  }

  /** In a window from one admission to another there are at most burst + length / interval of them. */
  lemma RateBound(p: Policy, admitted: seq<real>, i: nat, j: nat)
    requires ValidPolicy(p) && Rising(admitted) && Earned(p, admitted) && i <= j < |admitted|
    ensures (j - i + 1) as real <= p.burst as real + (admitted[j] - admitted[i]) / p.interval
  {
    LevelFalls(p, admitted, i, j);
  }

  /* ---- Runs ---- */

  datatype Attempt = Attempt(key: Key, now: real, choice: Choice)

  /** The map after some attempts, from the empty one. */
  function State(p: Policy, attempts: seq<Attempt>): Entries
    requires ValidPolicy(p)
  {
    if attempts == [] then map[]
    else
      var a := attempts[|attempts| - 1];
      Check(p, State(p, attempts[..|attempts| - 1]), a.key, a.now, a.choice).0
  }

  function VerdictOf(p: Policy, attempts: seq<Attempt>, n: nat): Verdict
    requires ValidPolicy(p) && n < |attempts|
  {
    Check(p, State(p, attempts[..n]), attempts[n].key, attempts[n].now, attempts[n].choice).1
  }

  /** When a key was admitted. */
  function Admissions(p: Policy, attempts: seq<Attempt>, key: Key): seq<real>
    requires ValidPolicy(p)
  {
    if attempts == [] then []
    else
      var n := |attempts| - 1;
      Admissions(p, attempts[..n], key)
      + if attempts[n].key == key && VerdictOf(p, attempts, n) == Admitted then [attempts[n].now] else []
  }

  /** Time does not run backwards, and every choice could have been made. */
  predicate ValidRun(p: Policy, attempts: seq<Attempt>)
    requires ValidPolicy(p)
  {
    && (forall i, j :: 0 <= i < j < |attempts| ==> attempts[i].now <= attempts[j].now)
    && (forall n :: 0 <= n < |attempts| ==>
          Possible(p, State(p, attempts[..n]), attempts[n].key, attempts[n].now, attempts[n].choice))
  }

  /** An entry that is gone comes back full only after it would have filled up anyway. */
  predicate Patient(p: Policy) {
    p.ttl >= p.burst as real * p.interval
  }

  predicate BucketSound(p: Policy, b: Bucket, now: real) {
    0.0 <= b.tokens <= p.burst as real && b.lastSeen == b.lastRefill <= now
  }

  predicate Sound(p: Policy, entries: Entries, now: real) {
    |entries| <= p.capacity && forall k :: k in entries ==> BucketSound(p, entries[k], now)
  }

  /** What the map would find in a key's bucket. */
  function Value(p: Policy, entries: Entries, key: Key, now: real): real
    requires ValidPolicy(p)
  {
    if key in entries then TokensAt(p, entries[key], now) else p.burst as real
  }

  predicate Mirrors(p: Policy, entries: Entries, key: Key, admitted: seq<real>, now: real)
    requires ValidPolicy(p)
  {
    && Rising(admitted) && UpTo(admitted, now) && Earned(p, admitted)
    && Value(p, entries, key, now) == Level(p, admitted, now)
  }

  /* ---- One check ---- */

  lemma LongEnough(p: Policy, elapsed: real)
    requires ValidPolicy(p) && elapsed >= p.burst as real * p.interval
    ensures elapsed / p.interval >= p.burst as real
  {
    Quotients(elapsed - p.burst as real * p.interval, p.burst as real * p.interval, p.interval);
    Whole(p.burst as real, p.interval);
  }

  lemma Whole(a: real, i: real)
    requires i > 0.0
    ensures a * i / i == a
  {
  }

  lemma ValueOn(p: Policy, entries: Entries, key: Key, now: real, later: real)
    requires ValidPolicy(p) && Sound(p, entries, now) && now <= later
    ensures Value(p, entries, key, later) == Refilled(p, Value(p, entries, key, now), later - now)
  {
    if key in entries {
      var b := entries[key];
      RefillOn(p, b.tokens, now - b.lastRefill, later - now);
    } else {
      RefillBounds(p, p.burst as real, later - now);
    }
  }

  lemma MirrorsOn(p: Policy, entries: Entries, key: Key, admitted: seq<real>, now: real, later: real)
    requires ValidPolicy(p) && Sound(p, entries, now) && Mirrors(p, entries, key, admitted, now) && now <= later
    ensures Mirrors(p, entries, key, admitted, later)
  {
    ValueOn(p, entries, key, now, later);
    LevelOn(p, admitted, now, later);
  }

  /** Expiry is not observable: an expired bucket would be full. */
  lemma PruningHides(p: Policy, entries: Entries, key: Key, now: real)
    requires ValidPolicy(p) && Patient(p) && Sound(p, entries, now)
    ensures Value(p, Pruned(p, entries, now), key, now) == Value(p, entries, key, now)
  {
    if key in entries && !Alive(p, entries[key], now) {
      LongEnough(p, now - entries[key].lastRefill);
    }
  }

  /** Nor is the eviction of a full bucket, or a new bucket's coming in. */
  lemma EvictionHides(p: Policy, entries: Entries, victim: Key, key: Key, now: real)
    requires ValidPolicy(p) && victim in entries && Full(p, entries[victim], now)
    ensures Value(p, entries - {victim}, key, now) == Value(p, entries, key, now)
  {
  }

  lemma NewcomerHides(p: Policy, entries: Entries, newcomer: Key, key: Key, now: real)
    requires ValidPolicy(p) && newcomer !in entries
    ensures Value(p, entries[newcomer := NewBucket(p, now)], key, now) == Value(p, entries, key, now)
  {
    Quotients(0.0, 0.0, p.interval);
  }

  lemma TakeIs(p: Policy, entries: Entries, key: Key, now: real)
    requires ValidPolicy(p) && Sound(p, entries, now) && key in entries
    ensures var (after, verdict) := Take(p, entries, key, now);
            && Sound(p, after, now)
            && (verdict == Admitted <==> Value(p, entries, key, now) >= 1.0)
            && (forall k :: k != key ==> Value(p, after, k, now) == Value(p, entries, k, now))
            && Value(p, after, key, now) == Value(p, entries, key, now) - if verdict == Admitted then 1.0 else 0.0
  {
    var b := entries[key];
    RefillBounds(p, b.tokens, now - b.lastRefill);
    Quotients(0.0, 0.0, p.interval);
    var after := Take(p, entries, key, now).0;
    assert after.Keys == entries.Keys;
    assert |after| == |after.Keys| == |entries.Keys| == |entries|;
  }

  lemma PrunedSound(p: Policy, entries: Entries, now: real, later: real)
    requires Sound(p, entries, now) && now <= later
    ensures Sound(p, Pruned(p, entries, later), later)
    ensures forall k :: k in entries && k !in Pruned(p, entries, later) ==> |Pruned(p, entries, later)| < |entries|
  {
    var live := Pruned(p, entries, later);
    assert live.Keys <= entries.Keys;
    Fewer(live.Keys, entries.Keys);
  }

  /** With no room and nothing full, a newcomer is turned away and nothing changes. */
  predicate TurnedAway(p: Policy, entries: Entries, key: Key, now: real, choice: Choice)
    requires ValidPolicy(p)
  {
    var live := Pruned(p, entries, now);
    key !in live && |live| >= p.capacity && choice.victim.None?
  }

  /** The entries before `Take`. */
  function Admitting(p: Policy, entries: Entries, key: Key, now: real, choice: Choice): Entries
    requires ValidPolicy(p)
  {
    var live := Pruned(p, entries, now);
    if key in live then live
    else if |live| < p.capacity then live[key := NewBucket(p, now)]
    else if choice.victim.Some? then (live - {choice.victim.value})[key := NewBucket(p, now)]
    else live
  }

  lemma AdmittingHides(p: Policy, entries: Entries, key: Key, before: real, now: real, choice: Choice, k: Key)
    requires ValidPolicy(p) && Sound(p, entries, before) && before <= now && Possible(p, entries, key, now, choice)
    ensures Sound(p, Admitting(p, entries, key, now, choice), now)
    ensures Patient(p) ==> Value(p, Admitting(p, entries, key, now, choice), k, now) == Value(p, entries, k, now)
  {
    var live := Pruned(p, entries, now);
    PrunedSound(p, entries, before, now);
    if Patient(p) {
      SoundLater(p, entries, before, now);
      PruningHides(p, entries, k, now);
    }
    if key !in live {
      if |live| < p.capacity {
        NewcomerHides(p, live, key, k, now);
      } else if choice.victim.Some? {
        var v := choice.victim.value;
        EvictionHides(p, live, v, k, now);
        NewcomerHides(p, live - {v}, key, k, now);
      }
    }
  }

  lemma SoundLater(p: Policy, entries: Entries, before: real, now: real)
    requires Sound(p, entries, before) && before <= now
    ensures Sound(p, entries, now)
  {
  }

  /** A known key, even an expired one, is never turned away. */
  lemma KnownIsServed(p: Policy, entries: Entries, key: Key, before: real, now: real, choice: Choice)
    requires ValidPolicy(p) && Sound(p, entries, before) && before <= now && key in entries
    ensures !TurnedAway(p, entries, key, now, choice)
  {
    PrunedSound(p, entries, before, now);
  }

  /** One check against the ideal bucket of every key. */
  lemma CheckMirrors(
    p: Policy, entries: Entries, key: Key, before: real, now: real, choice: Choice, k: Key, admitted: seq<real>)
    requires ValidPolicy(p) && Patient(p) && Sound(p, entries, before) && before <= now
    requires Possible(p, entries, key, now, choice) && Mirrors(p, entries, k, admitted, before)
    ensures var (after, verdict) := Check(p, entries, key, now, choice);
            && Sound(p, after, now)
            && Mirrors(p, after, k, if k == key && verdict == Admitted then admitted + [now] else admitted, now)
            && (k == key ==>
                  if TurnedAway(p, entries, key, now, choice) then verdict.Rejected?
                  else (verdict == Admitted <==> Level(p, admitted, now) >= 1.0))
  {
    hide Pruned, Earned, Level, TokensAt, Possible, Take;
    MirrorsOn(p, entries, k, admitted, before, now);
    AdmittingHides(p, entries, key, before, now, choice, k);
    if !TurnedAway(p, entries, key, now, choice) {
      var ready := Admitting(p, entries, key, now, choice);
      assert Check(p, entries, key, now, choice) == Take(p, ready, key, now);
      TakeIs(p, ready, key, now);
      if k == key && Value(p, ready, key, now) >= 1.0 {
        LevelTaken(p, admitted, now);
      }
    }
  }

  lemma LevelTaken(p: Policy, admitted: seq<real>, now: real)
    requires ValidPolicy(p) && Rising(admitted) && UpTo(admitted, now) && Earned(p, admitted)
    requires Level(p, admitted, now) >= 1.0
    ensures Level(p, admitted + [now], now) == Level(p, admitted, now) - 1.0
    ensures Rising(admitted + [now]) && UpTo(admitted + [now], now) && Earned(p, admitted + [now])
  {
    var more := admitted + [now];
    assert more[..|admitted|] == admitted;
    LevelBound(p, admitted, now);
    Quotients(0.0, 0.0, p.interval);
    forall n | 0 <= n < |more| ensures Level(p, more[..n], more[n]) >= 1.0 {
      if n < |admitted| {
        assert more[..n] == admitted[..n];
      }
    }
  }

  /* ---- Whole runs ---- */

  /** The latest time by which a run has happened. */
  predicate Until(attempts: seq<Attempt>, now: real) {
    forall n :: 0 <= n < |attempts| ==> attempts[n].now <= now
  }

  lemma ValidBefore(p: Policy, attempts: seq<Attempt>)
    requires ValidPolicy(p) && attempts != [] && ValidRun(p, attempts)
    ensures var n := |attempts| - 1;
            && ValidRun(p, attempts[..n]) && Until(attempts[..n], attempts[n].now)
            && Possible(p, State(p, attempts[..n]), attempts[n].key, attempts[n].now, attempts[n].choice)
  {
    var n := |attempts| - 1;
    forall m | 0 <= m < n
      ensures Possible(p, State(p, attempts[..n][..m]), attempts[m].key, attempts[m].now, attempts[m].choice)
    {
      assert attempts[..n][..m] == attempts[..m];
    }
  }

  lemma ValidMore(p: Policy, attempts: seq<Attempt>, a: Attempt)
    requires ValidPolicy(p) && ValidRun(p, attempts) && Until(attempts, a.now)
    requires Possible(p, State(p, attempts), a.key, a.now, a.choice)
    ensures ValidRun(p, attempts + [a]) && Until(attempts + [a], a.now)
  {
    hide Possible, State;
    var more := attempts + [a];
    assert more[..|attempts|] == attempts;
    forall m | 0 <= m < |more| ensures Possible(p, State(p, more[..m]), more[m].key, more[m].now, more[m].choice) {
      if m < |attempts| {
        assert more[..m] == attempts[..m];
      }
    }
  }

  lemma RunMore(p: Policy, attempts: seq<Attempt>, a: Attempt, key: Key)
    requires ValidPolicy(p)
    ensures var (after, verdict) := Check(p, State(p, attempts), a.key, a.now, a.choice);
            && State(p, attempts + [a]) == after
            && Admissions(p, attempts + [a], key)
               == Admissions(p, attempts, key) + if a.key == key && verdict == Admitted then [a.now] else []
  {
    hide Check;
    assert (attempts + [a])[..|attempts|] == attempts;
  }

  /** Refinement: after every run the bounded map shows of every key what its ideal bucket shows, and
      never holds more entries than its capacity. */
  lemma {:induction false} MapIsIdeal(p: Policy, attempts: seq<Attempt>, key: Key, now: real)
    requires ValidPolicy(p) && Patient(p) && ValidRun(p, attempts) && Until(attempts, now)
    ensures Sound(p, State(p, attempts), now)
    ensures Mirrors(p, State(p, attempts), key, Admissions(p, attempts, key), now)
    decreases |attempts|
  {
    hide Possible, Mirrors, Check, Sound, ValidRun, State, Admissions;
    if attempts == [] {
      assert Mirrors(p, State(p, []), key, Admissions(p, [], key), now) && Sound(p, State(p, []), now) by {
        StartsIdeal(p, key, now);
      }
    } else {
      var n := |attempts| - 1;
      var a := attempts[n];
      ValidBefore(p, attempts);
      MapIsIdeal(p, attempts[..n], key, a.now);
      var admitted := Admissions(p, attempts[..n], key);
      CheckMirrors(p, State(p, attempts[..n]), a.key, a.now, a.now, a.choice, key, admitted);
      assert attempts[..n] + [a] == attempts;
      RunMore(p, attempts[..n], a, key);
      assert admitted + [] == admitted;
      SoundLater(p, State(p, attempts), a.now, now);
      MirrorsOn(p, State(p, attempts), key, Admissions(p, attempts, key), a.now, now);
    }
  }

  lemma StartsIdeal(p: Policy, key: Key, now: real)
    requires ValidPolicy(p)
    ensures Mirrors(p, State(p, []), key, Admissions(p, [], key), now) && Sound(p, State(p, []), now)
  {
  }

  /** A known key gets exactly the ideal verdict; no key is admitted that its ideal bucket would not
      admit; and only a newcomer to a full map without a full bucket is turned away. */
  lemma VerdictIsIdeal(p: Policy, attempts: seq<Attempt>, n: nat)
    requires ValidPolicy(p) && Patient(p) && ValidRun(p, attempts) && n < |attempts|
    ensures var a := attempts[n];
            var known := a.key in State(p, attempts[..n]);
            var allowed := Level(p, Admissions(p, attempts[..n], a.key), a.now) >= 1.0;
            && (VerdictOf(p, attempts, n) == Admitted ==> allowed)
            && (known || !TurnedAway(p, State(p, attempts[..n]), a.key, a.now, a.choice) ==>
                  (VerdictOf(p, attempts, n) == Admitted <==> allowed))
            && (TurnedAway(p, State(p, attempts[..n]), a.key, a.now, a.choice) ==> !known)
  {
    hide Possible, Mirrors, Check, Level, Sound, Pruned;
    var a := attempts[n];
    var earlier := attempts[..n];
    ValidPrefix(p, attempts, n);
    MapIsIdeal(p, earlier, a.key, a.now);
    CheckMirrors(p, State(p, earlier), a.key, a.now, a.now, a.choice, a.key, Admissions(p, earlier, a.key));
    if a.key in State(p, earlier) {
      KnownIsServed(p, State(p, earlier), a.key, a.now, a.now, a.choice);
    }
  }

  lemma ValidPrefix(p: Policy, attempts: seq<Attempt>, n: nat)
    requires ValidPolicy(p) && ValidRun(p, attempts) && n < |attempts|
    ensures ValidRun(p, attempts[..n]) && Until(attempts[..n], attempts[n].now)
    ensures Possible(p, State(p, attempts[..n]), attempts[n].key, attempts[n].now, attempts[n].choice)
  {
    forall m | 0 <= m < n
      ensures Possible(p, State(p, attempts[..n][..m]), attempts[m].key, attempts[m].now, attempts[m].choice)
    {
      assert attempts[..n][..m] == attempts[..m];
    }
  }

  /** Between any two admissions of one key there are no more than the rate allows. */
  predicate RateKept(p: Policy, admitted: seq<real>)
    requires ValidPolicy(p)
  {
    forall i, j :: 0 <= i <= j < |admitted| ==>
      (j - i + 1) as real <= p.burst as real + (admitted[j] - admitted[i]) / p.interval
  }

  lemma RunKeepsRate(p: Policy, attempts: seq<Attempt>, key: Key, now: real)
    requires ValidPolicy(p) && Patient(p) && ValidRun(p, attempts) && Until(attempts, now)
    ensures RateKept(p, Admissions(p, attempts, key))
  {
    hide RateKept, Admissions, State, Level;
    MapIsIdeal(p, attempts, key, now);
    var admitted := Admissions(p, attempts, key);
    assert Rising(admitted) && Earned(p, admitted);
    AllRates(p, admitted);
  }

  lemma AllRates(p: Policy, admitted: seq<real>)
    requires ValidPolicy(p) && Rising(admitted) && Earned(p, admitted)
    ensures RateKept(p, admitted)
  {
    forall i, j | 0 <= i <= j < |admitted|
      ensures (j - i + 1) as real <= p.burst as real + (admitted[j] - admitted[i]) / p.interval
    {
      RateBound(p, admitted, i, j);
    }
  }

  /* ---- When the bound holds ---- */

  const VISITOR: Key := "visitor"

  /** `n` attempts of one visitor at one time. */
  function Volley(n: nat, at: real): seq<Attempt> {
    seq(n, i => Attempt(VISITOR, at, Choice(None, 0.0)))
  }

  function Times(n: nat, at: real): seq<real> {
    seq(n, i => at)
  }

  function Taken(p: Policy, n: nat, at: real): Entries {
    if n == 0 then map[] else map[VISITOR := Bucket((p.burst - n) as real, at, at)]
  }

  /** One more check of a lone visitor who has taken `m` tokens since time `at`. */
  lemma OneMore(p: Policy, entries: Entries, at: real, m: nat)
    requires ValidPolicy(p) && m < p.burst && Pruned(p, entries, at) == Taken(p, m, at)
    ensures Possible(p, entries, VISITOR, at, Choice(None, 0.0))
    ensures Check(p, entries, VISITOR, at, Choice(None, 0.0)) == (Taken(p, m + 1, at), Admitted)
    ensures Pruned(p, Taken(p, m + 1, at), at) == Taken(p, m + 1, at)
  {
    Quotients(0.0, 0.0, p.interval);
    if m == 0 {
      assert |Pruned(p, entries, at)| == 0;
      assert map[][VISITOR := NewBucket(p, at)] == map[VISITOR := NewBucket(p, at)];
    }
    var ready := if m == 0 then map[VISITOR := NewBucket(p, at)] else Pruned(p, entries, at);
    assert TokensAt(p, ready[VISITOR], at) == (p.burst - m) as real;
    assert Take(p, ready, VISITOR, at).0 == Taken(p, m + 1, at);
  }

  /** So `n` attempts go through when none of its tokens is taken. */
  lemma {:induction false} VolleyPasses(p: Policy, before: seq<Attempt>, at: real, n: nat)
    requires ValidPolicy(p) && ValidRun(p, before) && Until(before, at) && n <= p.burst
    requires Pruned(p, State(p, before), at) == map[]
    ensures var run := before + Volley(n, at);
            && ValidRun(p, run) && Until(run, at)
            && Admissions(p, run, VISITOR) == Admissions(p, before, VISITOR) + Times(n, at)
            && Pruned(p, State(p, run), at) == Taken(p, n, at) && (n > 0 ==> State(p, run) == Taken(p, n, at))
  {
    hide ValidRun, State, Admissions, Pruned, Check, Possible;
    if n == 0 {
      assert before + Volley(0, at) == before;
      assert Admissions(p, before, VISITOR) + Times(0, at) == Admissions(p, before, VISITOR);
    } else {
      VolleyPasses(p, before, at, n - 1);
      var run := before + Volley(n - 1, at);
      var a := Attempt(VISITOR, at, Choice(None, 0.0));
      OneMore(p, State(p, run), at, n - 1);
      ValidMore(p, run, a);
      RunMore(p, run, a, VISITOR);
      assert run + [a] == before + Volley(n, at);
      assert Admissions(p, before, VISITOR) + Times(n - 1, at) + [at] == Admissions(p, before, VISITOR) + Times(n, at);
    }
  }

  /** Two volleys of a full burst, the second when the first one's entry has expired. */
  lemma TwoVolleys(p: Policy)
    requires ValidPolicy(p)
    ensures var run := Volley(p.burst, 0.0) + Volley(p.burst, p.ttl);
            ValidRun(p, run) && Admissions(p, run, VISITOR) == Times(p.burst, 0.0) + Times(p.burst, p.ttl)
  {
    hide ValidRun, State, Admissions;
    assert ValidRun(p, []) && State(p, []) == map[] && Admissions(p, [], VISITOR) == [] by { NoAttempts(p); }
    VolleyPasses(p, [], 0.0, p.burst);
    assert [] + Volley(p.burst, 0.0) == Volley(p.burst, 0.0);
    assert [] + Times(p.burst, 0.0) == Times(p.burst, 0.0);
    VolleyPasses(p, Volley(p.burst, 0.0), p.ttl, p.burst);
  }

  lemma NoAttempts(p: Policy)
    requires ValidPolicy(p)
    ensures ValidRun(p, []) && State(p, []) == map[] && Admissions(p, [], VISITOR) == []
  {
  }

  /** The rate bound holds over all runs exactly when entries live at least as long as a drained
      bucket takes to fill. */
  lemma RateBoundIffPatient(p: Policy)
    requires ValidPolicy(p)
    ensures (forall attempts: seq<Attempt>, key: Key ::
               ValidRun(p, attempts) ==> RateKept(p, Admissions(p, attempts, key)))
            <==> Patient(p)
  {
    if Patient(p) {
      forall attempts: seq<Attempt>, key: Key | ValidRun(p, attempts)
        ensures RateKept(p, Admissions(p, attempts, key))
      {
        RunKeepsRate(p, attempts, key, if attempts == [] then 0.0 else attempts[|attempts| - 1].now);
      }
    } else {
      TwoVolleys(p);
      var run := Volley(p.burst, 0.0) + Volley(p.burst, p.ttl);
      var admitted := Admissions(p, run, VISITOR);
      assert admitted[0] == 0.0 && admitted[2 * p.burst - 1] == p.ttl;
      TooShort(p);
      assert !RateKept(p, admitted);
    }
  }

  lemma TooShort(p: Policy)
    requires ValidPolicy(p) && !Patient(p)
    ensures (p.ttl - 0.0) / p.interval < p.burst as real
  {
    var rate := p.ttl / p.interval;
    assert rate * p.interval == p.ttl;
    assert rate >= p.burst as real ==> rate * p.interval >= p.burst as real * p.interval;
  }

  /* ---- Waiting ---- */

  lemma RetryAfterCovers(delay: real)
    ensures RetryAfter(delay) as real >= delay && RetryAfter(delay) >= 1
    ensures delay > 0.0 ==> (RetryAfter(delay) - 1) as real < delay || RetryAfter(delay) == 1
  {
  }

  lemma RefilledByDelay(p: Policy, tokens: real, wanted: real, elapsed: real)
    requires ValidPolicy(p) && wanted <= p.burst as real && elapsed >= Max(wanted - tokens, 0.0) * p.interval
    ensures Refilled(p, tokens, elapsed) >= wanted
  {
    var missing := Max(wanted - tokens, 0.0);
    Whole(missing, p.interval);
    Quotients(elapsed - missing * p.interval, missing * p.interval, p.interval);
  }

  /** Waiting as long as a rejection says is enough, if nothing intervenes: for a drained bucket, and
      for a full map. */
  lemma WaitingIsEnough(
    p: Policy, entries: Entries, key: Key, before: real, now: real, choice: Choice, later: real, next: Choice)
    requires ValidPolicy(p) && Sound(p, entries, before) && before <= now && Possible(p, entries, key, now, choice)
    requires var (after, verdict) := Check(p, entries, key, now, choice);
             verdict.Rejected? && later >= now + verdict.delay && Possible(p, after, key, later, next)
    ensures Check(p, Check(p, entries, key, now, choice).0, key, later, next).1 == Admitted
  {
    var (after, verdict) := Check(p, entries, key, now, choice);
    if TurnedAway(p, entries, key, now, choice) {
      PrunedSound(p, entries, before, now);
      RoomComes(p, after, key, now, choice, later, next);
    } else {
      DrainedWaits(p, entries, key, before, now, choice, later, next);
    }
  }

  lemma RoomComes(p: Policy, live: Entries, key: Key, now: real, choice: Choice, later: real, next: Choice)
    requires ValidPolicy(p) && Sound(p, live, now) && key !in live && |live| >= p.capacity
    requires choice.victim.None? && ValidChoice(p, live, now, choice) && later >= now + Max(choice.room, NANOSECOND)
    requires Possible(p, live, key, later, next)
    ensures Check(p, live, key, later, next).1 == Admitted
  {
    var k :| k in live && choice.room == RoomIn(p, live[k], now);
    var b := live[k];
    PrunedSound(p, live, now, later);
    if Alive(p, b, later) {
      FullByThen(p, b, now, later);
      assert k in Pruned(p, live, later) && Full(p, Pruned(p, live, later)[k], later);
    }
    NewIsAdmitted(p, Admitting(p, live, key, later, next), key, later);
  }

  lemma FullByThen(p: Policy, b: Bucket, now: real, later: real)
    requires ValidPolicy(p) && BucketSound(p, b, now) && later >= now + RoomIn(p, b, now) && later >= now
    requires Alive(p, b, later)
    ensures Full(p, b, later)
  {
    var tokens := TokensAt(p, b, now);
    RefillOn(p, b.tokens, now - b.lastRefill, later - now);
    RefilledByDelay(p, tokens, p.burst as real, later - now);
  }

  lemma NewIsAdmitted(p: Policy, entries: Entries, key: Key, now: real)
    requires ValidPolicy(p) && key in entries && entries[key] == NewBucket(p, now)
    ensures Take(p, entries, key, now).1 == Admitted
  {
    Quotients(0.0, 0.0, p.interval);
  }

  lemma DrainedWaits(
    p: Policy, entries: Entries, key: Key, before: real, now: real, choice: Choice, later: real, next: Choice)
    requires ValidPolicy(p) && Sound(p, entries, before) && before <= now && Possible(p, entries, key, now, choice)
    requires !TurnedAway(p, entries, key, now, choice)
    requires var (after, verdict) := Check(p, entries, key, now, choice);
             verdict.Rejected? && later >= now + verdict.delay && Possible(p, after, key, later, next)
    ensures Check(p, Check(p, entries, key, now, choice).0, key, later, next).1 == Admitted
  {
    hide Pruned, TokensAt, Possible;
    AdmittingHides(p, entries, key, before, now, choice, key);
    var ready := Admitting(p, entries, key, now, choice);
    TakeIs(p, ready, key, now);
    KeyWaits(p, Take(p, ready, key, now).0, key, now, later, next);
  }

  /** A key with an entry that was refilled now waits for its own token. */
  lemma KeyWaits(p: Policy, entries: Entries, key: Key, now: real, later: real, next: Choice)
    requires ValidPolicy(p) && Sound(p, entries, now) && key in entries && entries[key].lastRefill == now
    requires later >= now + DelayUntil(p, entries[key], 1.0, now) && Possible(p, entries, key, later, next)
    ensures Check(p, entries, key, later, next).1 == Admitted
  {
    var b := entries[key];
    RefillBounds(p, b.tokens, 0.0);
    Quotients(0.0, 0.0, p.interval);
    assert TokensAt(p, b, now) == b.tokens;
    assert DelayUntil(p, b, 1.0, now) >= 0.0;
    PrunedSound(p, entries, now, later);
    if Alive(p, b, later) {
      RefilledByDelay(p, b.tokens, 1.0, later - now);
    } else {
      NewIsAdmitted(p, Admitting(p, entries, key, later, next), key, later);
    }
  }

  lemma TooSoon(missing: real, elapsed: real, i: real)
    requires i > 0.0 && elapsed < missing * i
    ensures elapsed / i < missing
  {
    var rate := elapsed / i;
    assert rate * i == elapsed;
    assert rate >= missing ==> rate * i >= missing * i;
  }

  /** Before the delay is over the tokens that were missing are not there. */
  lemma NotRefilled(p: Policy, tokens: real, wanted: real, elapsed: real)
    requires ValidPolicy(p) && elapsed < Max(wanted - tokens, 0.0) * p.interval && elapsed >= 0.0
    ensures Refilled(p, tokens, elapsed) < wanted
  {
    TooSoon(Max(wanted - tokens, 0.0), elapsed, p.interval);
    Quotients(elapsed, 0.0, p.interval);
  }

  /** With the map full, nothing makes room before the delay is over. */
  lemma NoRoomYet(p: Policy, live: Entries, key: Key, now: real, choice: Choice, later: real, next: Choice)
    requires ValidPolicy(p) && Sound(p, live, now) && key !in live && |live| >= p.capacity
    requires choice.victim.None? && ValidChoice(p, live, now, choice) && now <= later < now + choice.room
    requires Possible(p, live, key, later, next)
    ensures Check(p, live, key, later, next).1.Rejected?
  {
    forall k | k in live ensures Alive(p, live[k], later) && !Full(p, live[k], later) {
      StillFull(p, live[k], now, later);
    }
    assert Pruned(p, live, later) == live;
  }

  lemma StillFull(p: Policy, b: Bucket, now: real, later: real)
    requires ValidPolicy(p) && BucketSound(p, b, now) && now <= later < now + RoomIn(p, b, now)
    ensures Alive(p, b, later) && !Full(p, b, later)
  {
    RefillOn(p, b.tokens, now - b.lastRefill, later - now);
    NotRefilled(p, TokensAt(p, b, now), p.burst as real, later - now);
  }

  /** A drained bucket has no token before the delay is over. */
  lemma NoTokenYet(p: Policy, entries: Entries, key: Key, now: real, later: real, next: Choice)
    requires ValidPolicy(p) && Patient(p) && Sound(p, entries, now) && key in entries && entries[key].lastRefill == now
    requires now <= later < now + DelayUntil(p, entries[key], 1.0, now)
    ensures Check(p, entries, key, later, next).1.Rejected?
  {
    var b := entries[key];
    Quotients(0.0, 0.0, p.interval);
    RefillBounds(p, b.tokens, 0.0);
    assert TokensAt(p, b, now) == b.tokens;
    DelayIsShort(p, b.tokens);
    NotRefilled(p, b.tokens, 1.0, later - now);
    assert Pruned(p, entries, later)[key] == b;
  }

  lemma DelayIsShort(p: Policy, tokens: real)
    requires ValidPolicy(p) && Patient(p) && 0.0 <= tokens
    ensures Max(1.0 - tokens, 0.0) * p.interval <= p.ttl
  {
    Scales(Max(1.0 - tokens, 0.0), p.burst as real, p.interval);
  }

  lemma Scales(a: real, b: real, i: real)
    requires a <= b && i > 0.0
    ensures a * i <= b * i
  {
  }

  /** The delay of a rejection is exact: with nothing in between, a second attempt is admitted if and only
      if it waits that long. (A full map rounds delays below a nanosecond up.) */
  lemma DelayIsExact(
    p: Policy, entries: Entries, key: Key, before: real, now: real, choice: Choice, later: real, next: Choice)
    requires ValidPolicy(p) && Patient(p)
    requires Sound(p, entries, before) && before <= now <= later && Possible(p, entries, key, now, choice)
    requires var (after, verdict) := Check(p, entries, key, now, choice);
             verdict.Rejected? && (verdict.delay > NANOSECOND || key in after) && Possible(p, after, key, later, next)
    ensures var (after, verdict) := Check(p, entries, key, now, choice);
            Check(p, after, key, later, next).1 == Admitted <==> later >= now + verdict.delay
  {
    hide Pruned, TokensAt, Possible, ValidChoice;
    var (after, verdict) := Check(p, entries, key, now, choice);
    if later >= now + verdict.delay {
      WaitingIsEnough(p, entries, key, before, now, choice, later, next);
    } else {
      PrunedSound(p, entries, before, now);
      if TurnedAway(p, entries, key, now, choice) {
        ChosenNone(p, entries, key, now, choice);
        NoRoomYet(p, after, key, now, choice, later, next);
      } else {
        AdmittingHides(p, entries, key, before, now, choice, key);
        var ready := Admitting(p, entries, key, now, choice);
        TakeIs(p, ready, key, now);
        NoTokenYet(p, Take(p, ready, key, now).0, key, now, later, next);
      }
    }
  }

  lemma ChosenNone(p: Policy, entries: Entries, key: Key, now: real, choice: Choice)
    requires ValidPolicy(p) && Possible(p, entries, key, now, choice) && TurnedAway(p, entries, key, now, choice)
    ensures ValidChoice(p, Pruned(p, entries, now), now, choice)
    ensures key !in Pruned(p, entries, now) && |Pruned(p, entries, now)| >= p.capacity
    ensures Check(p, entries, key, now, choice)
            == (Pruned(p, entries, now), Rejected(Max(choice.room, NANOSECOND)))
  {
  }

  /** A key without a live entry is turned away exactly when as many entries are live as the map may hold
      and none of them is full. */
  lemma NewcomerIsServedIff(p: Policy, entries: Entries, key: Key, now: real, choice: Choice)
    requires ValidPolicy(p) && Possible(p, entries, key, now, choice)
    requires key in entries ==> !Alive(p, entries[key], now)
    ensures var live := set k | k in entries && Alive(p, entries[k], now);
            Check(p, entries, key, now, choice).1 == Admitted
            <==> |live| < p.capacity || exists k :: k in live && Full(p, entries[k], now)
  {
    var live := Pruned(p, entries, now);
    assert live.Keys == set k | k in entries && Alive(p, entries[k], now);
    assert |live| == |live.Keys|;
    if |live| < p.capacity || choice.victim.Some? {
      NewIsAdmitted(p, Admitting(p, entries, key, now, choice), key, now);
    }
  }

  /* ---- The server's limits ---- */

  const RATE_ENTRY_TTL: real := 900.0
  const SOURCES := Policy(16, 1.0, 2_048, RATE_ENTRY_TTL)
  const ACCOUNTS := Policy(8, 15.0, 4_096, RATE_ENTRY_TTL)

  /** Both of the server's maps keep their rates. */
  lemma ServerKeepsRates(attempts: seq<Attempt>, key: Key)
    ensures ValidPolicy(SOURCES) && ValidPolicy(ACCOUNTS)
    ensures ValidRun(SOURCES, attempts) ==> RateKept(SOURCES, Admissions(SOURCES, attempts, key))
    ensures ValidRun(ACCOUNTS, attempts) ==> RateKept(ACCOUNTS, Admissions(ACCOUNTS, attempts, key))
  {
    hide RateKept, ValidRun, Admissions;
    RateBoundIffPatient(SOURCES);
    RateBoundIffPatient(ACCOUNTS);
  }
}

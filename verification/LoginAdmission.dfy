/** The bounded map of buckets as the server keeps it, updated in place. */
module LoginAdmission {
  import opened Prelude
  import opened LoginBuckets

  class BoundedBuckets {
    var entries: Entries
    const policy: Policy

    ghost predicate Valid()
      reads this
    {
      ValidPolicy(policy) && |entries| <= policy.capacity
    }

    constructor (policy: Policy)
      requires ValidPolicy(policy)
      ensures Valid() && this.policy == policy && entries == map[]
    {
      this.policy := policy;
      entries := map[];
    }

    /** `prune_expired`. */
    method PruneExpired(now: real)
      requires Valid()
      modifies this
      ensures Valid() && entries == Pruned(policy, old(entries), now)
    {
      var rest := entries;
      while rest != map[]
        invariant Valid() && forall k :: k in rest ==> k in entries && rest[k] == entries[k]
        invariant forall k :: k in entries ==> k in old(entries) && entries[k] == old(entries)[k]
        invariant forall k :: k in old(entries) && k !in rest ==>
                    (k in entries <==> Alive(policy, old(entries)[k], now))
        decreases |rest|
      {
        var k :| k in rest;
        if !Alive(policy, rest[k], now) {
          entries := entries - {k};
        }
        rest := rest - {k};
      }
    }

    /** `make_room`: evict the full bucket seen least recently; without one, say how long until some
        bucket is full or expired. */
    method MakeRoom(now: real) returns (verdict: Verdict, choice: Choice)
      requires Valid()
      modifies this
      ensures Valid()
      ensures |old(entries)| < policy.capacity ==> verdict == Admitted && entries == old(entries)
      ensures |old(entries)| >= policy.capacity ==>
                && ValidChoice(policy, old(entries), now, choice)
                && (match choice.victim
                    case Some(v) => verdict == Admitted && entries == old(entries) - {v}
                    case None => verdict == Rejected(Max(choice.room, NANOSECOND)) && entries == old(entries))
    {
      choice := Choice(None, 0.0);
      if |entries| < policy.capacity {
        return Admitted, choice;
      }
      var victim := LeastRecentFull(now);
      if victim.Some? {
        entries := entries - {victim.value};
        return Admitted, Choice(victim, 0.0);
      }
      var room := ShortestWait(now);
      return Rejected(Max(room, NANOSECOND)), Choice(None, room);
    }

    method LeastRecentFull(now: real) returns (victim: Option<Key>)
      requires Valid()
      ensures match victim
              case Some(v) =>
                v in entries && Full(policy, entries[v], now)
                && forall k :: k in entries && Full(policy, entries[k], now) ==>
                     entries[v].lastSeen <= entries[k].lastSeen
              case None => forall k :: k in entries ==> !Full(policy, entries[k], now)
    {
      victim := None;
      var rest := entries.Keys;
      while rest != {}
        invariant rest <= entries.Keys
        invariant victim.Some? ==> victim.value in entries && Full(policy, entries[victim.value], now)
        invariant forall k :: k in entries && k !in rest && Full(policy, entries[k], now) ==>
                    victim.Some? && entries[victim.value].lastSeen <= entries[k].lastSeen
        decreases |rest|
      {
        var k :| k in rest;
        if Full(policy, entries[k], now) && (victim.None? || entries[k].lastSeen < entries[victim.value].lastSeen) {
          victim := Some(k);
        }
        rest := rest - {k};
      }
    }

    method ShortestWait(now: real) returns (room: real)
      requires Valid() && entries != map[]
      ensures forall k :: k in entries ==> room <= RoomIn(policy, entries[k], now)
      ensures exists k :: k in entries && room == RoomIn(policy, entries[k], now)
    {
      var k :| k in entries;
      room := RoomIn(policy, entries[k], now);
      var rest := entries.Keys - {k};
      while rest != {}
        invariant rest <= entries.Keys
        invariant forall k :: k in entries && k !in rest ==> room <= RoomIn(policy, entries[k], now)
        invariant exists k :: k in entries && room == RoomIn(policy, entries[k], now)
        decreases |rest|
      {
        var k :| k in rest;
        room := Min(room, RoomIn(policy, entries[k], now));
        rest := rest - {k};
      }
    }

    /** The end of `check_at`: refill the key's bucket and take a token, if there is one. */
    method TakeToken(key: Key, now: real) returns (verdict: Verdict)
      requires Valid() && key in entries
      modifies this
      ensures Valid() && (entries, verdict) == Take(policy, old(entries), key, now)
    {
      var b := Bucket(TokensAt(policy, entries[key], now), now, now);
      if b.tokens < 1.0 {
        entries := entries[key := b];
        return Rejected(DelayUntil(policy, b, 1.0, now));
      }
      entries := entries[key := b.(tokens := b.tokens - 1.0)];
      return Admitted;
    }

    /** `check_at`. */
    method CheckAt(key: Key, now: real) returns (verdict: Verdict, ghost choice: Choice)
      requires Valid()
      modifies this
      ensures Valid() && Possible(policy, old(entries), key, now, choice)
      ensures (entries, verdict) == Check(policy, old(entries), key, now, choice)
    {
      hide Alive, Full, RoomIn, DelayUntil, TokensAt, Take, Pruned, ValidChoice;
      PruneExpired(now);
      choice := Choice(None, 0.0);
      if key !in entries {
        verdict, choice := MakeRoom(now);
        if verdict.Rejected? {
          return;
        }
        entries := entries[key := NewBucket(policy, now)];
      }
      verdict := TakeToken(key, now);
    }
  }
}

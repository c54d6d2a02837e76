/** What each credential request does to who authenticates and what pairs: nothing but what it is for. */
module CredentialEffects {
  import opened Credentials

  /** The code would pair the device. */
  predicate Pairs(t: Tables, device: Id, code: Secret) {
    && device in t.devices && t.devices[device].status == Pending && t.devices[device].token.None?
    && t.devices[device].code == code
  }

  /** A new instance has a device with a code that pairs, and nobody's access changes. */
  lemma CreatingOpens(w: World, account: Id)
    requires Inv(w)
    ensures var (t, t') := (w.t, CreateInstance(w.t, account));
            && (forall c: Context :: Authenticates(t', c.secret, c) <==> Authenticates(t, c.secret, c))
            && (forall d, code ::
                  Pairs(t', d, code) <==> Pairs(t, d, code) || (d == t.next && code == t.next + 1))
            && t.next in t'.devices && t'.devices[t.next].account == account
  {
    forall c: Context
      ensures Authenticates(CreateInstance(w.t, account), c.secret, c) <==> Authenticates(w.t, c.secret, c)
    {
      assert w.t.next !in w.t.devices;
      assert c.actor.KeyActor? && c.actor.key in w.t.keys ==> KeySound(w, c.actor.key);
    }
  }

  /** Pairing succeeds exactly with the device's open code. It admits the new token, the code pairs no
      more, and nobody else's access changes. */
  lemma PairingAdmits(w: World, device: Id, code: Secret)
    requires Inv(w)
    ensures var t := w.t;
            var (t', reply) := Pair(t, device, code);
            && (reply == Done <==> Pairs(t, device, code)) && (reply != Done ==> t' == t)
            && (reply == Done ==>
                  && (forall c: Context ::
                        Authenticates(t', c.secret, c) <==>
                          || Authenticates(t, c.secret, c)
                          || c == Context(t.devices[device].account, device, DeviceActor, t.next))
                  && (forall d, other :: Pairs(t', d, other) <==> Pairs(t, d, other) && d != device))
  {
    var (t', reply) := Pair(w.t, device, code);
    if reply == Done {
      forall c: Context
        ensures Authenticates(t', c.secret, c) <==>
                  || Authenticates(w.t, c.secret, c)
                  || c == Context(w.t.devices[device].account, device, DeviceActor, w.t.next)
      {
        assert DeviceSound(w, device);
        assert c.actor.KeyActor? && c.actor.key in w.t.keys ==> KeySound(w, c.actor.key);
      }
    }
  }

  /** A rotation shuts out every token and key of the device and leaves one code that pairs it; nobody
      else's access changes. */
  lemma RotatingShuts(w: World, device: Id)
    requires Inv(w)
    ensures var t := w.t;
            var (t', reply) := Rotate(t, device);
            && (reply == NotFound <==> device !in t.devices)
            && (reply == Done <==> device in t.devices && (t.devices[device].status == Pending
                                                           || t.devices[device].status == Paired))
            && (reply == Done || reply == NotFound || reply == Conflict) && (reply != Done ==> t' == t)
            && (reply == Done ==>
                  && (forall c: Context ::
                        Authenticates(t', c.secret, c) <==> Authenticates(t, c.secret, c) && c.device != device)
                  && (forall d, code ::
                        Pairs(t', d, code) <==> if d == device then code == t.next else Pairs(t, d, code)))
  {
    var (t', reply) := Rotate(w.t, device);
    if reply == Done {
      forall c: Context
        ensures Authenticates(t', c.secret, c) <==> Authenticates(w.t, c.secret, c) && c.device != device
      {
        RevokedOf(w.t, device, c);
      }
    }
  }

  lemma RevokedOf(t: Tables, device: Id, c: Context)
    ensures var keys := KeysRevoked(t.keys, device);
            c.actor.KeyActor? ==>
              var k := c.actor.key;
              && (k in keys <==> k in t.keys)
              && (k in t.keys ==>
                    keys[k] == if t.keys[k].device == device then t.keys[k].(revoked := true) else t.keys[k])
  {
  }

  /** The first removal shuts the device out for good and keeps it on record. */
  lemma RemovingShuts(w: World, device: Id, owns: bool)
    requires Inv(w) && device in w.t.devices
    requires w.t.devices[device].status == Pending || w.t.devices[device].status == Paired
    ensures var t := w.t;
            var (t', reply) := Remove(t, device, owns);
            && reply == Done && t'.devices.Keys == t.devices.Keys
            && (forall c: Context ::
                  Authenticates(t', c.secret, c) <==> Authenticates(t, c.secret, c) && c.device != device)
            && (forall d, code :: Pairs(t', d, code) <==> Pairs(t, d, code) && d != device)
            && t'.devices[device].status
               == (if t.devices[device].status == Pending then Cancelled else Status.Revoked)
  {
    var t' := Remove(w.t, device, owns).0;
    forall c: Context
      ensures Authenticates(t', c.secret, c) <==> Authenticates(w.t, c.secret, c) && c.device != device
    {
      RevokedOf(w.t, device, c);
    }
  }

  /** The second one deletes the account exactly when the device owns nothing any more. */
  lemma RemovingDeletes(w: World, device: Id, owns: bool)
    requires Inv(w)
    requires device in w.t.devices ==>
               w.t.devices[device].status == Cancelled || w.t.devices[device].status == Status.Revoked
    ensures var t := w.t;
            var (t', reply) := Remove(t, device, owns);
            && reply == (if device !in t.devices then NotFound else if owns then Conflict else Done)
            && (reply != Done ==> t' == t)
            && (reply == Done ==>
                  var account := t.devices[device].account;
                  && (forall d :: d in t'.devices <==> d in t.devices && t.devices[d].account != account)
                  && (forall d :: d in t'.devices ==> t'.devices[d] == t.devices[d])
                  && (forall k :: k in t'.keys <==> k in t.keys && t.keys[k].account != account)
                  && (forall k :: k in t'.keys ==> t'.keys[k] == t.keys[k]))
  {
    assert forall k :: k in w.t.keys && w.t.keys[k].device == device && !w.t.keys[k].revoked ==> KeySound(w, k);
  }

  /** A key is made exactly if the request's credential still authenticates; it admits the new key, for
      the same device and account, and nobody else's access changes. */
  lemma KeyingAdmits(w: World, c: Context)
    requires Inv(w)
    ensures var t := w.t;
            var (t', reply) := CreateKey(t, c);
            && (reply == Done <==> Authenticates(t, c.secret, c)) && (reply != Done ==> t' == t)
            && (reply == Done ==>
                  && (forall e: Context ::
                        Authenticates(t', e.secret, e) <==>
                          || Authenticates(t, e.secret, e)
                          || e == Context(c.account, c.device, KeyActor(t.next), t.next + 1))
                  && (forall d, code :: Pairs(t', d, code) <==> Pairs(t, d, code)))
  {
    assert w.t.next !in w.t.keys;
  }

  /** Revoking succeeds exactly for a live key of the caller's account. It shuts out that key, and nobody
      else's access changes. */
  lemma RevokingShuts(w: World, c: Context, k: Id)
    requires Inv(w)
    ensures var t := w.t;
            var (t', reply) := RevokeKey(t, c, k);
            && (reply == Done <==> k in t.keys && t.keys[k].account == c.account && !t.keys[k].revoked)
            && (reply == Done || reply == NotFound) && (reply != Done ==> t' == t)
            && (reply == Done ==>
                  && (forall e: Context ::
                        Authenticates(t', e.secret, e) <==> Authenticates(t, e.secret, e) && e.actor != KeyActor(k))
                  && (forall d, code :: Pairs(t', d, code) <==> Pairs(t, d, code)))
  {
  }

  /* ---- A revoked key over runs ---- */

  /** The key is revoked or gone, and its id is used. */
  predicate Dead(w: World, k: Id) {
    k < w.t.next && (k in w.t.keys ==> w.t.keys[k].revoked)
  }

  lemma StaysDead(w: World, action: Action, k: Id)
    requires Inv(w) && Dead(w, k)
    ensures Dead(Step(w, action), k)
  {
  }

  lemma {:induction false} StaysDeadOver(actions: seq<Action>, n: nat, k: Id)
    requires n <= |actions| && Dead(Run(actions[..n]), k)
    ensures Dead(Run(actions), k)
    decreases |actions|
  {
    hide Step, Inv, Dead;
    if n == |actions| {
      assert actions[..n] == actions;
    } else {
      var earlier := actions[..|actions| - 1];
      assert earlier[..n] == actions[..n];
      StaysDeadOver(earlier, n, k);
      RunKeeps(earlier);
      StaysDead(Run(earlier), actions[|actions| - 1], k);
    }
  }

  lemma RevokedIsDead(w: World, c: Context, k: Id)
    requires Inv(w) && RevokeKey(w.t, c, k).1 == Done
    ensures Dead(Step(w, ActRevokeKey(c, k)), k)
  {
  }

  lemma DeadIsShut(w: World, k: Id, secret: Secret, c: Context)
    requires Dead(w, k) && c.actor == KeyActor(k)
    ensures !Authenticates(w.t, secret, c)
  {
  }

  /** Once a revocation was answered with success, nothing authenticates as that key at any later time,
      whatever else happens. */
  lemma RevokedKeyIsShut(actions: seq<Action>, n: nat, c: Context, k: Id, secret: Secret, e: Context)
    requires n < |actions| && actions[n] == ActRevokeKey(c, k) && RevokeKey(Run(actions[..n]).t, c, k).1 == Done
    requires e.actor == KeyActor(k)
    ensures !Authenticates(Run(actions).t, secret, e)
  {
    hide Run, Step, Inv, Dead, Authenticates, RevokeKey;
    RunKeeps(actions[..n]);
    RevokedIsDead(Run(actions[..n]), c, k);
    assert actions[..n + 1][..n] == actions[..n];
    RunStep(actions, n);
    StaysDeadOver(actions, n + 1, k);
    DeadIsShut(Run(actions), k, secret, e);
  }

  lemma RunStep(actions: seq<Action>, n: nat)
    requires n < |actions|
    ensures Run(actions[..n + 1]) == Step(Run(actions[..n]), actions[n])
  {
    hide Step;
    assert actions[..n + 1][..n] == actions[..n];
  }
}

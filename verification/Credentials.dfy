/** Device tokens and API keys: pairing, rotation, removal, key creation and authentication. */
module Credentials {
  import opened Prelude

  type Id = nat
  /** Hashes of random values: tokens, keys and authorization codes. */
  type Secret = nat

  datatype Status = Pending | Paired | Cancelled | Revoked

  datatype Device = Device(account: Id, status: Status, token: Option<Secret>, code: Secret)
  datatype ApiKey = ApiKey(account: Id, device: Id, secret: Secret, revoked: bool)

  /** `next` is the next random value. */
  datatype Tables = Tables(devices: map<Id, Device>, keys: map<Id, ApiKey>, next: nat)

  const EMPTY := Tables(map[], map[], 0)

  datatype Actor = DeviceActor | KeyActor(key: Id)

  /** What `require_auth` stores in a request. */
  datatype Context = Context(account: Id, device: Id, actor: Actor, secret: Secret)

  datatype Reply = Done | NotFound | Conflict | Unauthorized

  function CreateInstance(t: Tables, account: Id): Tables {
    t.(devices := t.devices[t.next := Device(account, Pending, None, t.next + 1)], next := t.next + 2)
  }

  /** The update of `bootstrap`, for a device found earlier by its code. */
  function Pair(t: Tables, device: Id, code: Secret): (Tables, Reply) {
    if device in t.devices && t.devices[device].code == code && t.devices[device].status == Pending
       && t.devices[device].token.None?
    then
      var paired := t.devices[device].(status := Paired, token := Some(t.next));
      (t.(devices := t.devices[device := paired], next := t.next + 1), Done)
    else (t, Conflict)
  }

  function KeysRevoked(keys: map<Id, ApiKey>, device: Id): map<Id, ApiKey> {
    map k | k in keys :: if keys[k].device == device then keys[k].(revoked := true) else keys[k]
  }

  /** `rotate_instance_authorization`. */
  function Rotate(t: Tables, device: Id): (Tables, Reply) {
    if device !in t.devices then (t, NotFound)
    else if t.devices[device].status !in {Pending, Paired} then (t, Conflict)
    else
      (Tables(t.devices[device := t.devices[device].(status := Pending, token := None, code := t.next)],
              KeysRevoked(t.keys, device), t.next + 1),
       Done)
  }

  /** `remove_instance`: cancel or revoke first, delete the account the second time. `owns` says
      whether the device still owns backup records. */
  function Remove(t: Tables, device: Id, owns: bool): (Tables, Reply) {
    if device !in t.devices then (t, NotFound)
    else if t.devices[device].status in {Cancelled, Revoked} then
      if owns || (exists k :: k in t.keys && t.keys[k].device == device && !t.keys[k].revoked) then (t, Conflict)
      else
        var account := t.devices[device].account;
        (t.(devices := map d | d in t.devices && t.devices[d].account != account :: t.devices[d],
            keys := map k | k in t.keys && t.keys[k].account != account :: t.keys[k]),
         Done)
    else
      var status := if t.devices[device].status == Pending then Cancelled else Revoked;
      (t.(devices := t.devices[device := t.devices[device].(status := status, token := None)],
          keys := KeysRevoked(t.keys, device)),
       Done)
  }

  predicate HasToken(t: Tables, d: Id, secret: Secret) {
    d in t.devices && t.devices[d].token == Some(secret) && t.devices[d].status == Paired
  }

  predicate HasKey(t: Tables, k: Id, secret: Secret) {
    && k in t.keys && t.keys[k].secret == secret && !t.keys[k].revoked
    && t.keys[k].device in t.devices && t.devices[t.keys[k].device].account == t.keys[k].account
    && t.devices[t.keys[k].device].status == Paired
  }

  /** `require_auth`: what a bearer secret authenticates as. */
  ghost predicate Authenticates(t: Tables, secret: Secret, c: Context) {
    && c.secret == secret
    && match c.actor
       case DeviceActor => HasToken(t, c.device, secret) && t.devices[c.device].account == c.account
       case KeyActor(k) =>
         HasKey(t, k, secret) && c.device == t.keys[k].device && c.account == t.keys[k].account
  }

  /** The check of `create_api_key` under the writer lock. */
  predicate StillAuthorized(t: Tables, c: Context) {
    && c.device in t.devices && t.devices[c.device].account == c.account && t.devices[c.device].status == Paired
    && match c.actor
       case DeviceActor => t.devices[c.device].token == Some(c.secret)
       case KeyActor(k) =>
         && k in t.keys && t.keys[k].device == c.device && t.keys[k].account == c.account
         && t.keys[k].secret == c.secret && !t.keys[k].revoked
  }

  function CreateKey(t: Tables, c: Context): (Tables, Reply) {
    if !StillAuthorized(t, c) then (t, Unauthorized)
    else
      (t.(keys := t.keys[t.next := ApiKey(c.account, c.device, t.next + 1, false)], next := t.next + 2), Done)
  }

  function RevokeKey(t: Tables, c: Context, k: Id): (Tables, Reply) {
    if k in t.keys && t.keys[k].account == c.account && !t.keys[k].revoked
    then (t.(keys := t.keys[k := t.keys[k].(revoked := true)]), Done)
    else (t, NotFound)
  }

  /* ---- Runs ---- */

  /** Requests carry contexts, and bootstraps a device and a code, from any earlier time. */
  datatype Action =
    | ActCreateInstance(account: Id)
    | ActPair(device: Id, code: Secret)
    | ActRotate(device: Id)
    | ActRemove(device: Id, owns: bool)
    | ActCreateKey(context: Context)
    | ActRevokeKey(context: Context, key: Id)

  datatype Birth = Birth(device: Id, epoch: nat)

  /** History beside the tables: a device's epoch ends with every rotation or removal; every secret was
      made for a device in one of its epochs. */
  datatype World = World(t: Tables, epochs: map<Id, nat>, births: map<Secret, Birth>)

  const START := World(EMPTY, map[], map[])

  function Epoch(w: World, device: Id): nat {
    if device in w.epochs then w.epochs[device] else 0
  }

  function Step(w: World, action: Action): World {
    match action
    case ActCreateInstance(account) =>
      World(CreateInstance(w.t, account), w.epochs[w.t.next := 0], w.births[w.t.next + 1 := Birth(w.t.next, 0)])
    case ActPair(device, code) =>
      var (t', reply) := Pair(w.t, device, code);
      if reply == Done then World(t', w.epochs, w.births[w.t.next := Birth(device, Epoch(w, device))]) else w
    case ActRotate(device) =>
      var (t', reply) := Rotate(w.t, device);
      if reply == Done then
        World(t', w.epochs[device := Epoch(w, device) + 1], w.births[w.t.next := Birth(device, Epoch(w, device) + 1)])
      else w
    case ActRemove(device, owns) =>
      var (t', reply) := Remove(w.t, device, owns);
      if reply == Done then World(t', w.epochs[device := Epoch(w, device) + 1], w.births) else w
    case ActCreateKey(c) =>
      var (t', reply) := CreateKey(w.t, c);
      if reply == Done then World(t', w.epochs, w.births[w.t.next + 1 := Birth(c.device, Epoch(w, c.device))]) else w
    case ActRevokeKey(c, k) => w.(t := RevokeKey(w.t, c, k).0)
  }

  function Run(actions: seq<Action>): World {
    if actions == [] then START else Step(Run(actions[..|actions| - 1]), actions[|actions| - 1])
  }

  /* ---- The invariant ---- */

  /** The secret was made for the device in its present epoch. */
  predicate Present(w: World, secret: Secret, device: Id) {
    secret in w.births && w.births[secret] == Birth(device, Epoch(w, device))
  }

  predicate DeviceSound(w: World, d: Id)
    requires d in w.t.devices
  {
    var device := w.t.devices[d];
    && d < w.t.next
    && (device.token.Some? <==> device.status == Paired)
    && (device.token.Some? ==> Present(w, device.token.value, d))
    && (device.status in {Pending, Paired} ==> Present(w, device.code, d))
  }

  predicate KeySound(w: World, k: Id)
    requires k in w.t.keys
  {
    var key := w.t.keys[k];
    !key.revoked ==>
      && key.device in w.t.devices && w.t.devices[key.device].account == key.account
      && w.t.devices[key.device].status == Paired && Present(w, key.secret, key.device)
  }

  predicate Inv(w: World) {
    && (forall d :: d in w.t.devices ==> DeviceSound(w, d))
    && (forall k :: k in w.t.keys ==> k < w.t.next && KeySound(w, k))
    && (forall s :: s in w.births ==> s < w.t.next)
    && (forall d :: d in w.epochs ==> d < w.t.next)
  }

  lemma CreateInstanceKeeps(w: World, account: Id)
    requires Inv(w)
    ensures Inv(Step(w, ActCreateInstance(account)))
  {
  }

  lemma PairKeeps(w: World, device: Id, code: Secret)
    requires Inv(w)
    ensures Inv(Step(w, ActPair(device, code)))
  {
  }

  lemma RotateKeeps(w: World, device: Id)
    requires Inv(w)
    ensures Inv(Step(w, ActRotate(device)))
  {
  }

  lemma RemoveKeeps(w: World, device: Id, owns: bool)
    requires Inv(w)
    ensures Inv(Step(w, ActRemove(device, owns)))
  {
  }

  lemma CreateKeyKeeps(w: World, c: Context)
    requires Inv(w)
    ensures Inv(Step(w, ActCreateKey(c)))
  {
  }

  lemma RevokeKeyKeeps(w: World, c: Context, key: Id)
    requires Inv(w)
    ensures Inv(Step(w, ActRevokeKey(c, key)))
  {
  }

  lemma StepKeeps(w: World, action: Action)
    requires Inv(w)
    ensures Inv(Step(w, action))
  {
    hide *;
    match action
    case ActCreateInstance(account) => CreateInstanceKeeps(w, account);
    case ActPair(device, code) => PairKeeps(w, device, code);
    case ActRotate(device) => RotateKeeps(w, device);
    case ActRemove(device, owns) => RemoveKeeps(w, device, owns);
    case ActCreateKey(c) => CreateKeyKeeps(w, c);
    case ActRevokeKey(c, k) => RevokeKeyKeeps(w, c, k);
  }

  lemma {:induction false} RunKeeps(actions: seq<Action>)
    ensures Inv(Run(actions))
  {
    hide Inv, Step;
    if actions == [] {
      assert Inv(START) by { StartKeeps(); }
    } else {
      RunKeeps(actions[..|actions| - 1]);
      StepKeeps(Run(actions[..|actions| - 1]), actions[|actions| - 1]);
    }
  }

  lemma StartKeeps()
    ensures Inv(START)
  {
  }

  /* ---- What it means ---- */

  /** A device has a token exactly when it is paired, and a key that is not revoked has a paired device,
      in the epoch in which the key was created. */
  lemma CredentialsArePaired(actions: seq<Action>)
    ensures var w := Run(actions);
            && (forall d :: d in w.t.devices ==> (w.t.devices[d].token.Some? <==> w.t.devices[d].status == Paired))
            && (forall k :: k in w.t.keys && !w.t.keys[k].revoked ==>
                  && w.t.keys[k].device in w.t.devices && w.t.devices[w.t.keys[k].device].status == Paired
                  && Present(w, w.t.keys[k].secret, w.t.keys[k].device))
  {
    hide Run, Present;
    RunKeeps(actions);
    var w := Run(actions);
    assert forall d :: d in w.t.devices ==> DeviceSound(w, d);
    assert forall k :: k in w.t.keys ==> KeySound(w, k);
  }

  /** Whoever authenticates does so with a secret of the device's present epoch. */
  lemma AuthenticatesInPresent(actions: seq<Action>, secret: Secret, c: Context)
    requires Authenticates(Run(actions).t, secret, c)
    ensures Present(Run(actions), secret, c.device)
  {
    hide Run, Present;
    RunKeeps(actions);
    var w := Run(actions);
    assert c.actor == DeviceActor ==> DeviceSound(w, c.device);
    assert c.actor.KeyActor? ==> KeySound(w, c.actor.key);
  }

  /** Births stay, and epochs only rise. */
  lemma HistoryStays(w: World, action: Action, secret: Secret, device: Id)
    requires Inv(w) && secret in w.births
    ensures secret in Step(w, action).births && Step(w, action).births[secret] == w.births[secret]
    ensures Epoch(w, device) <= Epoch(Step(w, action), device)
  {
  }

  lemma {:induction false} HistoryStaysOver(actions: seq<Action>, n: nat, secret: Secret, device: Id)
    requires n <= |actions| && secret in Run(actions[..n]).births
    ensures secret in Run(actions).births && Run(actions).births[secret] == Run(actions[..n]).births[secret]
    ensures Epoch(Run(actions[..n]), device) <= Epoch(Run(actions), device)
    decreases |actions|
  {
    hide Step, Inv, Epoch;
    if n == |actions| {
      assert actions[..n] == actions;
    } else {
      var earlier := actions[..|actions| - 1];
      assert earlier[..n] == actions[..n];
      HistoryStaysOver(earlier, n, secret, device);
      RunKeeps(earlier);
      HistoryStays(Run(earlier), actions[|actions| - 1], secret, device);
    }
  }

  /** No secret of an earlier epoch ever authenticates again, whatever is in flight: once a device has
      moved on from the epoch a secret was made in, it authenticates nobody at any later time. */
  lemma OldSecretsAreDead(actions: seq<Action>, n: nat, secret: Secret, c: Context)
    requires n <= |actions| && secret in Run(actions[..n]).births
    requires Run(actions[..n]).births[secret].epoch < Epoch(Run(actions[..n]), Run(actions[..n]).births[secret].device)
    ensures !Authenticates(Run(actions).t, secret, c)
  {
    hide Run, Authenticates;
    var device := Run(actions[..n]).births[secret].device;
    HistoryStaysOver(actions, n, secret, device);
    if Authenticates(Run(actions).t, secret, c) {
      AuthenticatesInPresent(actions, secret, c);
    }
  }

  /** A rotation or a removal ends the epoch of every secret the device had. */
  lemma EndingEndsAll(w: World, action: Action, secret: Secret)
    requires Inv(w) && (action.ActRotate? || action.ActRemove?)
    requires secret in w.births && w.births[secret].device == action.device && Present(w, secret, action.device)
    requires Step(w, action) != w
    ensures Step(w, action).births[secret].epoch < Epoch(Step(w, action), action.device)
  {
  }

  /** A code pairs at most once, and not after a rotation. */
  lemma CodesPairOnce(actions: seq<Action>, device: Id, code: Secret)
    requires Pair(Run(actions).t, device, code).1 == Done
    ensures Present(Run(actions), code, device)
    ensures var w' := Step(Run(actions), ActPair(device, code)); Pair(w'.t, device, code).1 == Conflict
  {
    hide Run, Present;
    RunKeeps(actions);
    assert DeviceSound(Run(actions), device);
  }

  /** A secret is one device's, whoever acts with it. */
  lemma OneDevicePerSecret(actions: seq<Action>, secret: Secret, c: Context, d: Context)
    requires Authenticates(Run(actions).t, secret, c) && Authenticates(Run(actions).t, secret, d)
    ensures c.device == d.device && c.account == d.account
  {
    hide Run;
    AuthenticatesInPresent(actions, secret, c);
    AuthenticatesInPresent(actions, secret, d);
  }
}

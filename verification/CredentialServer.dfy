/** The credential tables as the server updates them. */
module CredentialServer {
  import opened Prelude
  import opened Credentials

  class Server {
    var devices: map<Id, Device>
    var keys: map<Id, ApiKey>
    var next: nat

    function View(): Tables
      reads this
    {
      Tables(devices, keys, next)
    }

    constructor ()
      ensures View() == EMPTY
    {
      devices, keys, next := map[], map[], 0;
    }

    /** A fresh random value. */
    method Draw() returns (secret: Secret)
      modifies this`next
      ensures secret == old(next) && next == old(next) + 1
    {
      secret := next;
      next := next + 1;
    }

    method CreateInstance(account: Id) returns (device: Id)
      modifies this
      ensures View() == Credentials.CreateInstance(old(View()), account) && device == old(next)
    {
      device := Draw();
      var code := Draw();
      devices := devices[device := Device(account, Pending, None, code)];
    }

    /** The query and the update of `bootstrap`. */
    method Bootstrap(code: Secret) returns (reply: Reply, device: Id)
      modifies this
      ensures reply == Unauthorized ==>
                View() == old(View()) && forall d :: d in devices ==> Pair(View(), d, code).1 == Conflict
      ensures reply != Unauthorized ==> reply == Done && (View(), reply) == Pair(old(View()), device, code)
    {
      if d :| d in devices && devices[d].code == code && devices[d].status == Pending && devices[d].token.None? {
        var token := Draw();
        devices := devices[d := devices[d].(status := Paired, token := Some(token))];
        return Done, d;
      }
      return Unauthorized, 0;
    }

    method RevokeKeysOf(device: Id)
      modifies this`keys
      ensures keys == KeysRevoked(old(keys), device)
    {
      keys := map k | k in keys :: if keys[k].device == device then keys[k].(revoked := true) else keys[k];
    }

    method Rotate(device: Id) returns (reply: Reply)
      modifies this
      ensures (View(), reply) == Credentials.Rotate(old(View()), device)
    {
      if device !in devices {
        return NotFound;
      }
      if devices[device].status !in {Pending, Paired} {
        return Conflict;
      }
      var code := Draw();
      devices := devices[device := devices[device].(status := Pending, token := None, code := code)];
      RevokeKeysOf(device);
      return Done;
    }

    method Remove(device: Id, owns: bool) returns (reply: Reply)
      modifies this
      ensures (View(), reply) == Credentials.Remove(old(View()), device, owns)
    {
      if device !in devices {
        return NotFound;
      }
      var row := devices[device];
      if row.status in {Cancelled, Revoked} {
        if owns || (exists k :: k in keys && keys[k].device == device && !keys[k].revoked) {
          return Conflict;
        }
        devices := map d | d in devices && devices[d].account != row.account :: devices[d];
        keys := map k | k in keys && keys[k].account != row.account :: keys[k];
      } else {
        var status := if row.status == Pending then Cancelled else Revoked;
        devices := devices[device := row.(status := status, token := None)];
        RevokeKeysOf(device);
      }
      return Done;
    }

    /** `require_auth`: a device's token first, then an API key. */
    method Authenticate(secret: Secret) returns (context: Option<Context>)
      ensures context.Some? ==> Authenticates(View(), secret, context.value)
      ensures context.None? ==> forall c :: !Authenticates(View(), secret, c)
    {
      if d :| d in devices && HasToken(View(), d, secret) {
        return Some(Context(devices[d].account, d, DeviceActor, secret));
      }
      if k :| k in keys && HasKey(View(), k, secret) {
        return Some(Context(keys[k].account, keys[k].device, KeyActor(k), secret));
      }
      return None;
    }

    /** `create_api_key`: the credential of the request is checked again before the key is made. */
    method CreateKey(c: Context) returns (reply: Reply)
      modifies this
      ensures (View(), reply) == Credentials.CreateKey(old(View()), c)
    {
      if !StillAuthorized(View(), c) {
        return Unauthorized;
      }
      var key := Draw();
      var secret := Draw();
      keys := keys[key := ApiKey(c.account, c.device, secret, false)];
      return Done;
    }

    method RevokeKey(c: Context, k: Id) returns (reply: Reply)
      modifies this`keys
      ensures (View(), reply) == Credentials.RevokeKey(old(View()), c, k)
    {
      if k in keys && keys[k].account == c.account && !keys[k].revoked {
        keys := keys[k := keys[k].(revoked := true)];
        return Done;
      }
      return NotFound;
    }
  }
}

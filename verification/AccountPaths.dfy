/** Accounts whose directories do not overlap share no storage key; the server keeps them so, and the
    doctor's scan checks the same. */
module AccountPaths {
  import opened Text
  import opened StorageKeys

  /* ---- Sharing ---- */

  lemma JoinedChars(a: string, b: string)
    requires forall c :: c in a ==> ValidChar(c)
    requires forall c :: c in b ==> ValidChar(c)
    ensures forall c :: c in a + "/" + b ==> ValidChar(c)
  {
  }

  /** A valid key below a valid key is valid, if it is not too long. */
  lemma ValidJoin(a: string, b: string)
    requires ValidKey(a) && ValidKey(b) && Bytes(a) + 1 + Bytes(b) <= MAX_KEY
    ensures ValidKey(a + "/" + b) && Below(a + "/" + b, a)
  {
    hide Bytes, Split;
    SplitAppend(a, b, '/');
    BytesAppend(a + "/", b);
    BytesAppend(a, "/");
    AsciiBytes("/");
    JoinedChars(a, b);
    var s := a + "/" + b;
    assert s[0] == a[0] && s[|s| - 1] == b[|b| - 1];
  }

  lemma PrefixesCompare<T>(one: seq<T>, two: seq<T>, long: seq<T>)
    requires StrictPrefix(one, long) && StrictPrefix(two, long)
    ensures one == two || StrictPrefix(one, two) || StrictPrefix(two, one)
  {
  }

  lemma SharedKeyOverlaps(a: string, b: string, key: string)
    requires BlobKeyAccepted(a, key) && BlobKeyAccepted(b, key)
    ensures Overlap(a, b)
  {
    PrefixesCompare(Split(a, '/'), Split(b, '/'), Split(key, '/'));
    if Split(a, '/') == Split(b, '/') {
      SplitInjective(a, b, '/');
    }
  }

  lemma XIsValid()
    ensures ValidKey("x")
  {
  }

  lemma BelowBelow(key: string, child: string, parent: string)
    requires Below(key, child) && (child == parent || Below(child, parent))
    ensures Below(key, parent)
  {
  }

  /** Two accounts accept a common blob key exactly when their directories overlap (paths that leave
      room for one more component). */
  lemma SharedBlobKeyIffOverlap(a: string, b: string)
    requires ValidKey(a) && ValidKey(b) && Bytes(a) + 2 <= MAX_KEY && Bytes(b) + 2 <= MAX_KEY
    ensures (exists key :: BlobKeyAccepted(a, key) && BlobKeyAccepted(b, key)) <==> Overlap(a, b)
  {
    hide Bytes, Split;
    if Overlap(a, b) {
      var deep := if Below(a, b) then a else b;
      var high := if Below(a, b) then b else a;
      XIsValid();
      AsciiBytes("x");
      ValidJoin(deep, "x");
      BelowBelow(deep + "/" + "x", deep, high);
      assert BlobKeyAccepted(a, deep + "/" + "x") && BlobKeyAccepted(b, deep + "/" + "x");
    }
    if key :| BlobKeyAccepted(a, key) && BlobKeyAccepted(b, key) {
      SharedKeyOverlaps(a, b, key);
    }
  }

  /** A stage key belongs to one account and one upload. */
  lemma StageKeyIsOnes(a: string, u: string, b: string, v: string, key: string)
    requires StageKeyAccepted(a, u, key) && StageKeyAccepted(b, v, key) && IsUuid(u) && IsUuid(v)
    ensures a == b && u == v
  {
    hide Split;
    var parts := Split(key, '/');
    var name := parts[|parts| - 1];
    var parent := parts[..|parts| - 1];
    assert Split(a, '/') == parent[..|parent| - 1] == Split(b, '/');
    SplitInjective(a, b, '/');
    assert name[|COMMIT|..|COMMIT| + 36] == (COMMIT + u + "-")[|COMMIT|..|COMMIT| + 36] == u;
    assert name[|COMMIT|..|COMMIT| + 36] == (COMMIT + v + "-")[|COMMIT|..|COMMIT| + 36] == v;
  }

  /* ---- The keys of a commit ---- */

  predicate Plain(s: string) {
    s != "" && forall i :: 0 <= i < |s| ==> '-' <= s[i] <= 'z' && s[i] != '/' && s[i] != ':' && s[i] != '\\'
  }

  lemma PlainIsValid(s: string)
    requires Plain(s) && s[0] != '.' && |s| <= MAX_KEY
    ensures ValidKey(s) && Split(s, '/') == [s] && Bytes(s) == |s|
  {
    AsciiBytes(s);
    SplitPlain(s, '/');
  }

  lemma HashIsPlain(hash: string)
    requires IsHash(hash)
    ensures Plain(hash[..2]) && Plain(LowerCase(hash)) && hash[0] != '.' && LowerCase(hash)[0] != '.'
    ensures |LowerCase(hash)| == 64
  {
    forall i | 0 <= i < 64 ensures Hex(LowerCase(hash)[i]) {
      assert hash[i] in hash;
    }
    assert hash[0] in hash && hash[1] in hash;
  }

  /** The name of a stage, field by field. */
  lemma StageNameFields(upload: string, nonce: string)
    requires IsUuid(upload) && IsUuid(nonce)
    ensures var name := StageName(upload, nonce);
            && Plain(name) && name[0] != '.' && |name| == 86
            && StartsWith(name, COMMIT + upload + "-") && IsStageName(name)
  {
  }

  lemma StageTextSplits(account: string, upload: string, nonce: string)
    requires IsUuid(upload) && IsUuid(nonce)
    ensures Split(StageText(account, upload, nonce), '/')
            == Split(account, '/') + ["staging"] + [StageName(upload, nonce)]
    ensures Bytes(StageText(account, upload, nonce)) == Bytes(account) + 95
  {
    hide Bytes, Split, IsStageName;
    var name := StageName(upload, nonce);
    StageNameFields(upload, nonce);
    PlainIsValid(name);
    PlainIsValid("staging");
    SplitAppend("staging", name, '/');
    SplitAppend(account, "staging" + "/" + name, '/');
    AsciiBytes("/");
    BytesAppend("staging", "/");
    BytesAppend("staging" + "/", name);
    BytesAppend(account + "/", "staging" + "/" + name);
    BytesAppend(account, "/");
  }

  lemma ObjectTextSplits(account: string, hash: string)
    requires IsHash(hash)
    ensures Split(ObjectText(account, hash), '/') == Split(account, '/') + ["objects"] + [hash[..2]] + [LowerCase(hash)]
    ensures Bytes(ObjectText(account, hash)) == Bytes(account) + 76
  {
    hide Bytes, Split, LowerCase;
    var name := LowerCase(hash);
    HashIsPlain(hash);
    PlainIsValid(name);
    PlainIsValid(hash[..2]);
    PlainIsValid("objects");
    SplitAppend(hash[..2], name, '/');
    SplitAppend("objects", hash[..2] + "/" + name, '/');
    SplitAppend(account, "objects" + "/" + (hash[..2] + "/" + name), '/');
    AsciiBytes("/");
    BytesAppend(hash[..2] + "/", name);
    BytesAppend(hash[..2], "/");
    BytesAppend("objects" + "/", hash[..2] + "/" + name);
    BytesAppend("objects", "/");
    BytesAppend(account + "/", "objects" + "/" + (hash[..2] + "/" + name));
    BytesAppend(account, "/");
  }

  /** Every pair of keys made for a commit is accepted for its account and its upload, and the stage
      for no other upload. */
  lemma CommitKeysAreOwn(account: string, upload: string, nonce: string, hash: string, other: string)
    requires IsUuid(upload) && IsUuid(nonce) && IsUuid(other)
    requires CommitKeys(account, upload, nonce, hash).Some?
    ensures var (stage, final) := CommitKeys(account, upload, nonce, hash).value;
            && BlobKeyAccepted(account, final)
            && (StageKeyAccepted(account, other, stage) <==> other == upload)
  {
    hide Split, ValidKey, IsStageName;
    StageTextSplits(account, upload, nonce);
    StageNameFields(upload, nonce);
    ObjectTextSplits(account, hash);
    var stage := StageText(account, upload, nonce);
    var parts := Split(stage, '/');
    assert parts[..|parts| - 1] == Split(account, '/') + ["staging"];
    assert StageKeyAccepted(account, upload, stage);
    if StageKeyAccepted(account, other, stage) {
      StageKeyIsOnes(account, upload, account, other, stage);
    }
    assert Split(ObjectText(account, hash), '/')[..|Split(account, '/')|] == Split(account, '/');
  }

  /** An account's path is short enough for its keys: they can always be made. */
  lemma CommitKeysExist(account: string, upload: string, nonce: string, hash: string)
    requires ValidKey(account) && Bytes(account) <= MAX_ACCOUNT_PATH
    requires IsUuid(upload) && IsUuid(nonce) && IsHash(hash)
    ensures CommitKeys(account, upload, nonce, hash).Some?
  {
    hide Bytes, Split, ValidKey, LowerCase, IsStageName;
    StageNameFields(upload, nonce);
    HashIsPlain(hash);
    PlainIsValid("staging");
    PlainIsValid("objects");
    PlainIsValid(StageName(upload, nonce));
    PlainIsValid(hash[..2]);
    PlainIsValid(LowerCase(hash));
    ValidJoin("staging", StageName(upload, nonce));
    ValidJoin(hash[..2], LowerCase(hash));
    BytesOfJoin(hash[..2], LowerCase(hash));
    BytesOfJoin("staging", StageName(upload, nonce));
    ValidJoin("objects", hash[..2] + "/" + LowerCase(hash));
    BytesOfJoin("objects", hash[..2] + "/" + LowerCase(hash));
    ValidJoin(account, "staging" + "/" + StageName(upload, nonce));
    ValidJoin(account, "objects" + "/" + (hash[..2] + "/" + LowerCase(hash)));
  }

  /** So every account that was given a path can commit any content. */
  lemma AssignableHasKeys(account: string, upload: string, nonce: string, hash: string)
    requires Assignable(account) && IsUuid(upload) && IsUuid(nonce) && IsHash(hash)
    ensures CommitKeys(account, upload, nonce, hash).Some?
  {
    hide ValidKey, Split, Bytes, CommitKeys;
    CommitKeysExist(account, upload, nonce, hash);
  }

  /** A stage key is accepted for an account and an upload exactly if it is one that could have been
      generated for them. */
  lemma AcceptedStageIff(account: string, upload: string, key: string)
    requires IsUuid(upload) && ValidKey(account) && ValidKey(key)
    ensures StageKeyAccepted(account, upload, key)
            <==> exists nonce :: IsUuid(nonce) && key == StageText(account, upload, nonce)
  {
    hide ValidKey, Split;
    if nonce :| IsUuid(nonce) && key == StageText(account, upload, nonce) {
      GeneratedIsAccepted(account, upload, nonce);
    }
    if StageKeyAccepted(account, upload, key) {
      var parts := Split(key, '/');
      var name := parts[|parts| - 1];
      var nonce := name[|COMMIT| + 37..|COMMIT| + 73];
      NameIs(upload, name);
      StageTextSplits(account, upload, nonce);
      assert parts == parts[..|parts| - 1] + [name];
      SplitInjective(key, StageText(account, upload, nonce), '/');
    }
  }

  lemma GeneratedIsAccepted(account: string, upload: string, nonce: string)
    requires IsUuid(upload) && IsUuid(nonce) && ValidKey(account) && ValidKey(StageText(account, upload, nonce))
    ensures StageKeyAccepted(account, upload, StageText(account, upload, nonce))
  {
    hide ValidKey, Split, IsStageName;
    StageTextSplits(account, upload, nonce);
    StageNameFields(upload, nonce);
    var parts := Split(StageText(account, upload, nonce), '/');
    assert parts[..|parts| - 1] == Split(account, '/') + ["staging"];
  }

  lemma NameIs(upload: string, name: string)
    requires IsUuid(upload) && StartsWith(name, COMMIT + upload + "-") && IsStageName(name)
    ensures var nonce := name[|COMMIT| + 37..|COMMIT| + 73]; IsUuid(nonce) && name == StageName(upload, nonce)
  {
    var nonce := name[|COMMIT| + 37..|COMMIT| + 73];
    assert |COMMIT + upload + "-"| == |COMMIT| + 37;
    assert name == name[..|COMMIT| + 37] + nonce + name[|COMMIT| + 73..];
  }

  lemma BytesOfJoin(a: string, b: string)
    ensures Bytes(a + "/" + b) == Bytes(a) + 1 + Bytes(b)
  {
    hide Bytes;
    AsciiBytes("/");
    BytesAppend(a + "/", b);
    BytesAppend(a, "/");
  }

  /** Two objects have one key exactly when account, spelling of the first two digits and hash agree. */
  lemma ObjectKeysDiffer(a: string, g: string, b: string, h: string)
    requires IsHash(g) && IsHash(h)
    ensures ObjectText(a, g) == ObjectText(b, h) <==> a == b && g[..2] == h[..2] && LowerCase(g) == LowerCase(h)
  {
    hide Split, LowerCase;
    ObjectTextSplits(a, g);
    ObjectTextSplits(b, h);
    if ObjectText(a, g) == ObjectText(b, h) {
      var parts := Split(ObjectText(a, g), '/');
      assert Split(a, '/') == parts[..|parts| - 3] == Split(b, '/');
      SplitInjective(a, b, '/');
      assert parts[|parts| - 2] == g[..2] == h[..2];
      assert parts[|parts| - 1] == LowerCase(g) == LowerCase(h);
    }
  }

  /* ---- Assigning paths ---- */

  type Id = nat

  predicate Disjoint(paths: map<Id, string>) {
    && (forall a :: a in paths ==> Assignable(paths[a]))
    && (forall a, b :: a in paths && b in paths && a != b ==> !Overlap(paths[a], paths[b]))
  }

  /** `create_user` and `update_user`: `ensure_unique_path` against every other account. */
  function Assign(paths: map<Id, string>, id: Id, path: string): map<Id, string> {
    if Assignable(path) && forall a :: a in paths && a != id ==> !Overlap(path, paths[a])
    then paths[id := path] else paths
  }

  /** A path is assigned exactly when it leaves the paths disjoint. */
  lemma AssignsIff(paths: map<Id, string>, id: Id, path: string)
    requires Disjoint(paths)
    ensures Assign(paths, id, path) == if Disjoint(paths[id := path]) then paths[id := path] else paths
  {
    hide Overlap, Assignable;
    var paths' := paths[id := path];
    assert paths'[id] == path;
    if Assignable(path) && forall a :: a in paths && a != id ==> !Overlap(path, paths[a]) {
      forall a, b | a in paths' && b in paths' && a != b ensures !Overlap(paths'[a], paths'[b]) {
        OverlapSymmetric(paths'[a], paths'[b]);
      }
    }
    if Disjoint(paths') {
      forall a | a in paths && a != id ensures !Overlap(path, paths[a]) {
        assert !Overlap(paths'[id], paths'[a]);
      }
    }
  }

  /** Assigning paths keeps them disjoint, and then no key is accepted under two accounts. */
  lemma AssignIsolates(paths: map<Id, string>, id: Id, path: string)
    requires Disjoint(paths)
    ensures Disjoint(Assign(paths, id, path))
    ensures var paths' := Assign(paths, id, path);
            forall a, b, key :: a in paths' && b in paths' && a != b && BlobKeyAccepted(paths'[a], key)
              ==> !BlobKeyAccepted(paths'[b], key)
  {
    hide Overlap, BlobKeyAccepted, Assignable;
    var paths' := Assign(paths, id, path);
    forall a, b | a in paths' && b in paths' && a != b ensures !Overlap(paths'[a], paths'[b]) {
      OverlapSymmetric(paths'[a], paths'[b]);
    }
    forall a, b, key | a in paths' && b in paths' && a != b && BlobKeyAccepted(paths'[a], key)
      ensures !BlobKeyAccepted(paths'[b], key)
    {
      if BlobKeyAccepted(paths'[b], key) {
        SharedKeyOverlaps(paths'[a], paths'[b], key);
      }
    }
  }

  /* ---- The doctor ---- */

  const MAX_METADATA_ENTRIES: nat := 100_000
  const MAX_INDEX_BYTES: nat := 64 * 1024 * 1024

  function TotalBytes(rows: seq<string>): nat {
    if rows == [] then 0 else TotalBytes(rows[..|rows| - 1]) + Bytes(rows[|rows| - 1])
  }

  /** Each row is a valid key outside the reserved directory, and all are within the budget. */
  predicate RowsFit(rows: seq<string>) {
    && (forall path :: path in rows ==> ValidKey(path) && Split(path, '/')[0] != RESERVED)
    && |rows| <= MAX_METADATA_ENTRIES && TotalBytes(rows) <= MAX_INDEX_BYTES
  }

  /** `ancestors`, the path itself left out: its first `n` components. */
  function Ancestor(path: string, n: nat): string
    requires 0 < n < |Split(path, '/')|
  {
    Join(Split(path, '/')[..n], '/')
  }

  lemma AncestorIs(path: string, n: nat)
    requires 0 < n < |Split(path, '/')|
    ensures Split(Ancestor(path, n), '/') == Split(path, '/')[..n]
  {
    SplitParts(path, '/');
    SplitJoin(Split(path, '/')[..n], '/');
  }

  /** Some other path is an ancestor exactly when the path is below it. */
  lemma BelowIsAncestor(path: string, other: string)
    ensures Below(path, other) <==> exists n :: 0 < n < |Split(path, '/')| && Ancestor(path, n) == other
  {
    hide Split;
    if Below(path, other) {
      var n := |Split(other, '/')|;
      AncestorIs(path, n);
      SplitInjective(Ancestor(path, n), other, '/');
    }
    if n :| 0 < n < |Split(path, '/')| && Ancestor(path, n) == other {
      AncestorIs(path, n);
    }
  }

  lemma TotalGrows(rows: seq<string>, n: nat)
    requires n <= |rows|
    ensures TotalBytes(rows[..n]) <= TotalBytes(rows)
    decreases |rows|
  {
    hide Bytes;
    if n < |rows| {
      TotalGrows(rows[..|rows| - 1], n);
      assert rows[..|rows| - 1][..n] == rows[..n];
    } else {
      assert rows[..n] == rows;
    }
  }

  predicate Distinct(rows: seq<string>) {
    forall i, j :: 0 <= i < j < |rows| ==> rows[i] != rows[j]
  }

  function Listed(rows: seq<string>): set<string> {
    set path | path in rows
  }

  lemma NothingListed()
    ensures Listed([]) == {}
  {
  }

  lemma OneMoreListed(rows: seq<string>, n: nat)
    requires Distinct(rows) && n < |rows|
    ensures rows[n] !in Listed(rows[..n]) && Listed(rows[..n + 1]) == Listed(rows[..n]) + {rows[n]}
  {
    assert rows[..n + 1] == rows[..n] + [rows[n]];
  }

  /** The first loop of `validate_account_storage_paths`: collect the rows, each valid, within the
      budget. */
  method CollectPaths(rows: seq<string>) returns (ok: bool, paths: set<string>)
    requires Distinct(rows)
    ensures ok == RowsFit(rows)
    ensures ok ==> paths == Listed(rows)
  {
    hide ValidKey, Split, Bytes, Listed;
    NothingListed();
    paths := {};
    ok := true;
    var bytes, n := 0, 0;
    while n < |rows|
      invariant n <= |rows| && bytes == TotalBytes(rows[..n]) <= MAX_INDEX_BYTES && n <= MAX_METADATA_ENTRIES
      invariant forall path :: path in rows[..n] ==> ValidKey(path) && Split(path, '/')[0] != RESERVED
      invariant paths == Listed(rows[..n]) && |paths| == n
    {
      TotalGrows(rows, n + 1);
      OneMoreListed(rows, n);
      assert rows[..n + 1] == rows[..n] + [rows[n]];
      if !ValidKey(rows[n]) || Split(rows[n], '/')[0] == RESERVED {
        return false, {};
      }
      bytes := bytes + Bytes(rows[n]);
      if |paths| >= MAX_METADATA_ENTRIES || bytes > MAX_INDEX_BYTES {
        return false, {};
      }
      paths := paths + {rows[n]};
      n := n + 1;
    }
    assert rows[..n] == rows;
  }

  /** Whether some ancestor of the path is in the set. */
  method HasAncestor(path: string, paths: set<string>) returns (found: bool)
    ensures found <==> exists other :: other in paths && Below(path, other)
  {
    var n := |Split(path, '/')| - 1;
    found := false;
    while n > 0
      invariant 0 <= n < |Split(path, '/')|
      invariant forall m :: n < m < |Split(path, '/')| ==> Ancestor(path, m) !in paths
    {
      if Ancestor(path, n) in paths {
        BelowIsAncestor(path, Ancestor(path, n));
        return true;
      }
      n := n - 1;
    }
    forall other | other in paths ensures !Below(path, other) {
      BelowIsAncestor(path, other);
    }
  }

  /** `validate_account_storage_paths`: the scan of each path's ancestors accepts distinct paths exactly
      when no two of them overlap by the server's pairwise test. */
  method ValidateAccountPaths(rows: seq<string>) returns (ok: bool)
    requires Distinct(rows)
    ensures ok <==> RowsFit(rows) && forall p, q :: p in rows && q in rows && p != q ==> !Overlap(p, q)
  {
    hide Below, RowsFit, TotalBytes, Split;
    var fit, paths := CollectPaths(rows);
    if !fit {
      return false;
    }
    var rest := paths;
    while rest != {}
      invariant rest <= paths && paths == Listed(rows)
      invariant forall p, q :: p in paths && p !in rest && q in paths ==> !Below(p, q)
      decreases |rest|
    {
      var path :| path in rest;
      var found := HasAncestor(path, paths);
      if found {
        var other :| other in paths && Below(path, other);
        NotBelowItself(path);
        assert Overlap(path, other);
        return false;
      }
      rest := rest - {path};
    }
    return true;
  }

  lemma NotBelowItself(path: string)
    ensures !Below(path, path)
  {
  }
}

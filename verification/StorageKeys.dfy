/** Storage keys as text: which are accepted, which belong to an account, and why accounts whose
    directories do not overlap never share one. */
module StorageKeys {
  import opened Prelude
  import opened Text

  /* ---- Text ---- */

  /** Unicode's white space, which `trim` removes. */
  predicate Space(c: char) {
    || '\t' <= c <= '\r' || c == ' ' || c == '\U{85}' || c == '\U{A0}' || c == '\U{1680}'
    || '\U{2000}' <= c <= '\U{200A}' || c == '\U{2028}' || c == '\U{2029}' || c == '\U{202F}' || c == '\U{205F}'
    || c == '\U{3000}'
  }

  predicate Control(c: char) {
    c < ' ' || '\U{7F}' <= c <= '\U{9F}'
  }

  predicate Trimmed(s: string) {
    s != [] ==> !Space(s[0]) && !Space(s[|s| - 1])
  }

  /* ---- Keys ---- */

  const MAX_KEY: nat := 4096

  predicate ValidChar(c: char) {
    c != '\\' && c != ':' && !Control(c)
  }

  predicate ValidComponent(part: string) {
    part != "" && part[0] != '.' && Trimmed(part)
  }

  /** `StorageKey::parse`, and the doctor's `validate_storage_key`. */
  predicate ValidKey(raw: string) {
    && raw != "" && Bytes(raw) <= MAX_KEY && Trimmed(raw) && raw[0] != '/'
    && (forall c :: c in raw ==> ValidChar(c))
    && (forall part :: part in Split(raw, '/') ==> ValidComponent(part))
  }

  predicate StrictPrefix<T(==)>(short: seq<T>, long: seq<T>) {
    |short| < |long| && long[..|short|] == short
  }

  /** `is_strict_descendant_of`: paths compare by component. */
  predicate Below(key: string, parent: string) {
    StrictPrefix(Split(parent, '/'), Split(key, '/'))
  }

  /** `account_paths_overlap`, of two valid keys. */
  predicate Overlap(one: string, two: string) {
    one == two || Below(one, two) || Below(two, one)
  }

  lemma OverlapSymmetric(a: string, b: string)
    ensures Overlap(a, b) == Overlap(b, a)
  {
  }

  /** `scoped_blob_key` accepts the key. */
  predicate BlobKeyAccepted(account: string, key: string) {
    ValidKey(account) && ValidKey(key) && Below(key, account)
  }

  predicate Hex(c: char) {
    '0' <= c <= '9' || 'a' <= c <= 'f' || 'A' <= c <= 'F'
  }

  /** `Uuid::parse_str` on 36 bytes. */
  predicate IsUuid(s: string) {
    |s| == 36 && forall i :: 0 <= i < 36 ==> if i in {8, 13, 18, 23} then s[i] == '-' else Hex(s[i])
  }

  const COMMIT: string := "commit-"
  const STAGE: string := ".stage"

  predicate StartsWith(s: string, prefix: string) {
    |prefix| <= |s| && s[..|prefix|] == prefix
  }

  /** `is_commit_stage_name`. */
  predicate IsStageName(name: string) {
    && |name| == |COMMIT| + 73 + |STAGE|
    && StartsWith(name, COMMIT) && name[|COMMIT| + 73..] == STAGE
    && IsUuid(name[|COMMIT|..|COMMIT| + 36]) && name[|COMMIT| + 36] == '-'
    && IsUuid(name[|COMMIT| + 37..|COMMIT| + 73])
  }

  /** `commit_stage_key` accepts the key. */
  predicate StageKeyAccepted(account: string, upload: string, key: string) {
    && ValidKey(account) && ValidKey(key)
    && (var parts := Split(key, '/');
        var name := parts[|parts| - 1];
        && parts[..|parts| - 1] == Split(account, '/') + ["staging"]
        && StartsWith(name, COMMIT + upload + "-") && IsStageName(name))
  }

  function LowerCase(s: string): string {
    seq(|s|, i requires 0 <= i < |s| => if 'A' <= s[i] <= 'Z' then (s[i] as int + 32) as char else s[i])
  }

  function StageName(upload: string, nonce: string): string {
    COMMIT + upload + "-" + nonce + STAGE
  }

  function StageText(account: string, upload: string, nonce: string): string {
    account + "/" + ("staging" + "/" + StageName(upload, nonce))
  }

  function ObjectText(account: string, hash: string): string
    requires |hash| == 64
  {
    account + "/" + ("objects" + "/" + (hash[..2] + "/" + LowerCase(hash)))
  }

  predicate IsHash(hash: string) {
    |hash| == 64 && forall c :: c in hash ==> Hex(c)
  }

  /** `commit_keys`: a stage with a fresh nonce and the object of a hash, if both are valid keys. */
  function CommitKeys(account: string, upload: string, nonce: string, hash: string): Option<(string, string)> {
    if !IsHash(hash) || !ValidKey(account) then None
    else if !ValidKey(StageText(account, upload, nonce)) || !ValidKey(ObjectText(account, hash)) then None
    else Some((StageText(account, upload, nonce), ObjectText(account, hash)))
  }

  /* ---- Account paths ---- */

  const MAX_ACCOUNT_PATH: nat := 1024
  const RESERVED: string := "uploads"

  /** A path that an account may have (`validate_policy`, `validate_account_path`). */
  predicate Assignable(path: string) {
    ValidKey(path) && Bytes(path) <= MAX_ACCOUNT_PATH && Split(path, '/')[0] != RESERVED
  }
}

/** Where a key leads: the file system takes "." for the directory itself, ".." for its parent and both
    slashes for separators. An accepted key leads to the place its text shows. */
module Places {
  import opened Prelude
  import opened Text
  import opened StorageKeys
  import opened World
  import opened TableInvariant
  import opened RequestInvariant
  import opened WorldProofs

  /* ---- Resolving ---- */

  /** The place that some components lead to from the data directory, or none above it. */
  function Resolve(parts: seq<string>): Option<seq<string>> {
    if parts == [] then Some([])
    else
      var before := Resolve(parts[..|parts| - 1]);
      var last := parts[|parts| - 1];
      if before.None? then None
      else if last == "" || last == "." then before
      else if last == ".." then if before.value == [] then None else Some(before.value[..|before.value| - 1])
      else Some(before.value + [last])
  }

  predicate Ordinary(part: string) {
    part != "" && part != "." && part != ".."
  }

  lemma {:induction false} ResolvesNoLonger(parts: seq<string>)
    ensures Resolve(parts).Some? ==> |Resolve(parts).value| <= |parts|
  {
    if parts != [] {
      ResolvesNoLonger(parts[..|parts| - 1]);
    }
  }

  /** Components lead to what they show exactly when none of them is empty, "." or "..". */
  lemma {:induction false} ShownIffOrdinary(parts: seq<string>)
    ensures Resolve(parts) == Some(parts) <==> forall part :: part in parts ==> Ordinary(part)
  {
    if parts != [] {
      var earlier, last := parts[..|parts| - 1], parts[|parts| - 1];
      ShownIffOrdinary(earlier);
      ResolvesNoLonger(earlier);
      assert parts == earlier + [last];
      assert forall part :: part in parts <==> part in earlier || part == last;
      if Resolve(parts) == Some(parts) {
        assert Ordinary(last);
        assert Resolve(earlier).value + [last] == earlier + [last];
        assert Resolve(earlier).value == (Resolve(earlier).value + [last])[..|earlier|] == earlier;
        assert Resolve(earlier) == Some(earlier);
      }
      if forall part :: part in parts ==> Ordinary(part) {
        assert Ordinary(last) by { assert last in parts; }
        assert Resolve(earlier) == Some(earlier);
      }
    }
  }

  function Slashes(key: string): string {
    seq(|key|, i requires 0 <= i < |key| => if key[i] == '\\' then '/' else key[i])
  }

  /** The place of a key. */
  function Place(key: string): Option<seq<string>> {
    Resolve(Split(Slashes(key), '/'))
  }

  /* ---- Names ---- */

  function TrimStart(s: string): string {
    if s != "" && Space(s[0]) then TrimStart(s[1..]) else s
  }

  function TrimEnd(s: string): string {
    if s != "" && Space(s[|s| - 1]) then TrimEnd(s[..|s| - 1]) else s
  }

  /** `trim`. */
  function Trim(s: string): string {
    TrimEnd(TrimStart(s))
  }

  lemma {:induction false} TrimStartShorter(s: string)
    ensures |TrimStart(s)| <= |s| && (s != "" && Space(s[0]) ==> |TrimStart(s)| < |s|)
  {
    if s != "" && Space(s[0]) {
      TrimStartShorter(s[1..]);
    }
  }

  lemma {:induction false} TrimEndShorter(s: string)
    ensures |TrimEnd(s)| <= |s| && (s != "" && Space(s[|s| - 1]) ==> |TrimEnd(s)| < |s|)
  {
    if s != "" && Space(s[|s| - 1]) {
      TrimEndShorter(s[..|s| - 1]);
    }
  }

  /** `trim` leaves a text as it is exactly if it neither begins nor ends with white space. */
  lemma TrimLeaves(s: string)
    ensures Trim(s) == s <==> Trimmed(s)
  {
    TrimStartShorter(s);
    TrimEndShorter(TrimStart(s));
    if Trim(s) == s {
      assert TrimStart(s) == s;
    }
  }

  /** A name of one file or directory on every platform: not hidden and not a way up, without
      separators, drives, control characters or white space at its ends. */
  predicate PortableName(part: string) {
    && part != "" && part[0] != '.' && Trim(part) == part
    && forall i :: 0 <= i < |part| ==>
         part[i] != '/' && part[i] != '\\' && part[i] != ':' && !(part[i] < ' ') && !('\U{7F}' <= part[i] <= '\U{9F}')
  }

  /** The characters of a text are those of its parts and the separator. */
  lemma {:induction false} CharsOfParts(s: string, sep: char, c: char)
    ensures c in s <==> (c == sep && |Split(s, sep)| > 1) || exists part :: part in Split(s, sep) && c in part
  {
    if s == [] {
      assert Split(s, sep) == [""];
    } else {
      var rest := Split(s[1..], sep);
      CharsOfParts(s[1..], sep, c);
      assert c in s <==> c == s[0] || c in s[1..];
      if s[0] == sep {
        assert forall part :: part in Split(s, sep) <==> part == "" || part in rest;
      } else {
        OneLonger(s[0], rest, c);
      }
    }
  }

  lemma OneLonger(first: char, rest: seq<string>, c: char)
    requires rest != []
    ensures (exists part :: part in [[first] + rest[0]] + rest[1..] && c in part)
            <==> c == first || exists part :: part in rest && c in part
  {
    var all := [[first] + rest[0]] + rest[1..];
    assert forall i :: 0 < i < |rest| ==> all[i] == rest[i];
    if part :| part in rest && c in part {
      var i :| 0 <= i < |rest| && rest[i] == part;
      assert c in all[i];
    }
    if part :| part in all && c in part && c != first {
      var i :| 0 <= i < |all| && all[i] == part;
      assert c in rest[i];
    }
    assert first in all[0];
  }

  lemma {:induction false} FirstPart(s: string, sep: char)
    requires Split(s, sep)[0] != ""
    ensures s != "" && s[0] == Split(s, sep)[0][0]
  {
  }

  lemma {:induction false} LastPart(s: string, sep: char)
    requires Split(s, sep)[|Split(s, sep)| - 1] != ""
    ensures s != "" && var last := Split(s, sep)[|Split(s, sep)| - 1]; s[|s| - 1] == last[|last| - 1]
  {
    if s != [] {
      var rest := Split(s[1..], sep);
      if s[0] == sep {
        LastPart(s[1..], sep);
      } else if |rest| > 1 {
        LastPart(s[1..], sep);
      } else if rest[0] != "" {
        LastPart(s[1..], sep);
      } else {
        JoinSplit(s[1..], sep);
      }
    }
  }

  lemma NameIff(part: string)
    requires '/' !in part
    ensures PortableName(part) <==> ValidComponent(part) && forall c :: c in part ==> ValidChar(c)
  {
    hide Trim;
    TrimLeaves(part);
    if PortableName(part) {
      forall c | c in part ensures ValidChar(c) {
        var i :| 0 <= i < |part| && part[i] == c;
      }
    }
    if forall c :: c in part ==> ValidChar(c) {
      forall i | 0 <= i < |part| ensures ValidChar(part[i]) && part[i] != '/' {
        assert part[i] in part;
      }
    }
  }

  lemma PartNames(key: string, part: string)
    requires ValidKey(key) && part in Split(key, '/')
    ensures PortableName(part)
  {
    hide Split;
    SplitParts(key, '/');
    forall c | c in part ensures ValidChar(c) {
      CharsOfParts(key, '/', c);
    }
    NameIff(part);
  }

  /** A key is accepted exactly if its length is within the limit and each of its components is such a
      name. */
  lemma ValidIffNames(key: string)
    ensures ValidKey(key)
            <==> Text.Bytes(key) <= MAX_KEY && forall part :: part in Split(key, '/') ==> PortableName(part)
  {
    hide PortableName, Split, Text.Bytes;
    if ValidKey(key) {
      forall part | part in Split(key, '/') ensures PortableName(part) {
        PartNames(key, part);
      }
    }
    if Text.Bytes(key) <= MAX_KEY && forall part :: part in Split(key, '/') ==> PortableName(part) {
      NamesMakeKey(key);
    }
  }

  lemma NamesMakeKey(key: string)
    requires Text.Bytes(key) <= MAX_KEY && forall part :: part in Split(key, '/') ==> PortableName(part)
    ensures ValidKey(key)
  {
    hide PortableName, Split, Text.Bytes;
    SplitParts(key, '/');
    forall part | part in Split(key, '/')
      ensures ValidComponent(part) && forall c :: c in part ==> ValidChar(c)
    {
      NameIff(part);
    }
    var parts := Split(key, '/');
    assert ValidComponent(parts[0]) && ValidComponent(parts[|parts| - 1]);
    FirstPart(key, '/');
    LastPart(key, '/');
    forall c | c in key ensures ValidChar(c) {
      CharsOfParts(key, '/', c);
    }
    assert key[0] != '/' by { assert parts[0][0] in parts[0]; }
  }

  /* ---- Accepted keys ---- */

  /** An accepted key leads to the place its text shows. */
  lemma ValidKeyShows(key: string)
    requires ValidKey(key)
    ensures Place(key) == Some(Split(key, '/'))
  {
    assert Slashes(key) == key by { NoBackslash(key); }
    hide Split, Slashes;
    forall part | part in Split(key, '/') ensures Ordinary(part) {
      assert ValidComponent(part);
    }
    ShownIffOrdinary(Split(key, '/'));
  }

  lemma NoBackslash(key: string)
    requires ValidKey(key)
    ensures Slashes(key) == key
  {
    hide Split;
    forall i | 0 <= i < |key| ensures key[i] != '\\' {
      assert key[i] in key;
    }
  }

  /** A blob key that an account accepts leads to a place strictly inside the account's directory. */
  lemma AcceptedIsInside(account: string, key: string)
    requires BlobKeyAccepted(account, key)
    ensures Place(account).Some? && Place(key).Some? && StrictPrefix(Place(account).value, Place(key).value)
  {
    hide ValidKey, Place, Split;
    ValidKeyShows(account);
    ValidKeyShows(key);
  }

  /** Two directories neither of which contains the other have no place in common. */
  lemma InsideOne(one: seq<string>, two: seq<string>, place: seq<string>)
    requires StrictPrefix(one, place) && StrictPrefix(two, place)
    ensures one == two || StrictPrefix(one, two) || StrictPrefix(two, one)
  {
  }

  lemma ApartPlaces(a: string, b: string, key: string, other: string)
    requires BlobKeyAccepted(a, key) && BlobKeyAccepted(b, other) && !Overlap(a, b)
    ensures Place(key) != Place(other)
  {
    hide Split, ValidKey, Place;
    ValidKeyShows(a);
    ValidKeyShows(b);
    AcceptedIsInside(a, key);
    AcceptedIsInside(b, other);
    if Place(key) == Place(other) {
      InsideOne(Split(a, '/'), Split(b, '/'), Place(key).value);
      if Split(a, '/') == Split(b, '/') {
        SplitInjective(a, b, '/');
      }
    }
  }

  /** In every reachable state keys of different accounts lead to different places, each inside its own
      account's directory. */
  lemma {:induction false} AccountsShareNoPlace(actions: seq<Action>, a: nat, b: nat, key: string, other: string)
    requires AdmissibleRun(actions) && a in Run(actions).t.accounts && b in Run(actions).t.accounts && a != b
    requires BlobKeyAccepted(Run(actions).t.accounts[a].path, key)
    requires BlobKeyAccepted(Run(actions).t.accounts[b].path, other)
    ensures Place(key).Some? && Place(other).Some? && Place(key) != Place(other)
    ensures Place(Run(actions).t.accounts[a].path).Some?
    ensures StrictPrefix(Place(Run(actions).t.accounts[a].path).value, Place(key).value)
  {
    hide Run, AdmissibleRun, SessionInv, DuplicateInv, UploadsSound, Safe, AllApart, IndexSound, BlobsPlaced,
         ResourcesOwned, ObjectsIntact, Overlap, BlobKeyAccepted, Assignable, Place;
    RunKeeps(actions);
    var accounts := Run(actions).t.accounts;
    ApartPlaces(accounts[a].path, accounts[b].path, key, other);
    AcceptedIsInside(accounts[a].path, key);
    AcceptedIsInside(accounts[b].path, other);
  }

  /* ---- The other files ---- */

  /** A stage key that an account accepts leads into its staging directory. */
  lemma StageIsInside(account: string, upload: string, key: string)
    requires StageKeyAccepted(account, upload, key)
    ensures Place(account).Some? && Place(key).Some? && |Place(key).value| == |Place(account).value| + 2
    ensures Place(key).value[..|Place(key).value| - 1] == Place(account).value + ["staging"]
  {
    hide Split, ValidKey, Place, IsStageName;
    ValidKeyShows(account);
    ValidKeyShows(key);
    var parts := Split(key, '/');
    assert |parts[..|parts| - 1]| == |Split(account, '/') + ["staging"]|;
  }

  /** Nothing an account accepts lies in the directory of parts, which is reserved. */
  lemma PartsAreNobodys(account: string, key: string, upload: string)
    requires Assignable(account) && (BlobKeyAccepted(account, key) || StageKeyAccepted(account, upload, key))
    ensures Place(key).Some? && Place(key).value != [] && Place(key).value[0] != "uploads"
  {
    hide Split, ValidKey, Place, IsStageName;
    ValidKeyShows(account);
    if BlobKeyAccepted(account, key) {
      AcceptedIsInside(account, key);
      assert Place(key).value[0] == Place(key).value[..|Place(account).value|][0];
    } else {
      StageIsInside(account, upload, key);
      assert Place(key).value[0] == Place(key).value[..|Place(key).value| - 1][0];
    }
  }
}

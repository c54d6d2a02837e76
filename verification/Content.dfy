/** Bytes, their hashes, upload manifests and storage keys. */
module Content {

  newtype byte = n: int | 0 <= n < 256
  type Bytes = seq<byte>

  /** Database ids (UUIDs in the source). */
  type Id = nat

  /** A 64-digit hexadecimal BLAKE3 text, as a client declares it. The hash function is taken to
      be injective, so a text stands for the bytes that hash to it, written in some mix of lower and
      upper case: `head` tells the spellings of the first two digits apart and `tail` those of the
      rest, 0 being all lower case, as the server prints its own hashes. */
  datatype Blake3 = Blake3(preimage: Bytes, head: nat, tail: nat) {
    predicate Lower() {
      head == 0 && tail == 0
    }
  }

  /** What the server computes for some bytes. */
  function Digest(content: Bytes): Blake3 {
    Blake3(content, 0, 0)
  }

  datatype PartSpec = PartSpec(size: nat, hash: Blake3)
  datatype Manifest = Manifest(size: nat, hash: Blake3, parts: seq<PartSpec>)

  function PartSizes(parts: seq<PartSpec>): nat {
    if parts == [] then 0 else PartSizes(parts[..|parts| - 1]) + parts[|parts| - 1].size
  }

  /** What parts with the declared hashes make up, one after the other. */
  function Concatenated(parts: seq<PartSpec>): Bytes {
    if parts == [] then [] else Concatenated(parts[..|parts| - 1]) + parts[|parts| - 1].hash.preimage
  }

  /** An account's storage directory, relative to the data directory. */
  type AccountPath = string

  /** The storage keys the server generates. An object lies in a directory named by the first two
      digits of the declared hash as they were written, under the hash in lower case. Module
      StorageKeys models these keys as text. */
  datatype Key =
    | PartKey(upload: Id, index: nat)
    | StageKey(path: AccountPath, upload: Id, nonce: Id)
    | ObjectKey(path: AccountPath, head: nat, name: Bytes)

  function ObjectOf(path: AccountPath, hash: Blake3): Key {
    ObjectKey(path, hash.head, hash.preimage)
  }

  type Files = map<Key, Bytes>

  datatype ObjectState = Missing | Matches | Mismatch

  /** Whether some bytes have a declared size and hash. */
  predicate Fits(content: Bytes, size: nat, hash: Blake3) {
    |content| == size && Digest(content) == hash
  }

  /** The parts make up the declared content, by the hashes that were declared for them. */
  predicate Coherent(manifest: Manifest) {
    Fits(Concatenated(manifest.parts), manifest.size, manifest.hash)
  }

  predicate Holds(files: Files, key: Key, size: nat, hash: Blake3) {
    key in files && Fits(files[key], size, hash)
  }

  /** `inspect_object`, `inspect_commit_stage`: compare a file with a size and a hash. */
  function Inspect(files: Files, key: Key, size: nat, hash: Blake3): ObjectState {
    if key !in files then Missing
    else if Fits(files[key], size, hash) then Matches
    else Mismatch
  }
}

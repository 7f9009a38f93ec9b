/** `FilesystemObjectStorage` as a map from keys to bytes, with idempotent deletion. */
module Storage {
  import opened Records

  class ObjectStorage {
    /** The digest, and which keys would leave the storage root. */
    const checksum: Bytes -> string
    const unsafe: StorageKey -> bool
    var objects: map<StorageKey, Bytes>

    constructor (checksum: Bytes -> string, unsafe: StorageKey -> bool)
      ensures this.checksum == checksum && this.unsafe == unsafe && objects == map[]
    {
      this.checksum, this.unsafe, objects := checksum, unsafe, map[];
    }

    method Put(key: StorageKey, content: Bytes, expected: string) returns (stored: Result<StorageKey, ArchiveError>)
      modifies this
      ensures stored == if checksum(content) != expected then Err(ChecksumMismatch)
                        else if unsafe(key) then Err(StorageFailure) else Ok(key)
      ensures objects == if stored.Ok? then old(objects)[key := content] else old(objects)
    {
      if checksum(content) != expected { return Err(ChecksumMismatch); }
      if unsafe(key) { return Err(StorageFailure); }
      objects := objects[key := content];
      stored := Ok(key);
    }

    method Delete(key: StorageKey) returns (done: bool)
      modifies this
      ensures done == !unsafe(key)
      ensures objects == if done then old(objects) - {key} else old(objects)
    {
      done := !unsafe(key);
      if done && key in objects { objects := objects - {key}; }
    }
  }
}

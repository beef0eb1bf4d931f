/**
 * The link store the handlers reach through the `URLS` key-value binding.
 * Values are kept as records rather than as their JSON text; two ghost
 * counters record how many reads and writes the handlers performed.
 */
module Links {
  import opened Wrappers
  import opened Text

  /**
   * A stored link. `clicks` is `None` when the stored object has no usable
   * counter; `ip` and `userAgent` are only written by the standalone worker.
   */
  datatype LinkRecord = LinkRecord(
    originalUrl: string,
    createdAt: string,
    clicks: Option<int>,
    ip: Option<string>,
    userAgent: Option<string>)

  function Find(entries: map<string, LinkRecord>, key: string): Option<LinkRecord>
  {
    if key in entries then Some(entries[key]) else None
  }

  class LinkStore {
    var entries: map<string, LinkRecord>
    ghost var lookups: nat
    ghost var writes: nat

    constructor (initial: map<string, LinkRecord>)
      ensures entries == initial && lookups == 0 && writes == 0
    {
      entries := initial;
      lookups, writes := 0, 0;
    }

    /** `URLS.get(key)`. */
    method Get(key: string) returns (r: Option<LinkRecord>)
      modifies this`lookups
      ensures r == Find(entries, key)
      ensures r.Some? <==> key in entries
      ensures lookups == old(lookups) + 1
    {
      r := Find(entries, key);
      lookups := lookups + 1;
    }

    /** `URLS.put(key, value)`: last write wins. */
    method Put(key: string, record: LinkRecord)
      modifies this`entries, this`writes
      ensures entries == old(entries)[key := record]
      ensures writes == old(writes) + 1
    {
      entries := entries[key := record];
      writes := writes + 1;
    }
  }
}

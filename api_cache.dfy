/**
 * The RTK Query cache: one entry per cached query, with the tags its endpoint provides.
 * A mutation drops every entry that shares a tag with what it invalidates, and
 * `resetApiState` drops everything.
 */
module ApiCache {
  import opened Json
  import opened ApiTypes

  /** A cached query: the endpoint and its serialised argument. */
  datatype CacheKey = CacheKey(endpoint: Endpoint, arg: string)

  datatype Entry = Entry(data: Json, tags: set<Tag>)

  class ApiCache {
    var entries: map<CacheKey, Entry>

    constructor ()
      ensures entries == map[]
    {
      entries := map[];
    }

    method Store(key: CacheKey, e: Entry)
      modifies this
      ensures entries == old(entries)[key := e]
    {
      entries := entries[key := e];
    }

    /** Drops exactly the entries that provide one of `tags`; the rest stay as they were. */
    method Invalidate(tags: set<Tag>)
      modifies this
      ensures entries == map k | k in old(entries) && old(entries)[k].tags !! tags :: old(entries)[k]
      ensures forall k :: k in entries ==> entries[k].tags !! tags
    {
      entries := map k | k in entries && entries[k].tags !! tags :: entries[k];
    }

    /** `util.resetApiState()`: no cached query survives. */
    method ResetApiState()
      modifies this
      ensures entries == map[]
    {
      entries := map[];
    }
  }
}

/** The per-request log store (`createApiLogContext`): an append-only list of entries
    with an operation that adds one and an operation that copies them out. */
module LogContext {
  import opened Values

  class LogStore {
    /** The entries appended so far, oldest first. */
    var entries: seq<Entry>

    /** A fresh store holds no entries. */
    constructor ()
      ensures entries == []
    {
      entries := [];
    }

    /** `set(entry)`: push `entry` onto the end; earlier entries keep their values and order. */
    method Set(entry: Entry)
      modifies this
      ensures entries == old(entries) + [entry]
      ensures |entries| == |old(entries)| + 1 && entries[|entries| - 1] == entry
    {
      entries := entries + [entry];
    }

    /** `get()`: a copy of the entries in insertion order. */
    method Get() returns (snapshot: seq<Entry>)
      ensures snapshot == entries
    {
      snapshot := entries;
    }
  }

  /** `getApiLogEntries()`, with the ambient store made explicit: `undefined` when no store
      is active, otherwise a copy of the active store's entries. */
  method GetApiLogEntries(active: Option<LogStore>) returns (r: Option<seq<Entry>>)
    ensures active.None? ==> r.None?
    ensures active.Some? ==> r == Some(active.value.entries)
  {
    if active.Some? {
      var snapshot := active.value.Get();
      r := Some(snapshot);
    } else {
      r := None;
    }
  }

  /** A snapshot is a copy, not the live list: a `set` after a `get` leaves the
      snapshot as it was and extends only the store. */
  method SnapshotThenSet(store: LogStore, entry: Entry) returns (snapshot: seq<Entry>)
    modifies store
    ensures snapshot == old(store.entries)
    ensures store.entries == snapshot + [entry]
  {
    snapshot := store.Get();
    store.Set(entry);
  }
}

/** The expiring key-value store behind sessions (go-universal/cache), as a
    recording test double: it holds entries with their remaining
    time-to-live, logs every call, and fails a call whose operation has an
    entry in `faults`, with that entry's text as the error. Real expiry over
    time is not modelled: a remaining TTL changes only when it is written. */
module Cache {
  import opened Wrappers
  import opened Json
  import opened Errors

  /** A stored value and its remaining time-to-live in nanoseconds. */
  datatype Entry = Entry(blob: Blob, ttl: int)

  type Entries = map<string, Entry>

  datatype Op = OpExists | OpCast | OpPut | OpUpdate | OpTTL | OpForget

  datatype Call = Call(op: Op, key: string)

  const KeyNotFound := "cache: key not found"

  /** The remaining TTL the store reports for a key; a key it does not hold
      reports 0, that is, nothing left. */
  function Remaining(entries: Entries, key: string): int
  {
    if key in entries then entries[key].ttl else 0
  }

  /** The store after a successful Put. */
  function Stored(entries: Entries, key: string, blob: Blob, ttl: int): (r: Entries)
    ensures key in r && r[key] == Entry(blob, ttl)
    ensures forall k :: k != key ==> (k in r <==> k in entries)
  {
    entries[key := Entry(blob, ttl)]
  }

  class Store {
    var entries: Entries
    var faults: map<Op, string>
    var calls: seq<Call>

    constructor (entries: Entries, faults: map<Op, string>)
      ensures this.entries == entries && this.faults == faults && calls == []
    {
      this.entries := entries;
      this.faults := faults;
      calls := [];
    }

    /** Exists(key): whether the key is held. */
    method Exists(key: string) returns (r: Result<bool, Error>)
      modifies this`calls
      ensures calls == old(calls) + [Call(OpExists, key)]
      ensures OpExists in faults ==> r == Failure(Plain(faults[OpExists]))
      ensures OpExists !in faults ==> r == Success(key in entries)
    {
      calls := calls + [Call(OpExists, key)];
      if OpExists in faults {
        r := Failure(Plain(faults[OpExists]));
      } else {
        r := Success(key in entries);
      }
    }

    /** Cast(key).String(): the stored bytes. */
    method Cast(key: string) returns (r: Result<Blob, Error>)
      modifies this`calls
      ensures calls == old(calls) + [Call(OpCast, key)]
      ensures OpCast in faults ==> r == Failure(Plain(faults[OpCast]))
      ensures OpCast !in faults && key in entries ==> r == Success(entries[key].blob)
      ensures OpCast !in faults && key !in entries ==> r == Failure(Plain(KeyNotFound))
    {
      calls := calls + [Call(OpCast, key)];
      if OpCast in faults {
        r := Failure(Plain(faults[OpCast]));
      } else if key in entries {
        r := Success(entries[key].blob);
      } else {
        r := Failure(Plain(KeyNotFound));
      }
    }

    /** Put(key, value, &ttl): stores the value with a new TTL. */
    method Put(key: string, blob: Blob, ttl: int) returns (r: Outcome<Error>)
      modifies this`entries, this`calls
      ensures calls == old(calls) + [Call(OpPut, key)]
      ensures OpPut in faults ==> r == Fail(Plain(faults[OpPut])) && entries == old(entries)
      ensures OpPut !in faults ==> r == Pass && entries == Stored(old(entries), key, blob, ttl)
    {
      calls := calls + [Call(OpPut, key)];
      if OpPut in faults {
        r := Fail(Plain(faults[OpPut]));
      } else {
        entries := Stored(entries, key, blob, ttl);
        r := Pass;
      }
    }

    /** Update(key, value): rewrites a held value and keeps its TTL; reports
        false and writes nothing when the key is not held. */
    method Update(key: string, blob: Blob) returns (r: Result<bool, Error>)
      modifies this`entries, this`calls
      ensures calls == old(calls) + [Call(OpUpdate, key)]
      ensures OpUpdate in faults ==> r == Failure(Plain(faults[OpUpdate])) && entries == old(entries)
      ensures OpUpdate !in faults && key in old(entries) ==>
        r == Success(true) && entries == Stored(old(entries), key, blob, old(entries)[key].ttl)
      ensures OpUpdate !in faults && key !in old(entries) ==> r == Success(false) && entries == old(entries)
    {
      calls := calls + [Call(OpUpdate, key)];
      if OpUpdate in faults {
        r := Failure(Plain(faults[OpUpdate]));
      } else if key in entries {
        entries := Stored(entries, key, blob, entries[key].ttl);
        r := Success(true);
      } else {
        r := Success(false);
      }
    }

    /** TTL(key): the remaining time-to-live. */
    method TTL(key: string) returns (r: Result<int, Error>)
      modifies this`calls
      ensures calls == old(calls) + [Call(OpTTL, key)]
      ensures OpTTL in faults ==> r == Failure(Plain(faults[OpTTL]))
      ensures OpTTL !in faults ==> r == Success(Remaining(entries, key))
    {
      calls := calls + [Call(OpTTL, key)];
      if OpTTL in faults {
        r := Failure(Plain(faults[OpTTL]));
      } else {
        r := Success(Remaining(entries, key));
      }
    }

    /** Forget(key): deletes the key (deleting an absent key succeeds). */
    method Forget(key: string) returns (r: Outcome<Error>)
      modifies this`entries, this`calls
      ensures calls == old(calls) + [Call(OpForget, key)]
      ensures OpForget in faults ==> r == Fail(Plain(faults[OpForget])) && entries == old(entries)
      ensures OpForget !in faults ==> r == Pass && entries == old(entries) - {key}
    {
      calls := calls + [Call(OpForget, key)];
      if OpForget in faults {
        r := Fail(Plain(faults[OpForget]));
      } else {
        entries := entries - {key};
        r := Pass;
      }
    }
  }

  /** cache.Queue: a list of items kept for later processing. */
  class Queue {
    var items: seq<string>

    constructor ()
      ensures items == []
    {
      items := [];
    }

    method Push(item: string)
      modifies this
      ensures items == old(items) + [item]
    {
      items := items + [item];
    }
  }
}

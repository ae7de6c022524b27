/** The blob stores as one client uses them: the in-memory store, the byte cache in front of it, the
    protobuf store and the copy routine on top. */
module BlobStore {
  import opened Options
  import opened ErrorChain

  type Ref = string
  type Bytes = seq<bv8>

  const CACHE_WRITE_FAILED: Code := "CACHE_WRITE_FAILED"
  const NOT_EXIST := Plain("file does not exist")

  class InMemoryStore {
    var cache: map<Ref, Bytes>

    constructor ()
      ensures cache == map[]
    {
      cache := map[];
    }

    method Head(ref: Ref) returns (found: bool, size: nat)
      ensures found <==> ref in cache
      ensures size == if found then |cache[ref]| else 0
    {
      found := ref in cache;
      size := if found then |cache[ref]| else 0;
    }

    method ReadRaw(ref: Ref) returns (bytes: Option<Bytes>, err: Option<Error>)
      ensures if ref in cache then bytes == Some(cache[ref]) && err == None else bytes == None && err == Some(NOT_EXIST)
    {
      if ref in cache {
        return Some(cache[ref]), None;
      }
      return None, Some(NOT_EXIST);
    }

    method WriteRaw(ref: Ref, bytes: Bytes)
      modifies this
      ensures cache == old(cache)[ref := bytes]
    {
      cache := cache[ref := bytes];
    }

    method Delete(ref: Ref) returns (err: Option<Error>)
      modifies this
      ensures cache == old(cache) - {ref}
      ensures err == if ref in old(cache) then None else Some(NOT_EXIST)
    {
      if ref !in cache {
        return Some(NOT_EXIST);
      }
      cache := cache - {ref};
      return None;
    }
  }

  ghost predicate Agree(store: map<Ref, Bytes>, cache: map<Ref, Bytes>) {
    forall ref :: ref in cache ==> ref in store && cache[ref] == store[ref]
  }

  lemma {:induction false} OverlaidWrite(store: map<Ref, Bytes>, cache: map<Ref, Bytes>, ref: Ref, bytes: Bytes,
        setOk: bool)
    ensures
      var store', cache' := store[ref := bytes], if setOk then cache[ref := bytes] else cache;
      && store' + cache' == (if setOk || ref !in cache then (store + cache)[ref := bytes] else store + cache)
      && (Agree(store, cache) ==> (Agree(store', cache') <==> setOk || ref !in cache || cache[ref] == bytes))
  {
  }

  /** `setOk` says whether the write to the byte cache succeeds; the caller cannot influence it. */
  class CachedRawStore {
    const raw: InMemoryStore
    var cache: map<Ref, Bytes>

    constructor (raw: InMemoryStore)
      ensures this.raw == raw && cache == map[]
    {
      this.raw := raw;
      cache := map[];
    }

    /** What a reader sees: the cache, and the underlying store where the cache has no entry. */
    ghost function Visible(): map<Ref, Bytes>
      reads this, raw
    {
      raw.cache + cache
    }

    ghost predicate Coherent()
      reads this, raw
    {
      Agree(raw.cache, cache)
    }

    /** An entry may disappear from the cache at any time. */
    method Evict(ref: Ref)
      modifies this
      ensures cache == old(cache) - {ref}
      ensures old(Coherent()) ==> Coherent() && Visible() == old(Visible())
    {
      cache := cache - {ref};
    }

    method Head(ref: Ref) returns (found: bool, size: nat)
      ensures found <==> ref in Visible()
      ensures size == if found then |Visible()[ref]| else 0
    {
      if ref in cache {
        return true, |cache[ref]|;
      }
      found, size := raw.Head(ref);
    }

    method ReadRaw(ref: Ref, setOk: bool) returns (bytes: Option<Bytes>, err: Option<Error>)
      modifies this
      ensures Visible() == old(Visible())
      ensures old(Coherent()) ==> Coherent()
      ensures bytes == if ref in Visible() then Some(Visible()[ref]) else None
      ensures bytes == None ==> err == Some(NOT_EXIST)
      ensures bytes != None ==> (err != None <==> ref !in old(cache) && !setOk)
      ensures bytes != None && err != None ==> CausedBy(err, CACHE_WRITE_FAILED)
      ensures cache == old(cache) || (bytes != None && cache == old(cache)[ref := bytes.value])
      ensures bytes != None && err == None ==> ref in cache
    {
      if ref in cache {
        return Some(cache[ref]), None;
      }
      bytes, err := raw.ReadRaw(ref);
      if err != None {
        return None, err;
      }
      if setOk {
        cache := cache[ref := bytes.value];
      } else {
        var e := Wrapf(CACHE_WRITE_FAILED, Some(Plain("entry too large")), "Failed to Cache the metadata");
        WrapKeepsCauses(CACHE_WRITE_FAILED, e.cause, e.message, CACHE_WRITE_FAILED);
        err := Some(e);
      }
    }

    /** The bytes always reach the underlying store. They are what readers see unless the cache write
        fails while the cache holds an older entry. */
    method WriteRaw(ref: Ref, bytes: Bytes, setOk: bool) returns (err: Option<Error>)
      modifies this, raw
      ensures raw.cache == old(raw.cache)[ref := bytes]
      ensures cache == if setOk then old(cache)[ref := bytes] else old(cache)
      ensures Visible() == if setOk || ref !in old(cache) then old(Visible())[ref := bytes] else old(Visible())
      ensures old(Coherent()) ==> (Coherent() <==> setOk || ref !in old(cache) || old(cache)[ref] == bytes)
      ensures err == None <==> setOk
      ensures err != None ==> CausedBy(err, CACHE_WRITE_FAILED)
    {
      OverlaidWrite(raw.cache, cache, ref, bytes, setOk);
      raw.WriteRaw(ref, bytes);
      if setOk {
        cache := cache[ref := bytes];
        err := None;
      } else {
        var e := Wrapf(CACHE_WRITE_FAILED, Some(Plain("entry too large")), "Failed to Cache the metadata");
        WrapKeepsCauses(CACHE_WRITE_FAILED, e.cause, e.message, CACHE_WRITE_FAILED);
        err := Some(e);
      }
    }

    method Delete(ref: Ref) returns (err: Option<Error>)
      modifies this, raw
      ensures ref !in Visible() && Visible() == old(Visible()) - {ref}
      ensures old(Coherent()) ==> Coherent()
      ensures err == if ref in old(raw.cache) then None else Some(NOT_EXIST)
    {
      cache := cache - {ref};
      err := raw.Delete(ref);
    }
  }

  /** The copy routine, run over a store that may report failed cache writes. */
  method CopyRaw(store: CachedRawStore, source: Ref, destination: Ref, readSetOk: bool, writeSetOk: bool)
    returns (err: Option<Error>)
    modifies store, store.raw
    ensures err == None <==> source in old(store.Visible())
    ensures err == None ==> store.raw.cache == old(store.raw.cache)[destination := old(store.Visible())[source]]
    ensures err != None ==> store.raw.cache == old(store.raw.cache)
  {
    var bytes, readErr := store.ReadRaw(source, readSetOk);
    var readCacheOnly := IsCausedBy(readErr, CACHE_WRITE_FAILED);
    if readErr != None && !readCacheOnly {
      return readErr;
    }
    var writeErr := store.WriteRaw(destination, bytes.value, writeSetOk);
    var writeCacheOnly := IsCausedBy(writeErr, CACHE_WRITE_FAILED);
    if writeErr != None && !writeCacheOnly {
      return writeErr;
    }
    return None;
  }

  class ProtobufStore<M(!new, ==)> {
    const store: CachedRawStore
    const marshal: M -> Option<Bytes>
    const unmarshal: Bytes -> Option<M>

    constructor (store: CachedRawStore, marshal: M -> Option<Bytes>, unmarshal: Bytes -> Option<M>)
      ensures this.store == store && this.marshal == marshal && this.unmarshal == unmarshal
    {
      this.store, this.marshal, this.unmarshal := store, marshal, unmarshal;
    }

    ghost function Decoded(ref: Ref): Option<M>
      reads store, store.raw
    {
      if ref in store.Visible() then unmarshal(store.Visible()[ref]) else None
    }

    method ReadProtobuf(ref: Ref, setOk: bool) returns (msg: Option<M>, err: Option<Error>)
      modifies store
      ensures store.Visible() == old(store.Visible()) && msg == old(Decoded(ref))
      ensures err == None <==> msg != None
      ensures old(store.Coherent()) ==> store.Coherent()
    {
      var bytes, readErr := store.ReadRaw(ref, setOk);
      var cacheOnly := IsCausedBy(readErr, CACHE_WRITE_FAILED);
      if readErr != None && !cacheOnly {
        return None, Some(Causer("path:" + ref, readErr));
      }
      msg := unmarshal(bytes.value);
      if msg == None {
        return None, Some(Causer("unmarshall: " + ref, Some(Plain("malformed message"))));
      }
      return msg, None;
    }

    method WriteProtobuf(ref: Ref, msg: M, setOk: bool) returns (err: Option<Error>)
      modifies store, store.raw
      ensures err == None <==> marshal(msg) != None
      ensures err != None ==> store.cache == old(store.cache) && store.raw.cache == old(store.raw.cache)
      ensures err == None ==>
        store.raw.cache == old(store.raw.cache)[ref := marshal(msg).value] &&
        store.cache == if setOk then old(store.cache)[ref := marshal(msg).value] else old(store.cache)
    {
      var raw := marshal(msg);
      if raw == None {
        return Some(Plain("marshal failed"));
      }
      var writeErr := store.WriteRaw(ref, raw.value, setOk);
      var cacheOnly := IsCausedBy(writeErr, CACHE_WRITE_FAILED);
      if writeErr != None && !cacheOnly {
        return writeErr;
      }
      return None;
    }

    /** Cache failures are invisible to a client that writes a reference once: whatever happens to the
        two cache writes, the message comes back. For an overwritten reference the exact condition is
        that the first cache write succeeds or the older cache entry decodes to the same message. */
    method WriteThenRead(ref: Ref, msg: M, writeSetOk: bool, readSetOk: bool) returns (got: Option<M>)
      requires marshal(msg) != None && unmarshal(marshal(msg).value) == Some(msg)
      modifies store, store.raw
      ensures got == Some(msg) <==>
        writeSetOk || ref !in old(store.cache) || unmarshal(old(store.cache)[ref]) == Some(msg)
    {
      var writeErr := WriteProtobuf(ref, msg, writeSetOk);
      assert writeErr == None;
      var readErr;
      got, readErr := ReadProtobuf(ref, readSetOk);
    }
  }
}

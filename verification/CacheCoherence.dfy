/** The cached blob store under concurrency: the byte cache and the underlying store are accessed in
    separate atomic steps, and the steps of all threads interleave with evictions. */
module CacheCoherence {
  import opened Options

  type Ref = string
  type Bytes = seq<bv8>
  type Tid = nat

  /** The next access of a thread: `Store` accesses go to the underlying store, `Fill` to the cache.
      CopyRaw is inherited from the underlying store and has no Fill. */
  datatype Pc =
    | Idle
    | ReadStore(ref: Ref)
    | ReadFill(ref: Ref, bytes: Bytes)
    | HeadStore(ref: Ref)
    | WriteStore(ref: Ref, bytes: Bytes)
    | WriteFill(ref: Ref, bytes: Bytes)
    | CopyRead(source: Ref, destination: Ref)
    | CopyWrite(ref: Ref, bytes: Bytes)
    | DeleteStore(ref: Ref)

  /** `written` remembers everything that was ever in the store; no access reads it. */
  datatype State = State(cache: map<Ref, Bytes>, store: map<Ref, Bytes>, threads: map<Tid, Pc>,
                         written: set<(Ref, Bytes)>)

  datatype Event =
    | StartRead(t: Tid, ref: Ref)
    | StartHead(t: Tid, ref: Ref)
    | StartWrite(t: Tid, ref: Ref, bytes: Bytes)
    | StartCopy(t: Tid, source: Ref, destination: Ref)
    | StartDelete(t: Tid, ref: Ref)
    | Next(t: Tid, setOk: bool)
    | Fail(t: Tid)
    | Evict(ref: Ref)

  /** What a call gives back to its client when it finishes. */
  datatype Response = Read(ref: Ref, bytes: Bytes) | Meta(ref: Ref, found: bool, size: nat) | Other

  predicate Enabled(s: State, e: Event) {
    match e
    case Next(t, _) => t in s.threads && s.threads[t] != Idle
    case Fail(t) => t in s.threads && s.threads[t] != Idle
    case Evict(_) => true
    case _ => e.t in s.threads && s.threads[e.t] == Idle
  }

  function Goto(s: State, t: Tid, pc: Pc): State {
    s.(threads := s.threads[t := pc])
  }

  function Stored(s: State, ref: Ref, bytes: Bytes): State {
    s.(store := s.store[ref := bytes], written := s.written + {(ref, bytes)})
  }

  /** A failing cache write leaves an older entry in place. */
  function Filled(s: State, ref: Ref, bytes: Bytes, setOk: bool): State {
    if setOk then s.(cache := s.cache[ref := bytes]) else s
  }

  function Advance(s: State, t: Tid, setOk: bool): State
    requires Enabled(s, Next(t, setOk))
  {
    match s.threads[t]
    case ReadStore(ref) => Goto(s, t, if ref in s.store then ReadFill(ref, s.store[ref]) else Idle)
    case ReadFill(ref, bytes) => Goto(Filled(s, ref, bytes, setOk), t, Idle)
    case HeadStore(_) => Goto(s, t, Idle)
    case WriteStore(ref, bytes) => Goto(Stored(s, ref, bytes), t, WriteFill(ref, bytes))
    case WriteFill(ref, bytes) => Goto(Filled(s, ref, bytes, setOk), t, Idle)
    case CopyRead(source, destination) =>
      Goto(s, t, if source in s.store then CopyWrite(destination, s.store[source]) else Idle)
    case CopyWrite(ref, bytes) => Goto(Stored(s, ref, bytes), t, Idle)
    case DeleteStore(ref) => Goto(s.(store := s.store - {ref}), t, Idle)
  }

  function Step(s: State, e: Event): State
    requires Enabled(s, e)
  {
    match e
    case StartRead(t, ref) => if ref in s.cache then s else Goto(s, t, ReadStore(ref))
    case StartHead(t, ref) => if ref in s.cache then s else Goto(s, t, HeadStore(ref))
    case StartWrite(t, ref, bytes) => Goto(s, t, WriteStore(ref, bytes))
    case StartCopy(t, source, destination) => Goto(s, t, CopyRead(source, destination))
    case StartDelete(t, ref) => Goto(s.(cache := s.cache - {ref}), t, DeleteStore(ref))
    case Next(t, setOk) => Advance(s, t, setOk)
    case Fail(t) => Goto(s, t, Idle)
    case Evict(ref) => s.(cache := s.cache - {ref})
  }

  /** The answer that an event delivers, if it finishes a ReadRaw or a Head. */
  function Answer(s: State, e: Event): Response
    requires Enabled(s, e)
  {
    match e
    case StartRead(_, ref) => if ref in s.cache then Read(ref, s.cache[ref]) else Other
    case StartHead(_, ref) => if ref in s.cache then Meta(ref, true, |s.cache[ref]|) else Other
    case Next(t, _) =>
      (match s.threads[t]
       case ReadFill(ref, bytes) => Read(ref, bytes)
       case HeadStore(ref) => if ref in s.store then Meta(ref, true, |s.store[ref]|) else Meta(ref, false, 0)
       case _ => Other)
    case _ => Other
  }

  /** An empty cache in front of any store. */
  ghost predicate Init(s: State) {
    s.cache == map[] && (forall t :: t in s.threads ==> s.threads[t] == Idle) &&
    forall ref :: ref in s.store ==> (ref, s.store[ref]) in s.written
  }

  predicate Run(s: State, es: seq<Event>)
    decreases |es|
  {
    es == [] || (Enabled(s, es[0]) && Run(Step(s, es[0]), es[1..]))
  }

  function Final(s: State, es: seq<Event>): State
    requires Run(s, es)
    decreases |es|
  {
    if es == [] then s else Final(Step(s, es[0]), es[1..])
  }

  /** The content that an event puts into the store, if any. */
  function StoreWrite(s: State, e: Event): Option<(Ref, Bytes)> {
    if e.Next? && Enabled(s, e) then
      match s.threads[e.t]
      case WriteStore(ref, bytes) => Some((ref, bytes))
      case CopyWrite(ref, bytes) => Some((ref, bytes))
      case _ => None
    else None
  }

  /** Each reference gets its bytes at most once and nothing is deleted. */
  predicate WriteOnce(s: State, e: Event) {
    !e.StartDelete? && (StoreWrite(s, e).Some? ==> StoreWrite(s, e).value.0 !in s.store)
  }

  predicate WriteOnceRun(s: State, es: seq<Event>)
    requires Run(s, es)
    decreases |es|
  {
    es != [] ==> WriteOnce(s, es[0]) && WriteOnceRun(Step(s, es[0]), es[1..])
  }

  predicate Fills(pc: Pc) {
    pc.ReadFill? || pc.WriteFill?
  }

  /** Cached bytes equal store bytes, and so do the bytes that are about to be cached. */
  ghost predicate Coherent(s: State) {
    (forall ref :: ref in s.cache ==> ref in s.store && s.cache[ref] == s.store[ref]) &&
    (forall t :: t in s.threads && Fills(s.threads[t]) ==>
      s.threads[t].ref in s.store && s.threads[t].bytes == s.store[s.threads[t].ref])
  }

  ghost predicate NoDelete(s: State) {
    forall t :: t in s.threads ==> !s.threads[t].DeleteStore?
  }

  lemma {:induction false} AdvanceKeepsCoherent(s: State, t: Tid, setOk: bool)
    requires Coherent(s) && NoDelete(s) && Enabled(s, Next(t, setOk)) && WriteOnce(s, Next(t, setOk))
    ensures Coherent(Advance(s, t, setOk)) && NoDelete(Advance(s, t, setOk))
  {
  }

  lemma {:induction false} StepKeepsCoherent(s: State, e: Event)
    requires Coherent(s) && NoDelete(s) && Enabled(s, e) && WriteOnce(s, e)
    ensures Coherent(Step(s, e)) && NoDelete(Step(s, e))
  {
    if e.Next? { AdvanceKeepsCoherent(s, e.t, e.setOk); }
  }

  /** What a client may be told about a reference, judged by the underlying store alone. */
  ghost predicate Truthful(s: State, answer: Response) {
    match answer
    case Read(ref, bytes) => ref in s.store && s.store[ref] == bytes
    case Meta(ref, found, size) =>
      found == (ref in s.store) && size == if ref in s.store then |s.store[ref]| else 0
    case Other => true
  }

  lemma {:induction false} RunKeepsCoherent(s: State, es: seq<Event>)
    requires Coherent(s) && NoDelete(s) && Run(s, es) && WriteOnceRun(s, es)
    ensures Coherent(Final(s, es)) && NoDelete(Final(s, es))
    decreases |es|
  {
    if es != [] {
      StepKeepsCoherent(s, es[0]);
      RunKeepsCoherent(Step(s, es[0]), es[1..]);
    }
  }

  /** Coherence over all interleavings: in every write-once run of a new cache, whatever is evicted
      and however many cache writes fail, each answer agrees with the underlying store at the moment
      it is given. */
  lemma {:induction false} WriteOnceReadsAreTruthful(s: State, es: seq<Event>, e: Event)
    requires Init(s) && Run(s, es) && WriteOnceRun(s, es) && Enabled(Final(s, es), e)
    ensures Coherent(Final(s, es)) && Truthful(Final(s, es), Answer(Final(s, es), e))
  {
    RunKeepsCoherent(s, es);
  }

  /** And it stays true: what was read once is what the store holds from then on. */
  lemma {:induction false} WriteOnceContentIsStable(s: State, es: seq<Event>, ref: Ref)
    requires NoDelete(s) && Run(s, es) && WriteOnceRun(s, es) && ref in s.store
    ensures ref in Final(s, es).store && Final(s, es).store[ref] == s.store[ref]
    decreases |es|
  {
    if es != [] { WriteOnceContentIsStable(Step(s, es[0]), es[1..], ref); }
  }

  /** Without the write-once rule: a store write keeps coherence exactly when the cache and the
      pending cache writes of the same reference already hold the new bytes, or nothing. */
  lemma {:induction false} WriteKeepsCoherenceIff(s: State, e: Event)
    requires Coherent(s) && Enabled(s, e) && StoreWrite(s, e).Some?
    ensures
      var (ref, bytes) := StoreWrite(s, e).value;
      Coherent(Step(s, e)) <==>
        && (ref in s.cache ==> s.cache[ref] == bytes)
        && (forall t :: t in s.threads && Fills(s.threads[t]) && s.threads[t].ref == ref ==>
             s.threads[t].bytes == bytes)
  {
    var (ref, bytes) := StoreWrite(s, e).value;
    var s' := Step(s, e);
    assert s'.cache == s.cache && s'.store == s.store[ref := bytes];
    forall t | t in s.threads && Fills(s.threads[t]) ensures s'.threads[t] == s.threads[t] {}
  }

  /** Likewise for the store part of a Delete, whose cache part came earlier: a read that was already
      under way may put the deleted bytes back into the cache. */
  lemma {:induction false} DeleteKeepsCoherenceIff(s: State, t: Tid, setOk: bool)
    requires Coherent(s) && t in s.threads && s.threads[t].DeleteStore?
    ensures
      var ref := s.threads[t].ref;
      Coherent(Step(s, Next(t, setOk))) <==>
        ref !in s.cache && forall u :: u in s.threads && Fills(s.threads[u]) ==> s.threads[u].ref != ref
  {
    var ref, s' := s.threads[t].ref, Step(s, Next(t, setOk));
    assert s'.cache == s.cache && s'.store == s.store - {ref};
    forall u | u in s.threads && Fills(s.threads[u]) ensures s'.threads[u] == s.threads[u] {}
  }

  /** Every byte string in sight was written to that reference. */
  ghost predicate Authentic(s: State) {
    (forall ref :: ref in s.store ==> (ref, s.store[ref]) in s.written) &&
    (forall ref :: ref in s.cache ==> (ref, s.cache[ref]) in s.written) &&
    (forall t :: t in s.threads && Fills(s.threads[t]) ==> (s.threads[t].ref, s.threads[t].bytes) in s.written)
  }

  lemma {:induction false} StepKeepsAuthentic(s: State, e: Event)
    requires Authentic(s) && Enabled(s, e)
    ensures Authentic(Step(s, e)) && s.written <= Step(s, e).written
  {
  }

  lemma {:induction false} RunKeepsAuthentic(s: State, es: seq<Event>)
    requires Authentic(s) && Run(s, es)
    ensures Authentic(Final(s, es))
    decreases |es|
  {
    if es != [] {
      StepKeepsAuthentic(s, es[0]);
      RunKeepsAuthentic(Step(s, es[0]), es[1..]);
    }
  }

  /** With overwrites, copies and deletes in any order, a read may be stale, but it never returns
      bytes that were not in the store under that very reference at some time. */
  lemma {:induction false} ReadsAreAuthentic(s: State, es: seq<Event>, e: Event)
    requires Init(s) && Run(s, es) && Enabled(Final(s, es), e)
    ensures
      var answer := Answer(Final(s, es), e);
      answer.Read? ==> (answer.ref, answer.bytes) in Final(s, es).written
  {
    RunKeepsAuthentic(s, es);
  }

  lemma {:induction false} RunAppend(s: State, a: seq<Event>, b: seq<Event>)
    requires Run(s, a) && Run(Final(s, a), b)
    ensures Run(s, a + b) && Final(s, a + b) == Final(Final(s, a), b)
    decreases |a|
  {
    if a == [] {
      assert a + b == b;
    } else {
      RunAppend(Step(s, a[0]), a[1..], b);
      assert (a + b)[1..] == a[1..] + b;
    }
  }

  lemma {:induction false} RunOne(s: State, e: Event)
    requires Enabled(s, e)
    ensures Run(s, [e]) && Final(s, [e]) == Step(s, e)
  {
    assert [e][1..] == [];
  }

  lemma {:induction false} RunTwo(s: State, d: Event, e: Event)
    requires Enabled(s, d) && Enabled(Step(s, d), e)
    ensures Run(s, [d] + [e]) && Final(s, [d] + [e]) == Step(Step(s, d), e)
  {
    RunOne(s, d);
    RunOne(Step(s, d), e);
    RunAppend(s, [d], [e]);
  }

  // ---- calls that nobody disturbs

  /** A read that finds the cache empty and is not disturbed answers what the store holds and caches it if
      the cache accepts it; one that finds an entry answers that. A read of nothing ends without an answer. */
  lemma {:induction false} ReadAlone(s: State, t: Tid, ref: Ref, setOk: bool)
    requires t in s.threads && s.threads[t] == Idle
    ensures ref in s.cache ==>
      Answer(s, StartRead(t, ref)) == Read(ref, s.cache[ref]) && Step(s, StartRead(t, ref)) == s
    ensures ref !in s.cache && ref in s.store ==>
      Run(s, [StartRead(t, ref)] + [Next(t, true)]) &&
      var s' := Final(s, [StartRead(t, ref)] + [Next(t, true)]);
      Enabled(s', Next(t, setOk)) && Answer(s', Next(t, setOk)) == Read(ref, s.store[ref]) &&
      Step(s', Next(t, setOk)) == if setOk then s.(cache := s.cache[ref := s.store[ref]]) else s
    ensures ref !in s.cache && ref !in s.store ==>
      Run(s, [StartRead(t, ref)] + [Next(t, true)]) && Final(s, [StartRead(t, ref)] + [Next(t, true)]) == s &&
      Answer(s, StartRead(t, ref)) == Answer(Step(s, StartRead(t, ref)), Next(t, true)) == Other
  {
    if ref !in s.cache {
      RunTwo(s, StartRead(t, ref), Next(t, true));
      var s' := Step(Step(s, StartRead(t, ref)), Next(t, true));
      assert s'.threads[t := Idle] == s.threads;
    }
  }

  /** A Head that finds the cache empty and is not disturbed answers what the store holds. */
  lemma {:induction false} HeadAlone(s: State, t: Tid, ref: Ref)
    requires t in s.threads && s.threads[t] == Idle
    ensures ref in s.cache ==> Answer(s, StartHead(t, ref)) == Meta(ref, true, |s.cache[ref]|)
    ensures ref !in s.cache ==>
      var s' := Step(s, StartHead(t, ref));
      Answer(s, StartHead(t, ref)) == Other && Enabled(s', Next(t, true)) && Step(s', Next(t, true)) == s &&
      Answer(s', Next(t, true)) == if ref in s.store then Meta(ref, true, |s.store[ref]|) else Meta(ref, false, 0)
  {
    if ref !in s.cache {
      var s' := Step(s, StartHead(t, ref));
      assert Step(s', Next(t, true)).threads == s.threads;
    }
  }

  /** A copy that is not disturbed stores the bytes of the source under the destination and leaves the cache
      alone; a copy of nothing changes nothing. */
  lemma {:induction false} CopyAlone(s: State, t: Tid, source: Ref, destination: Ref)
    requires t in s.threads && s.threads[t] == Idle
    ensures Run(s, [StartCopy(t, source, destination)] + [Next(t, true)])
    ensures
      var s' := Final(s, [StartCopy(t, source, destination)] + [Next(t, true)]);
      if source in s.store then
        && Enabled(s', Next(t, true))
        && Step(s', Next(t, true)).store == s.store[destination := s.store[source]]
        && Step(s', Next(t, true)).cache == s.cache && Step(s', Next(t, true)).threads == s.threads
      else s' == s
  {
    RunTwo(s, StartCopy(t, source, destination), Next(t, true));
    var s' := Step(Step(s, StartCopy(t, source, destination)), Next(t, true));
    assert s'.threads[t := Idle] == s.threads;
  }

  /** A Delete that is not disturbed leaves nothing under the reference and everything else as it was. */
  lemma {:induction false} DeleteAlone(s: State, t: Tid, ref: Ref)
    requires t in s.threads && s.threads[t] == Idle
    ensures Run(s, [StartDelete(t, ref)] + [Next(t, true)])
    ensures Final(s, [StartDelete(t, ref)] + [Next(t, true)]) ==
      s.(cache := s.cache - {ref}, store := s.store - {ref})
  {
    RunTwo(s, StartDelete(t, ref), Next(t, true));
    assert Step(Step(s, StartDelete(t, ref)), Next(t, true)).threads == s.threads;
  }

  /** WriteRaw by the only client, from its call to its return. */
  function WriteAlone(ref: Ref, bytes: Bytes, setOk: bool): seq<Event> {
    [StartWrite(0, ref, bytes)] + ([Next(0, true)] + [Next(0, setOk)])
  }

  lemma {:induction false} WriteAloneIs(s: State, ref: Ref, bytes: Bytes, setOk: bool)
    requires s.threads == map[0 := Idle]
    ensures Run(s, WriteAlone(ref, bytes, setOk))
    ensures Final(s, WriteAlone(ref, bytes, setOk)) == Filled(Stored(s, ref, bytes), ref, bytes, setOk)
  {
    var s1 := Step(s, StartWrite(0, ref, bytes));
    var s2 := Step(s1, Next(0, true));
    RunOne(s, StartWrite(0, ref, bytes));
    RunOne(s1, Next(0, true));
    RunOne(s2, Next(0, setOk));
    RunAppend(s1, [Next(0, true)], [Next(0, setOk)]);
    RunAppend(s, [StartWrite(0, ref, bytes)], [Next(0, true)] + [Next(0, setOk)]);
    assert Step(s2, Next(0, setOk)).threads == s.threads;
  }

  /** A single client that overwrites a cached reference while the cache write fails reads the old
      bytes afterwards. */
  lemma {:induction false} FailedOverwriteIsStale(ref: Ref, older: Bytes, newer: Bytes)
    returns (s: State, es: seq<Event>)
    requires older != newer
    ensures Init(s) && Run(s, es) && Final(s, es).store == map[ref := newer]
    ensures Enabled(Final(s, es), StartRead(0, ref)) && Answer(Final(s, es), StartRead(0, ref)) == Read(ref, older)
  {
    s := State(map[], map[], map[0 := Idle], {});
    WriteAloneIs(s, ref, older, true);
    var s1 := Final(s, WriteAlone(ref, older, true));
    assert s1.threads == map[0 := Idle];
    WriteAloneIs(s1, ref, newer, false);
    es := WriteAlone(ref, older, true) + WriteAlone(ref, newer, false);
    RunAppend(s, WriteAlone(ref, older, true), WriteAlone(ref, newer, false));
    assert Final(s, es) == Filled(Stored(s1, ref, newer), ref, newer, false);
  }
}

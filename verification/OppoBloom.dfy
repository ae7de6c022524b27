/** The lock-free filter that may forget ids but never invents one. Add exchanges a slot by a load
    and a compare-and-swap in a loop; the steps of all threads interleave. */
module OppoBloom {
  import opened Options
  import opened Powers

  type Byte = x: int | 0 <= x < 256
  /** A byte slice; only its equality, its emptiness and its digest matter here. */
  type Id = string
  type Tid = nat
  type Pointer = nat

  const MAX_FILTER_SIZE := 1073741824
  const DIGEST_SIZE := 16

  type Digest = sum: seq<Byte> | |sum| == DIGEST_SIZE witness seq(DIGEST_SIZE, _ => 0)

  // ---- hashing and sizing

  /** What the hash keeps of a digest: its first three bytes. */
  function HashOf(sum: Digest): nat {
    64 * (sum[0] as nat) + 8 * (sum[1] as nat) + sum[2] as nat
  }

  /** One round of the hash never reaches 32 bits, so it loses nothing to truncation. */
  lemma {:induction false} RoundFits(x: nat, b: Byte)
    requires x <= 2295
    ensures (x * 8 % 0x1_0000_0000 + b as nat) % 0x1_0000_0000 == 8 * x + b as nat
  {
  }

  method Sum32(sum: Digest) returns (x: nat)
    ensures x == 64 * (sum[0] as nat) + 8 * (sum[1] as nat) + sum[2] as nat == HashOf(sum) && x <= 18615
  {
    x := sum[0];
    for i := 1 to 3
      invariant i == 1 ==> x == sum[0] as nat
      invariant i == 2 ==> x == 8 * (sum[0] as nat) + sum[1] as nat
      invariant i == 3 ==> x == HashOf(sum)
    {
      RoundFits(x, sum[i]);
      x := x * 8 % 0x1_0000_0000;
      x := (x + sum[i] as nat) % 0x1_0000_0000;
    }
  }

  datatype SizeError = SizeTooLarge | SizeTooSmall

  /** The table size: the least power of two that is at least the requested size. */
  method TableSize(size: int) returns (r: Result<nat, SizeError>)
    ensures r == Failure(SizeTooLarge) <==> size > MAX_FILTER_SIZE
    ensures r == Failure(SizeTooSmall) <==> size <= 0
    ensures r.Success? ==> size <= r.value <= MAX_FILTER_SIZE
    ensures r.Success? ==> exists k: nat :: r.value == Pow2(k)
    ensures r.Success? ==> forall k: nat :: size <= Pow2(k) ==> r.value <= Pow2(k)
  {
    if size > MAX_FILTER_SIZE {
      return Failure(SizeTooLarge);
    }
    if size <= 0 {
      return Failure(SizeTooSmall);
    }
    var k := BitsNeeded(size - 1);
    BitsNeededIsLeast(size - 1);
    MaxSizeIsPower();
    PowersGrow(k, 30);
    forall j: nat | size <= Pow2(j) ensures Pow2(k) <= Pow2(j) {
      assert size - 1 < Pow2(j);
      PowersGrow(k, j);
    }
    return Success(Pow2(k));
  }

  lemma {:induction false} MaxSizeIsPower()
    ensures Pow2(30) == MAX_FILTER_SIZE
  {
    assert Pow2(10) == 1024;
    assert Pow2(20) == 1024 * Pow2(10);
    assert Pow2(30) == 1024 * Pow2(20);
  }

  /** The slot of an id, for any digest function in the place of MD5. */
  function Index(md5: Id -> Digest, size: nat, id: Id): nat
    requires size > 0
  {
    And(HashOf(md5(id)), size - 1)
  }

  /** The mask keeps every index inside the table; and as only three digest bytes enter the hash, no
      index exceeds 18615, so the upper slots of a larger table are never used. */
  lemma {:induction false} IndexInRange(md5: Id -> Digest, k: nat, id: Id)
    ensures
      var sum := md5(id);
      Index(md5, Pow2(k), id) == (64 * (sum[0] as nat) + 8 * (sum[1] as nat) + sum[2] as nat) % Pow2(k)
    ensures Index(md5, Pow2(k), id) < Pow2(k)
    ensures Index(md5, Pow2(k), id) <= 18615
  {
    AndMask(HashOf(md5(id)), k);
    AndAtMost(HashOf(md5(id)), Pow2(k) - 1);
  }

  lemma {:induction false} AndAtMost(a: nat, b: nat)
    ensures And(a, b) <= a
    decreases a
  {
    if a != 0 && b != 0 { AndAtMost(a / 2, b / 2); }
  }

  // ---- the filter as a state machine

  /** `index` is the slot function; `mem` holds the id behind each pointer, and a pointer is never
      reused. `added` remembers the ids of all Add calls; no step reads it. */
  datatype Filter = Filter(index: Id -> nat, slots: seq<Option<Pointer>>, mem: map<Pointer, Id>, next: Pointer,
                           threads: map<Tid, Pc>, added: set<Id>)

  datatype Pc =
    | Idle
    | Load(ptr: Pointer)
    | Swap(ptr: Pointer, seen: Option<Pointer>)

  predicate Valid(f: Filter) {
    (forall p :: p in f.mem ==> p < f.next && f.index(f.mem[p]) < |f.slots| && f.mem[p] in f.added) &&
    (forall j :: 0 <= j < |f.slots| && f.slots[j].Some? ==>
      f.slots[j].value in f.mem && f.index(f.mem[f.slots[j].value]) == j) &&
    (forall t :: t in f.threads && f.threads[t] != Idle ==> f.threads[t].ptr in f.mem)
  }

  predicate Busy(f: Filter, t: Tid) {
    t in f.threads && f.threads[t] != Idle
  }

  /** A thread calls Add: the address of its id is a new pointer. */
  function StartAdd(f: Filter, t: Tid, id: Id): Filter {
    f.(mem := f.mem[f.next := id], next := f.next + 1, threads := f.threads[t := Load(f.next)], added := f.added + {id})
  }

  function SlotOf(f: Filter, t: Tid): nat
    requires Valid(f) && Busy(f, t)
  {
    f.index(f.mem[f.threads[t].ptr])
  }

  /** The next compare-and-swap of the thread succeeds. */
  predicate Swaps(f: Filter, t: Tid)
    requires Valid(f) && Busy(f, t)
  {
    f.threads[t].Swap? && f.slots[SlotOf(f, t)] == f.threads[t].seen
  }

  /** One atomic access of Add: the load, or the compare-and-swap, which starts over if it fails. */
  function Access(f: Filter, t: Tid): Filter
    requires Valid(f) && Busy(f, t)
  {
    var ptr, j := f.threads[t].ptr, SlotOf(f, t);
    if f.threads[t].Load? then f.(threads := f.threads[t := Swap(ptr, f.slots[j])])
    else if Swaps(f, t) then f.(slots := f.slots[j := Some(ptr)], threads := f.threads[t := Idle])
    else f.(threads := f.threads[t := Load(ptr)])
  }

  /** What Add returns when its swap succeeds; a nil old id reads as empty bytes. */
  predicate AddResult(f: Filter, t: Tid)
    requires Valid(f) && Busy(f, t) && Swaps(f, t)
  {
    var seen := f.threads[t].seen;
    (if seen.Some? then f.mem[seen.value] else []) != f.mem[f.threads[t].ptr]
  }

  predicate Contains(f: Filter, id: Id)
    requires Valid(f) && f.index(id) < |f.slots|
  {
    var slot := f.slots[f.index(id)];
    slot.Some? && f.mem[slot.value] == id
  }

  /** The ids that the slots show. */
  function View(f: Filter): seq<Option<Id>>
    requires Valid(f)
  {
    seq(|f.slots|, j requires 0 <= j < |f.slots| =>
      if f.slots[j].Some? then Some(f.mem[f.slots[j].value]) else None)
  }

  lemma {:induction false} StartAddKeepsValid(f: Filter, t: Tid, id: Id)
    requires Valid(f) && f.index(id) < |f.slots|
    ensures Valid(StartAdd(f, t, id)) && View(StartAdd(f, t, id)) == View(f)
  {
  }

  /** Every access is either invisible or one atomic exchange of a slot: the compare-and-swap loop
      refines an Add that swaps its id in and compares the old content in a single step. */
  lemma {:induction false} AccessRefinesExchange(f: Filter, t: Tid)
    requires Valid(f) && Busy(f, t)
    ensures Valid(Access(f, t)) && Access(f, t).added == f.added
    ensures
      var view, j, id := View(f), SlotOf(f, t), f.mem[f.threads[t].ptr];
      if Swaps(f, t) then
        && View(Access(f, t)) == view[j := Some(id)]
        && (AddResult(f, t) <==> (if view[j].Some? then view[j].value else []) != id)
      else View(Access(f, t)) == view && Busy(Access(f, t), t)
  {
    var f' := Access(f, t);
    assert Valid(f');
    assert Swaps(f, t) ==> View(f') == View(f)[SlotOf(f, t) := Some(f.mem[f.threads[t].ptr])];
    assert !Swaps(f, t) ==> View(f') == View(f);
  }

  /** An Add that nobody disturbs takes a load and one compare-and-swap, and then Contains finds its id. */
  lemma {:induction false} UndisturbedAdd(f: Filter, t: Tid)
    requires Valid(f) && Busy(f, t) && f.threads[t].Load?
    ensures
      var f1, id := Access(f, t), f.mem[f.threads[t].ptr];
      && Valid(f1) && Busy(f1, t) && Swaps(f1, t)
      && var f2 := Access(f1, t);
      && Valid(f2) && f2.threads == f.threads[t := Idle] && f2.index == f.index && |f2.slots| == |f.slots|
      && f2.index(id) < |f2.slots| && Contains(f2, id)
  {
    var f1 := Access(f, t);
    AccessRefinesExchange(f, t);
    assert f1.mem == f.mem && f1.slots == f.slots && f1.index == f.index;
    AccessRefinesExchange(f1, t);
  }

  datatype Event = Begin(t: Tid, id: Id) | Go(t: Tid)

  predicate Enabled(f: Filter, e: Event) {
    match e
    case Begin(t, id) => t in f.threads && f.threads[t] == Idle && f.index(id) < |f.slots|
    case Go(t) => Busy(f, t)
  }

  function Step(f: Filter, e: Event): (f': Filter)
    requires Valid(f) && Enabled(f, e)
    ensures Valid(f')
  {
    match e
    case Begin(t, id) =>
      StartAddKeepsValid(f, t, id);
      StartAdd(f, t, id)
    case Go(t) =>
      AccessRefinesExchange(f, t);
      Access(f, t)
  }

  predicate Run(f: Filter, es: seq<Event>)
    requires Valid(f)
    decreases |es|
  {
    es == [] || (Enabled(f, es[0]) && Run(Step(f, es[0]), es[1..]))
  }

  function Final(f: Filter, es: seq<Event>): (f': Filter)
    requires Valid(f) && Run(f, es)
    ensures Valid(f')
    decreases |es|
  {
    if es == [] then f else Final(Step(f, es[0]), es[1..])
  }

  predicate Empty(f: Filter) {
    f.mem == map[] && f.added == {} && (forall j :: 0 <= j < |f.slots| ==> f.slots[j] == None) &&
    forall t :: t in f.threads ==> f.threads[t] == Idle
  }

  /** The filter that the constructor makes: an empty table of the least sufficient power of two, whose
      slots are chosen by masked digests and are all in range. `threads` are its future users. */
  method NewOppoBloomFilter(size: int, md5: Id -> Digest, threads: set<Tid>) returns (r: Result<Filter, SizeError>)
    ensures r == Failure(SizeTooLarge) <==> size > MAX_FILTER_SIZE
    ensures r == Failure(SizeTooSmall) <==> size <= 0
    ensures r.Success? ==>
      var f := r.value;
      && Empty(f) && f.threads.Keys == threads && size <= |f.slots| <= MAX_FILTER_SIZE
      && (forall id :: f.index(id) == Index(md5, |f.slots|, id) && f.index(id) < |f.slots|)
  {
    var sized := TableSize(size);
    if sized.Failure? {
      return Failure(sized.error);
    }
    var n := sized.value;
    ghost var k: nat :| n == Pow2(k);
    forall id ensures Index(md5, n, id) < n {
      IndexInRange(md5, k, id);
    }
    var f := Filter(id => Index(md5, n, id), seq(n, _ => None), map[], 0, map t | t in threads :: Idle, {});
    return Success(f);
  }

  /** A whole Add that nobody disturbs: any idle thread can begin one, and two accesses later the filter shows
      the id and the thread is idle again. */
  lemma {:induction false} AddAlone(f: Filter, t: Tid, id: Id)
    requires Valid(f) && t in f.threads && f.threads[t] == Idle && f.index(id) < |f.slots|
    ensures Enabled(f, Begin(t, id))
    ensures
      var f1 := Step(f, Begin(t, id));
      Enabled(f1, Go(t)) &&
      var f2 := Step(f1, Go(t));
      Enabled(f2, Go(t)) &&
      var f3 := Step(f2, Go(t));
      f3.threads == f.threads && f3.index(id) < |f3.slots| && Contains(f3, id)
  {
    var f1 := Step(f, Begin(t, id));
    UndisturbedAdd(f1, t);
    assert f1.threads[t := Idle] == f.threads;
  }

  lemma {:induction false} AddedHasBegun(f: Filter, es: seq<Event>, id: Id)
    requires Valid(f) && Run(f, es) && id in Final(f, es).added && id !in f.added
    ensures exists i :: 0 <= i < |es| && es[i].Begin? && es[i].id == id
    decreases |es|
  {
    if es != [] {
      var f' := Step(f, es[0]);
      if es[0].Go? { AccessRefinesExchange(f, es[0].t); }
      if id in f'.added {
        assert es[0].Begin? && es[0].id == id;
      } else {
        AddedHasBegun(f', es[1..], id);
        var i :| 0 <= i < |es[1..]| && es[1..][i].Begin? && es[1..][i].id == id;
        assert es[i + 1].Begin? && es[i + 1].id == id;
      }
    }
  }

  lemma {:induction false} SameIndex(f: Filter, es: seq<Event>)
    requires Valid(f) && Run(f, es)
    ensures Final(f, es).index == f.index && |Final(f, es).slots| == |f.slots|
    decreases |es|
  {
    if es != [] { SameIndex(Step(f, es[0]), es[1..]); }
  }

  /** No false positives: after any interleaving of any number of Add calls on a new filter, each
      non-empty slot shows an id that some call added and that hashes to that slot, and Contains
      answers yes for an id exactly when the slot of the id shows it. */
  lemma {:induction false} NoFalsePositives(f: Filter, es: seq<Event>, id: Id)
    requires Empty(f) && Run(f, es) && f.index(id) < |f.slots|
    ensures
      var g := Final(f, es);
      && |View(g)| == |f.slots|
      && (forall j :: 0 <= j < |View(g)| && View(g)[j].Some? ==>
           f.index(View(g)[j].value) == j &&
           exists i :: 0 <= i < |es| && es[i].Begin? && es[i].id == View(g)[j].value)
      && (g.index(id) < |g.slots| && (Contains(g, id) <==> View(g)[f.index(id)] == Some(id)))
  {
    var g := Final(f, es);
    SameIndex(f, es);
    forall j | 0 <= j < |View(g)| && View(g)[j].Some?
      ensures exists i :: 0 <= i < |es| && es[i].Begin? && es[i].id == View(g)[j].value
    {
      AddedHasBegun(f, es, View(g)[j].value);
    }
  }

  /** An Add says "seen before" exactly when its slot showed its id, or was empty and the id is too:
      the empty id is reported as seen by the very first Add. */
  lemma {:induction false} AddReportsSeenIff(f: Filter, t: Tid)
    requires Valid(f) && Busy(f, t) && Swaps(f, t)
    ensures
      var id := f.mem[f.threads[t].ptr];
      !AddResult(f, t) <==> View(f)[SlotOf(f, t)] == Some(id) || (View(f)[SlotOf(f, t)] == None && id == [])
  {
  }
}

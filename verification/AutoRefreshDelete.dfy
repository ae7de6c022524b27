/** Update and Delete share a lock, so a result that a worker was already computing cannot bring a
    deleted item back. */
module AutoRefreshDelete {
  import opened Options
  import opened AutoRefreshMachine

  /** Operations that neither need nor take the lock. */
  predicate Plain(op: Op) {
    !op.Lock? && !op.Unlock? && !op.Contains? && !op.Put? && !op.Unflag? && !op.Remove?
  }

  predicate HeldAfter(op: Op, held: bool) {
    if op.Lock? then true else if op.Unlock? then false else held
  }

  /** The locked operations stand between Lock and Unlock; `held` says whether the lock is held
      before the first operation. */
  ghost predicate Disciplined(ops: seq<Op>, held: bool)
    decreases |ops|
  {
    if ops == [] then !held
    else held == !(Plain(ops[0]) || ops[0].Lock?) && Disciplined(ops[1..], HeldAfter(ops[0], held))
  }

  ghost predicate PutFree(ops: seq<Op>) {
    forall op :: op in ops ==> !op.Put?
  }

  ghost predicate LockInv(s: State) {
    forall t :: t in s.threads ==>
      Disciplined(s.threads[t].ops, s.sh.holder == Some(t)) &&
      (s.threads[t].ops != [] ==> PutFree(s.threads[t].ops[1..]))
  }

  ghost predicate Block(ops: seq<Op>) {
    Disciplined(ops, false) && PutFree(ops)
  }

  lemma {:induction false} Append(a: seq<Op>, b: seq<Op>, held: bool)
    requires Disciplined(a, held) && Disciplined(b, false)
    ensures Disciplined(a + b, held)
    decreases |a|
  {
    if a == [] {
      assert a + b == b;
    } else {
      assert (a + b)[0] == a[0] && (a + b)[1..] == a[1..] + b;
      Append(a[1..], b, HeldAfter(a[0], held));
    }
  }

  lemma {:induction false} BlockAppend(a: seq<Op>, b: seq<Op>)
    requires Block(a) && Block(b)
    ensures Block(a + b)
  {
    Append(a, b, false);
  }

  lemma {:induction false} PlainBlock(ops: seq<Op>)
    requires forall op :: op in ops ==> Plain(op)
    ensures Block(ops)
    decreases |ops|
  {
    if ops != [] {
      assert Plain(ops[0]);
      PlainBlock(ops[1..]);
    }
  }

  lemma {:induction false} EnqueueBlock(c: Config, batches: seq<Batch>)
    ensures Block(EnqueueAllOps(c, batches))
    decreases |batches|
  {
    if batches != [] {
      PlainBlock(EnqueueOps(c, batches[0]));
      EnqueueBlock(c, batches[1..]);
      BlockAppend(EnqueueOps(c, batches[0]), EnqueueAllOps(c, batches[1..]));
    }
  }

  lemma {:induction false} ScreenBlock(batch: Batch)
    ensures Block(ScreenOps(batch))
    decreases |batch|
  {
    if batch != [] {
      PlainBlock([Unmark(batch[0]), Screen(batch[0])]);
      ScreenBlock(batch[1..]);
      BlockAppend([Unmark(batch[0]), Screen(batch[0])], ScreenOps(batch[1..]));
    }
  }

  lemma {:induction false} UpdateBlock(id: Id, item: Item)
    ensures Block(UpdateOps(id, item))
  {
    var ops := UpdateOps(id, item);
    assert ops[1..] == [Contains(id, item), Unlock] && ops[1..][1..] == [Unlock];
    assert Disciplined(ops[1..], true);
  }

  lemma {:induction false} DeleteBlock(id: Id)
    ensures Block(DeleteOps(id))
  {
    var ops := DeleteOps(id);
    assert ops[1..] == [Unflag(id), Remove(id), Unlock];
    assert ops[1..][1..] == [Remove(id), Unlock] && ops[1..][1..][1..] == [Unlock];
    assert Disciplined(ops[1..][1..], true);
    assert Disciplined(ops[1..], true);
  }

  lemma {:induction false} AnswerBlock(answers: seq<Answer>)
    ensures Block(AnswerOps(answers))
    decreases |answers|
  {
    if answers != [] {
      UpdateBlock(answers[0].id, answers[0].item);
      AnswerBlock(answers[1..]);
      BlockAppend(UpdateOps(answers[0].id, answers[0].item), AnswerOps(answers[1..]));
    }
  }

  /** Whatever an operation pushes either is a self-contained block or is the Put of an Update. */
  lemma {:induction false} PushedBlock(c: Config, sh: Shared, picked: seq<Id>, op: Op, choice: Choice)
    ensures !op.Contains? ==> Block(Pushed(c, sh, picked, op, choice))
  {
    match op
    case Lookup(id, item) => PlainBlock(Pushed(c, sh, picked, op, choice));
    case ListKeys => PlainBlock(Pushed(c, sh, picked, op, choice));
    case Consider(id) =>
      if id in sh.toDelete { DeleteBlock(id); } else { PlainBlock([Peek(id)]); }
    case Peek(id) => PlainBlock(Pushed(c, sh, picked, op, choice));
    case CheckMark(id) => PlainBlock(Pushed(c, sh, picked, op, choice));
    case MakeBatches => EnqueueBlock(c, choice.batches);
    case Fetch =>
      var batch := if choice.ref in sh.queue then sh.queue[choice.ref] else [];
      ScreenBlock(batch);
      PlainBlock([Call]);
      BlockAppend(ScreenOps(batch), [Call]);
    case Call =>
      if picked != [] && choice.answers.Some? {
        AnswerBlock(choice.answers.value);
        PlainBlock([Sweep]);
        BlockAppend(AnswerOps(choice.answers.value), [Sweep]);
      }
    case Sweep =>
      if choice.next.Some? {
        DeleteBlock(choice.next.value);
        PlainBlock([Sweep]);
        BlockAppend(DeleteOps(choice.next.value), [Sweep]);
      }
    case _ =>
  }

  lemma {:induction false} ProgramBlock(api: Api)
    ensures Block(Program(api))
  {
    match api
    case GetOrCreate(_, _) => PlainBlock(Program(api));
    case Update(id, item) => UpdateBlock(id, item);
    case Delete(id) => DeleteBlock(id);
    case DeleteDelayed(_) => PlainBlock(Program(api));
    case EnqueueBatches => PlainBlock(Program(api));
    case SyncOnce => PlainBlock(Program(api));
  }

  /** The thread that runs an operation keeps the discipline. */
  lemma {:induction false} ActKeepsThread(c: Config, sh: Shared, picked: seq<Id>, ops: seq<Op>, choice: Choice,
        held: bool)
    requires ops != [] && Disciplined(ops, held) && PutFree(ops[1..])
    ensures
      var held' := HeldAfter(ops[0], held);
      var ops' := Pushed(c, sh, picked, ops[0], choice) + ops[1..];
      Disciplined(ops', held') && (ops' != [] ==> PutFree(ops'[1..]))
  {
    var pushed := Pushed(c, sh, picked, ops[0], choice);
    var ops' := pushed + ops[1..];
    PushedBlock(c, sh, picked, ops[0], choice);
    if pushed == [] {
      assert ops' == ops[1..];
    } else if ops[0].Contains? {
      assert ops'[1..] == ops[1..];
    } else {
      Append(pushed, ops[1..], false);
      assert ops'[1..] == pushed[1..] + ops[1..];
    }
  }

  lemma {:induction false} ActKeepsLockInv(c: Config, s: State, t: Tid, choice: Choice)
    requires LockInv(s) && Enabled(c, s, Act(t, choice))
    ensures LockInv(Step(c, s, Act(t, choice)))
  {
    var Thread(ops, picked) := s.threads[t];
    var s' := Step(c, s, Act(t, choice));
    var held := s.sh.holder == Some(t);
    ActKeepsThread(c, s.sh, picked, ops, choice, held);
    assert (s'.sh.holder == Some(t)) == HeldAfter(ops[0], held);
    forall u | u in s'.threads && u != t
      ensures s'.threads[u] == s.threads[u] && (s'.sh.holder == Some(u)) == (s.sh.holder == Some(u))
    {
    }
  }

  lemma {:induction false} StepKeepsLockInv(c: Config, s: State, e: Event)
    requires LockInv(s) && Enabled(c, s, e)
    ensures LockInv(Step(c, s, e))
  {
    match e
    case Start(t, api) => ProgramBlock(api);
    case Tick(_) =>
    case Act(t, choice) => ActKeepsLockInv(c, s, t, choice);
  }

  lemma {:induction false} RunKeepsLockInv(c: Config, s: State, es: seq<Event>)
    requires LockInv(s) && Run(c, s, es)
    ensures LockInv(Final(c, s, es))
    decreases |es|
  {
    if es != [] {
      StepKeepsLockInv(c, s, es[0]);
      RunKeepsLockInv(c, Step(c, s, es[0]), es[1..]);
    }
  }

  /** The event inserts `k` on behalf of GetOrCreate. */
  ghost predicate Creates(c: Config, s: State, e: Event, k: Id) {
    var op := Executes(s, e);
    op.Some? && ((op.value.AddNew? && op.value.id == k) || (op.value.Lookup? && op.value.id == k && c.atomicCreate))
  }

  ghost function NotCreating(c: Config, k: Id): (State, Event) -> bool {
    (s: State, e: Event) => !Creates(c, s, e, k)
  }

  ghost predicate NeverCreates(c: Config, s: State, es: seq<Event>, k: Id)
    requires Run(c, s, es)
  {
    Obeys(c, s, es, NotCreating(c, k))
  }

  /** An Update of `k` has passed its Contains check and is about to insert. */
  ghost predicate PutPending(s: State, k: Id) {
    exists t :: t in s.threads && s.threads[t].ops != [] && s.threads[t].ops[0].Put? && s.threads[t].ops[0].id == k
  }

  ghost predicate Gone(s: State, k: Id) {
    k !in s.sh.lru && !PutPending(s, k)
  }

  lemma {:induction false} GoneStays(c: Config, s: State, es: seq<Event>, k: Id)
    requires LockInv(s) && Run(c, s, es) && Gone(s, k) && NeverCreates(c, s, es, k)
    ensures Gone(Final(c, s, es), k)
    decreases |es|
  {
    if es != [] {
      StepKeepsLockInv(c, s, es[0]);
      GoneStays(c, Step(c, s, es[0]), es[1..], k);
    }
  }

  /** No resurrection: once a Delete has removed `k`, no interleaving of any number of workers,
      clients, sweeps and evictions brings it back before GetOrCreate inserts it again. */
  lemma {:induction false} DeletedStaysDeleted(c: Config, s0: State, before: seq<Event>, e: Event, after: seq<Event>,
        k: Id)
    requires Init(s0) && Run(c, s0, before)
    requires var s := Final(c, s0, before);
      Enabled(c, s, e) && Executes(s, e) == Some(Remove(k)) &&
      Run(c, Step(c, s, e), after) && NeverCreates(c, Step(c, s, e), after, k)
    ensures k !in Final(c, Step(c, Final(c, s0, before), e), after).sh.lru
  {
    RunKeepsLockInv(c, s0, before);
    var s := Final(c, s0, before);
    // The deleting thread holds the lock, and a pending Put would hold it too.
    var s' := Step(c, s, e);
    assert s.sh.holder == Some(e.t);
    assert s'.threads[e.t].ops == s.threads[e.t].ops[1..];
    if s'.threads[e.t].ops != [] { assert s'.threads[e.t].ops[0] in s.threads[e.t].ops[1..]; }
    StepKeepsLockInv(c, s, e);
    GoneStays(c, s', after, k);
  }

  ghost predicate ComesBack(c: Config, s: State, es: seq<Event>, k: Id) {
    Run(c, s, es) && NeverCreates(c, s, es, k) && k in Final(c, s, es).sh.lru
  }

  lemma {:induction false} PutComesBack(c: Config, s: State, t: Tid, k: Id) returns (e: Event)
    requires c.capacity > 0 && k !in s.sh.lru
    requires t in s.threads && s.threads[t].ops != [] && s.threads[t].ops[0].Put? && s.threads[t].ops[0].id == k
    ensures Enabled(c, s, e) && k in Step(c, s, e).sh.lru && NeverCreates(c, s, [e], k)
  {
    var victim := None;
    if |s.sh.lru.Keys + {k}| > c.capacity {
      var v :| v in s.sh.lru;
      victim := Some(v);
    }
    e := Act(t, NO_CHOICE.(victim := victim));
    OneObeys(c, s, e, NotCreating(c, k));
  }

  /** Exactly when an absent item can come back without GetOrCreate: when an Update of it is
      between its Contains check and its insertion. An eviction does leave the cache in such states
      because it does not take the lock (EvictedComesBack in AutoRefreshPromises); a Delete cannot. */
  lemma {:induction false} ResurrectionIffPutPending(c: Config, s: State, k: Id)
    requires c.capacity > 0 && LockInv(s) && k !in s.sh.lru
    ensures PutPending(s, k) <==>
      exists es: seq<Event> :: ComesBack(c, s, es, k)
  {
    if PutPending(s, k) {
      var t :| t in s.threads && s.threads[t].ops != [] && s.threads[t].ops[0].Put? && s.threads[t].ops[0].id == k;
      var e := PutComesBack(c, s, t, k);
      OneEvent(c, s, e);
      assert ComesBack(c, s, [e], k);
    } else {
      forall es: seq<Event> ensures !ComesBack(c, s, es, k) {
        if Run(c, s, es) && NeverCreates(c, s, es, k) { GoneStays(c, s, es, k); }
      }
    }
  }
}

/** The cache object as its methods change it when nothing else runs. Each method is shown to be a run
    of one thread of the state machine, so the machine's theorems speak about this code as it is called. */
module AutoRefreshCache {
  import opened Options
  import opened AutoRefreshMachine

  /** What one thread sees: the shared structures and its own position. */
  datatype Local = Local(sh: Shared, th: Thread)

  const ME: Tid := 0

  ghost function Alone(l: Local): State {
    State(l.sh, map[ME := l.th])
  }

  /** The events are a run of this thread alone. */
  ghost predicate LeadsTo(c: Config, from: Local, es: seq<Event>, to: Local) {
    (forall e :: e in es ==> e.Act? && e.t == ME) && Run(c, Alone(from), es) && Final(c, Alone(from), es) == Alone(to)
  }

  ghost predicate Reaches(c: Config, from: Local, to: Local) {
    exists es :: LeadsTo(c, from, es, to)
  }

  lemma {:induction false} Nothing(c: Config, l: Local)
    ensures Reaches(c, l, l)
  {
    assert LeadsTo(c, l, [], l);
  }

  /** The thread executes `op`. */
  lemma {:induction false} Does(c: Config, from: Local, l: Local, op: Op, rest: seq<Op>, choice: Choice)
    returns (next: Local)
    requires Reaches(c, from, l) && l.th.ops == [op] + rest && CanDo(c, l.sh, ME, op, choice)
    ensures Reaches(c, from, next)
    ensures next == Local(Effect(c, l.sh, ME, op, choice),
                          Thread(Pushed(c, l.sh, l.th.picked, op, choice) + rest, Picks(l.sh, l.th.picked, op)))
  {
    hide Effect, Pushed, Picks, CanDo;
    var es, e :| LeadsTo(c, from, es, l) && e == Act(ME, choice);
    next := Local(Effect(c, l.sh, ME, op, choice),
                  Thread(Pushed(c, l.sh, l.th.picked, op, choice) + rest, Picks(l.sh, l.th.picked, op)));
    HeadStep(c, Alone(l), ME, op, rest, choice);
    RunSnoc(c, Alone(from), es, e);
    assert Step(c, Alone(l), e) == Alone(next);
    assert LeadsTo(c, from, es + [e], next);
  }

  /** A lone run is a run of the machine, whatever the other threads are. */
  lemma {:induction false} AmongOthers(c: Config, s: State, from: Local, es: seq<Event>, to: Local)
    requires ME in s.threads && from == Local(s.sh, s.threads[ME]) && LeadsTo(c, from, es, to)
    ensures Run(c, s, es) && Final(c, s, es) == State(to.sh, s.threads[ME := to.th])
    decreases |es|
  {
    if es == [] {
      assert Alone(from).threads[ME] == from.th && Alone(to).threads[ME] == to.th;
      assert s.threads[ME := to.th] == s.threads;
    } else {
      var s1, alone := Step(c, s, es[0]), Step(c, Alone(from), es[0]);
      var next := Local(alone.sh, alone.threads[ME]);
      assert es[0] in es && alone == Alone(next);
      assert s1 == State(next.sh, s.threads[ME := next.th]);
      assert LeadsTo(c, next, es[1..], to);
      AmongOthers(c, s1, next, es[1..], to);
      assert s1.threads[ME := to.th] == s.threads[ME := to.th];
    }
  }

  /** Started at an idle thread, the call `api` takes the shared structures from `sh` to `sh'`. */
  ghost predicate Performs(c: Config, sh: Shared, api: Api, sh': Shared) {
    exists picked :: Reaches(c, Local(sh, Thread(Program(api), [])), Local(sh', Thread([], picked)))
  }

  lemma {:induction false} ExecutionIsRun(c: Config, s: State, api: Api, sh': Shared) returns (es: seq<Event>)
    requires ME in s.threads && s.threads[ME].ops == [] && Performs(c, s.sh, api, sh')
    ensures Run(c, s, es) && Final(c, s, es).sh == sh'
  {
    var start := Local(s.sh, Thread(Program(api), []));
    var picked :| Reaches(c, start, Local(sh', Thread([], picked)));
    var rest :| LeadsTo(c, start, rest, Local(sh', Thread([], picked)));
    AmongOthers(c, Step(c, s, Start(ME, api)), start, rest, Local(sh', Thread([], picked)));
    es := [Start(ME, api)] + rest;
    assert es[1..] == rest;
  }

  /** The thread executes an operation that pushes nothing and picks nothing. */
  lemma {:induction false} Passes(c: Config, from: Local, l: Local, op: Op, rest: seq<Op>, choice: Choice)
    returns (next: Local)
    requires Reaches(c, from, l) && l.th.ops == [op] + rest && CanDo(c, l.sh, ME, op, choice)
    requires Pushed(c, l.sh, l.th.picked, op, choice) == [] && Picks(l.sh, l.th.picked, op) == l.th.picked
    ensures Reaches(c, from, next) && next == Local(Effect(c, l.sh, ME, op, choice), Thread(rest, l.th.picked))
  {
    hide Reaches;
    next := Does(c, from, l, op, rest, choice);
    assert [] + rest == rest;
  }

  lemma {:induction false} Checks(c: Config, from: Local, l: Local, id: Id, item: Item, rest: seq<Op>)
    returns (next: Local)
    requires Reaches(c, from, l) && l.th.ops == [Contains(id, item)] + rest && |l.sh.lru| <= c.capacity
    ensures Reaches(c, from, next)
    ensures next == Local(l.sh.(lru := if id in l.sh.lru then l.sh.lru[id := item] else l.sh.lru),
                          Thread(rest, l.th.picked))
  {
    hide Reaches;
    if id in l.sh.lru {
      next := Does(c, from, l, Contains(id, item), rest, NO_CHOICE);
      assert l.sh.lru.Keys + {id} == l.sh.lru.Keys;
      next := Passes(c, from, next, Put(id, item), rest, NO_CHOICE);
    } else {
      next := Passes(c, from, l, Contains(id, item), rest, NO_CHOICE);
    }
  }

  lemma {:induction false} DoesUpdate(c: Config, from: Local, l: Local, id: Id, item: Item, rest: seq<Op>)
    returns (next: Local)
    requires Reaches(c, from, l) && l.th.ops == UpdateOps(id, item) + rest && l.sh.holder == None
    requires |l.sh.lru| <= c.capacity
    ensures Reaches(c, from, next)
    ensures next == Local(l.sh.(lru := if id in l.sh.lru then l.sh.lru[id := item] else l.sh.lru),
                          Thread(rest, l.th.picked))
  {
    hide Reaches;
    var rest2 := [Unlock] + rest;
    var rest1 := [Contains(id, item)] + rest2;
    assert l.th.ops == [Lock] + rest1;
    next := Passes(c, from, l, Lock, rest1, NO_CHOICE);
    next := Checks(c, from, next, id, item, rest2);
    next := Passes(c, from, next, Unlock, rest, NO_CHOICE);
  }

  lemma {:induction false} Removes(c: Config, from: Local, l: Local, id: Id, rest: seq<Op>) returns (next: Local)
    requires Reaches(c, from, l) && l.th.ops == [Unflag(id)] + ([Remove(id)] + rest)
    ensures Reaches(c, from, next)
    ensures next == Local(l.sh.(lru := l.sh.lru - {id}, toDelete := l.sh.toDelete - {id}), Thread(rest, l.th.picked))
  {
    hide Reaches;
    next := Passes(c, from, l, Unflag(id), [Remove(id)] + rest, NO_CHOICE);
    next := Passes(c, from, next, Remove(id), rest, NO_CHOICE);
  }

  lemma {:induction false} DoesDelete(c: Config, from: Local, l: Local, id: Id, rest: seq<Op>) returns (next: Local)
    requires Reaches(c, from, l) && l.th.ops == DeleteOps(id) + rest && l.sh.holder == None
    ensures Reaches(c, from, next)
    ensures next == Local(l.sh.(lru := l.sh.lru - {id}, toDelete := l.sh.toDelete - {id}), Thread(rest, l.th.picked))
  {
    hide Reaches;
    var rest1 := [Unflag(id)] + ([Remove(id)] + ([Unlock] + rest));
    assert l.th.ops == [Lock] + rest1;
    next := Passes(c, from, l, Lock, rest1, NO_CHOICE);
    next := Removes(c, from, next, id, [Unlock] + rest);
    next := Passes(c, from, next, Unlock, rest, NO_CHOICE);
  }

  lemma {:induction false} Finished(c: Config, sh: Shared, api: Api, l: Local)
    requires Reaches(c, Local(sh, Thread(Program(api), [])), l) && l.th.ops == []
    ensures Performs(c, sh, api, l.sh)
  {
    assert l == Local(l.sh, Thread([], l.th.picked));
  }

  /** An id that the enqueue loop has to queue: not flagged for deletion, not terminal, and either
      unmarked or marked more than five periods ago. */
  predicate Due(c: Config, sh: Shared, id: Id) {
    id !in sh.toDelete && Live(sh, id) && (id in sh.marks ==> Expired(c, sh, id))
  }

  /** What is due, in the terms of the structures: an item that is cached, not terminal and not flagged, and
      that either has no mark or has one that is more than five periods old. */
  lemma {:induction false} DueIs(c: Config, sh: Shared, id: Id)
    ensures Due(c, sh, id) <==>
      id in sh.lru && !sh.lru[id].terminal && id !in sh.toDelete &&
      (id in sh.marks ==> sh.clock > sh.marks[id] + 5 * c.period)
  {
  }

  lemma {:induction false} Peeks(c: Config, from: Local, l: Local, id: Id, rest: seq<Op>) returns (next: Local)
    requires Reaches(c, from, l) && l.th.ops == [Peek(id)] + rest && id !in l.sh.toDelete
    ensures Reaches(c, from, next)
    ensures next ==
      if Due(c, l.sh, id) then Local(l.sh.(marks := l.sh.marks - {id}), Thread(rest, l.th.picked + [id]))
      else Local(l.sh, Thread(rest, l.th.picked))
  {
    hide Reaches;
    next := Does(c, from, l, Peek(id), rest, NO_CHOICE);
    if !Live(l.sh, id) {
      assert next.th.ops == rest;
    } else {
      next := Does(c, from, next, CheckMark(id), rest, NO_CHOICE);
      if Expired(c, l.sh, id) {
        next := Does(c, from, next, Expire(id), rest, NO_CHOICE);
      }
      assert next.th.ops == rest;
      assert id !in l.sh.marks ==> l.sh.marks - {id} == l.sh.marks;
    }
  }

  /** The shared structures after the enqueue loop has looked at one key. */
  function AfterKey(c: Config, sh: Shared, id: Id): Shared {
    if id in sh.toDelete then sh.(lru := sh.lru - {id}, toDelete := sh.toDelete - {id})
    else if Due(c, sh, id) then sh.(marks := sh.marks - {id})
    else sh
  }

  /** One key of the enqueue loop. */
  lemma {:induction false} Considers(c: Config, from: Local, l: Local, id: Id, rest: seq<Op>) returns (next: Local)
    requires Reaches(c, from, l) && l.th.ops == [Consider(id)] + rest && l.sh.holder == None
    ensures Reaches(c, from, next)
    ensures next == Local(AfterKey(c, l.sh, id),
                          Thread(rest, if Due(c, l.sh, id) then l.th.picked + [id] else l.th.picked))
  {
    hide Reaches;
    next := Does(c, from, l, Consider(id), rest, NO_CHOICE);
    if id in l.sh.toDelete {
      next := DoesDelete(c, from, next, id, rest);
    } else {
      next := Peeks(c, from, next, id, rest);
    }
  }

  lemma {:induction false} Lists(c: Config, sh: Shared, keys: seq<Id>) returns (l: Local)
    requires NoDup(keys) && forall k :: k in keys <==> k in sh.lru
    ensures Reaches(c, Local(sh, Thread(Program(Api.EnqueueBatches), [])), l)
    ensures l == Local(sh, Thread(ConsiderOps(keys) + [MakeBatches], []))
  {
    hide Reaches;
    var start := Local(sh, Thread(Program(Api.EnqueueBatches), []));
    Nothing(c, start);
    assert start.th.ops == [ListKeys] + [];
    l := Does(c, start, start, ListKeys, [], NO_CHOICE.(keys := keys));
    assert l.th.ops == ConsiderOps(keys) + [MakeBatches];
  }

  /** The shared structures after the enqueue loop has looked at some keys. */
  function Considered(c: Config, sh: Shared, seen: set<Id>): Shared {
    sh.(lru := map k | k in sh.lru && !(k in seen && k in sh.toDelete) :: sh.lru[k],
        toDelete := sh.toDelete - seen,
        marks := map k | k in sh.marks && !(k in seen && Due(c, sh, k)) :: sh.marks[k])
  }

  /** The shared structures and the collected ids after a whole list of keys. */
  function AfterKeys(c: Config, sh: Shared, keys: seq<Id>): Shared
    decreases |keys|
  {
    if keys == [] then sh else AfterKeys(c, AfterKey(c, sh, keys[0]), keys[1..])
  }

  function DueKeys(c: Config, sh: Shared, keys: seq<Id>): seq<Id>
    decreases |keys|
  {
    if keys == [] then []
    else (if Due(c, sh, keys[0]) then [keys[0]] else []) + DueKeys(c, AfterKey(c, sh, keys[0]), keys[1..])
  }

  lemma {:induction false} DueKeysSplit(c: Config, sh: Shared, keys: seq<Id>, picked: seq<Id>)
    requires keys != []
    ensures
      picked + DueKeys(c, sh, keys) ==
      (if Due(c, sh, keys[0]) then picked + [keys[0]] else picked) + DueKeys(c, AfterKey(c, sh, keys[0]), keys[1..])
  {
  }

  lemma {:induction false} Scans(c: Config, from: Local, l: Local, keys: seq<Id>) returns (next: Local)
    requires Reaches(c, from, l) && l.th.ops == ConsiderOps(keys) + [MakeBatches] && l.sh.holder == None
    ensures Reaches(c, from, next)
    ensures next == Local(AfterKeys(c, l.sh, keys), Thread([MakeBatches], l.th.picked + DueKeys(c, l.sh, keys)))
    decreases |keys|
  {
    hide Reaches;
    if keys == [] {
      assert l.th.ops == [MakeBatches] && l.th.picked + [] == l.th.picked;
      next := l;
    } else {
      DueKeysSplit(c, l.sh, keys, l.th.picked);
      next := Considers(c, from, l, keys[0], ConsiderOps(keys[1..]) + [MakeBatches]);
      next := Scans(c, from, next, keys[1..]);
    }
  }

  lemma {:induction false} DueKeysAre(c: Config, sh: Shared, keys: seq<Id>)
    requires NoDup(keys)
    ensures NoDup(DueKeys(c, sh, keys))
    ensures forall k :: k in DueKeys(c, sh, keys) <==> k in keys && Due(c, sh, k)
    decreases |keys|
  {
    if keys != [] {
      var first, rest := keys[0], keys[1..];
      DueKeysAre(c, AfterKey(c, sh, first), rest);
      forall k | k in rest ensures k != first && (Due(c, AfterKey(c, sh, first), k) <==> Due(c, sh, k)) {}
      assert forall k :: k in keys <==> k == first || k in rest;
    }
  }

  lemma {:induction false} AfterKeysIs(c: Config, sh: Shared, keys: seq<Id>)
    requires NoDup(keys) && forall k :: k in keys ==> k in sh.lru
    ensures AfterKeys(c, sh, keys) == Considered(c, sh, set k | k in keys)
    decreases |keys|
  {
    if keys == [] {
      assert Considered(c, sh, {}) == sh;
    } else {
      var first, rest := keys[0], keys[1..];
      assert first in keys && forall k :: k in rest ==> k in keys && k != first;
      forall k | k in rest ensures k in AfterKey(c, sh, first).lru {}
      AfterKeysIs(c, AfterKey(c, sh, first), rest);
      ConsideredFirst(c, sh, first, set k | k in rest);
      assert (set k | k in keys) == {first} + set k | k in rest;
    }
  }

  lemma {:induction false} ConsideredFirst(c: Config, sh: Shared, first: Id, rest: set<Id>)
    requires first !in rest && first in sh.lru
    ensures Considered(c, AfterKey(c, sh, first), rest) == Considered(c, sh, {first} + rest)
  {
    forall k | k != first ensures Due(c, AfterKey(c, sh, first), k) <==> Due(c, sh, k) {}
    var a, b := Considered(c, AfterKey(c, sh, first), rest), Considered(c, sh, {first} + rest);
    assert a.lru == b.lru;
    assert a.toDelete == b.toDelete;
    assert a.marks == b.marks;
  }

  /** A round over all keys: the flagged items go, and so do the marks of the due ones. */
  lemma {:induction false} ConsideredAll(c: Config, sh: Shared, snapshot: seq<Id>)
    requires forall k :: k in snapshot <==> k in sh.lru && Due(c, sh, k)
    ensures forall k :: k in snapshot <==>
      k in sh.lru && !sh.lru[k].terminal && k !in sh.toDelete &&
      (k in sh.marks ==> sh.clock - sh.marks[k] > 5 * c.period)
    ensures
      Considered(c, sh, sh.lru.Keys) ==
      sh.(lru := sh.lru - sh.toDelete, toDelete := sh.toDelete - sh.lru.Keys, marks := sh.marks - set k | k in snapshot)
  {
    var after := Considered(c, sh, sh.lru.Keys);
    assert after.lru == sh.lru - sh.toDelete;
    assert after.marks == sh.marks - set k | k in snapshot;
    forall k {
      DueIs(c, sh, k);
    }
  }

  // ---- queueing

  function MarkAll(sh: Shared, ids: seq<Id>): Shared
    decreases |ids|
  {
    if ids == [] then sh else MarkAll(sh.(marks := sh.marks[ids[0] := sh.clock]), ids[1..])
  }

  function AfterBatch(sh: Shared, batch: Batch): Shared {
    MarkAll(sh.(queue := sh.queue[sh.nextBatch := batch], nextBatch := sh.nextBatch + 1), batch)
  }

  function AfterBatches(sh: Shared, batches: seq<Batch>): Shared
    decreases |batches|
  {
    if batches == [] then sh else AfterBatches(AfterBatch(sh, batches[0]), batches[1..])
  }

  lemma {:induction false} MarkAllIs(sh: Shared, ids: seq<Id>)
    ensures MarkAll(sh, ids) == sh.(marks := MarkAll(sh, ids).marks)
    ensures forall k :: k in MarkAll(sh, ids).marks <==> k in sh.marks || k in ids
    ensures forall k :: k in MarkAll(sh, ids).marks ==>
      MarkAll(sh, ids).marks[k] == if k in ids then sh.clock else sh.marks[k]
    decreases |ids|
  {
    if ids != [] { MarkAllIs(sh.(marks := sh.marks[ids[0] := sh.clock]), ids[1..]); }
  }

  ghost predicate InSome(batches: seq<Batch>, k: Id) {
    exists i :: 0 <= i < |batches| && k in batches[i]
  }

  /** The batches were added under new addresses and the waiting ones kept; exactly the ids of the batches
      were marked, with the current time, all other marks are as before, and nothing else changed. */
  ghost predicate QueuedAll(sh: Shared, sh': Shared, batches: seq<Batch>) {
    sh' == sh.(queue := sh'.queue, nextBatch := sh.nextBatch + |batches|, marks := sh'.marks) &&
    (forall ref :: ref in sh'.queue <==> ref in sh.queue || sh.nextBatch <= ref < sh'.nextBatch) &&
    (forall ref :: ref in sh.queue ==> sh'.queue[ref] == sh.queue[ref]) &&
    (forall ref :: sh.nextBatch <= ref < sh'.nextBatch ==> sh'.queue[ref] == batches[ref - sh.nextBatch]) &&
    (forall k :: k in sh'.marks <==> k in sh.marks || InSome(batches, k)) &&
    (forall k :: k in sh'.marks ==> sh'.marks[k] == if InSome(batches, k) then sh.clock else sh.marks[k])
  }

  lemma {:induction false} InSomeFirst(batch: Batch, rest: seq<Batch>, k: Id)
    ensures InSome([batch] + rest, k) <==> k in batch || InSome(rest, k)
  {
    var all := [batch] + rest;
    assert all[0] == batch && forall i :: 0 < i < |all| ==> all[i] == rest[i - 1];
    if InSome(rest, k) {
      var i :| 0 <= i < |rest| && k in rest[i];
      assert k in all[i + 1];
    }
  }

  lemma {:induction false} AfterBatchIs(sh: Shared, batch: Batch)
    requires forall ref :: ref in sh.queue ==> ref < sh.nextBatch
    ensures QueuedAll(sh, AfterBatch(sh, batch), [batch])
  {
    hide InSome;
    MarkAllIs(sh.(queue := sh.queue[sh.nextBatch := batch], nextBatch := sh.nextBatch + 1), batch);
    forall k ensures InSome([batch], k) <==> k in batch {
      InSomeOnly(batch, k);
    }
  }

  lemma {:induction false} InSomeOnly(batch: Batch, k: Id)
    ensures InSome([batch], k) <==> k in batch
  {
    InSomeFirst(batch, [], k);
    assert [batch] + [] == [batch];
  }

  lemma {:induction false} QueuedInTurn(sh: Shared, next: Shared, sh': Shared, batch: Batch, rest: seq<Batch>)
    requires QueuedAll(sh, next, [batch]) && QueuedAll(next, sh', rest)
    requires forall ref :: ref in sh.queue ==> ref < sh.nextBatch
    ensures QueuedAll(sh, sh', [batch] + rest)
  {
    hide InSome;
    forall k ensures InSome([batch] + rest, k) <==> k in batch || InSome(rest, k) {
      InSomeFirst(batch, rest, k);
    }
    forall k ensures InSome([batch], k) <==> k in batch {
      InSomeOnly(batch, k);
    }
  }

  lemma {:induction false} AfterBatchesIs(sh: Shared, batches: seq<Batch>)
    requires forall ref :: ref in sh.queue ==> ref < sh.nextBatch
    ensures QueuedAll(sh, AfterBatches(sh, batches), batches)
    decreases |batches|
  {
    hide AfterBatch;
    if batches != [] {
      var next := AfterBatch(sh, batches[0]);
      AfterBatchIs(sh, batches[0]);
      AfterBatchesIs(next, batches[1..]);
      QueuedInTurn(sh, next, AfterBatches(sh, batches), batches[0], batches[1..]);
      assert [batches[0]] + batches[1..] == batches;
    }
  }

  lemma {:induction false} MarksAll(c: Config, from: Local, l: Local, ids: seq<Id>, rest: seq<Op>) returns (next: Local)
    requires Reaches(c, from, l) && l.th.ops == MarkOps(ids) + rest
    ensures Reaches(c, from, next) && next == Local(MarkAll(l.sh, ids), Thread(rest, l.th.picked))
    decreases |ids|
  {
    hide Reaches;
    if ids == [] {
      assert l.th.ops == rest;
      next := l;
    } else {
      assert MarkOps(ids) + rest == [Mark(ids[0])] + (MarkOps(ids[1..]) + rest);
      next := Passes(c, from, l, Mark(ids[0]), MarkOps(ids[1..]) + rest, NO_CHOICE);
      next := MarksAll(c, from, next, ids[1..], rest);
    }
  }

  lemma {:induction false} QueuesAll(c: Config, from: Local, l: Local, batches: seq<Batch>) returns (next: Local)
    requires Reaches(c, from, l) && l.th.ops == EnqueueAllOps(c, batches) && !c.atomicMark
    ensures Reaches(c, from, next) && next == Local(AfterBatches(l.sh, batches), Thread([], l.th.picked))
    decreases |batches|
  {
    hide Reaches;
    if batches == [] {
      next := l;
    } else {
      var rest := EnqueueAllOps(c, batches[1..]);
      assert l.th.ops == [Enqueue(batches[0])] + (MarkOps(batches[0]) + rest);
      next := Passes(c, from, l, Enqueue(batches[0]), MarkOps(batches[0]) + rest, NO_CHOICE);
      next := MarksAll(c, from, next, batches[0], rest);
      next := QueuesAll(c, from, next, batches[1..]);
    }
  }

  lemma {:induction false} CutsAndQueues(c: Config, sh: Shared, l: Local, batches: seq<Batch>)
    requires Reaches(c, Local(sh, Thread(Program(Api.EnqueueBatches), [])), l)
    requires l.th.ops == [MakeBatches] && !c.atomicMark
    ensures Performs(c, sh, Api.EnqueueBatches, AfterBatches(l.sh, batches))
  {
    hide Reaches, Performs;
    var start := Local(sh, Thread(Program(Api.EnqueueBatches), []));
    assert l.th.ops == [MakeBatches] + [];
    var next := Does(c, start, l, MakeBatches, [], NO_CHOICE.(batches := batches));
    assert next.th.ops == EnqueueAllOps(c, batches);
    next := QueuesAll(c, start, next, batches);
    Finished(c, sh, Api.EnqueueBatches, next);
  }

  // ---- syncing

  /** A worker unmarks the ids of its batch and keeps those that are in the cache and not terminal. */
  function Unmarked(sh: Shared, batch: Batch): Shared
    decreases |batch|
  {
    if batch == [] then sh else Unmarked(sh.(marks := sh.marks - {batch[0]}), batch[1..])
  }

  function Screened(sh: Shared, batch: Batch): seq<Id>
    decreases |batch|
  {
    if batch == [] then [] else (if Live(sh, batch[0]) then [batch[0]] else []) + Screened(sh, batch[1..])
  }

  function Answered(lru: map<Id, Item>, answers: seq<Answer>): map<Id, Item>
    decreases |answers|
  {
    if answers == [] then lru
    else Answered(if answers[0].id in lru then lru[answers[0].id := answers[0].item] else lru, answers[1..])
  }

  lemma {:induction false} UnmarkedIs(sh: Shared, batch: Batch)
    ensures Unmarked(sh, batch) == sh.(marks := sh.marks - set k | k in batch)
    decreases |batch|
  {
    if batch == [] {
      assert sh.marks - (set k | k in batch) == sh.marks;
    } else {
      UnmarkedIs(sh.(marks := sh.marks - {batch[0]}), batch[1..]);
      assert (set k | k in batch) == {batch[0]} + set k | k in batch[1..];
      assert (sh.marks - {batch[0]}) - (set k | k in batch[1..]) == sh.marks - set k | k in batch;
    }
  }

  ghost predicate Unanswered(answers: seq<Answer>, id: Id) {
    forall i :: 0 <= i < |answers| ==> answers[i].id != id
  }

  /** No key comes or goes, and each id ends with the item of its last answer, or with its own item if
      there is none. */
  ghost predicate LastAnswersCount(lru: map<Id, Item>, answers: seq<Answer>, lru': map<Id, Item>) {
    lru'.Keys == lru.Keys &&
    (forall id :: id in lru && Unanswered(answers, id) ==> lru'[id] == lru[id]) &&
    (forall i :: 0 <= i < |answers| && answers[i].id in lru && Unanswered(answers[i + 1..], answers[i].id) ==>
      lru'[answers[i].id] == answers[i].item)
  }

  lemma {:induction false} AnsweredIs(lru: map<Id, Item>, answers: seq<Answer>)
    ensures LastAnswersCount(lru, answers, Answered(lru, answers))
    decreases |answers|
  {
    if answers != [] {
      var first, rest := answers[0], answers[1..];
      var next := if first.id in lru then lru[first.id := first.item] else lru;
      var lru' := Answered(next, rest);
      assert next.Keys == lru.Keys;
      AnsweredIs(next, rest);
      forall id | id in lru && Unanswered(answers, id) ensures lru'[id] == lru[id] {
        assert first.id != id && forall i :: 0 <= i < |rest| ==> rest[i] == answers[i + 1];
      }
      forall i | 0 <= i < |answers| && answers[i].id in lru && Unanswered(answers[i + 1..], answers[i].id)
        ensures lru'[answers[i].id] == answers[i].item
      {
        if i > 0 { assert rest[i - 1] == answers[i] && rest[i..] == answers[i + 1..]; }
      }
    }
  }

  /** `kept` are the items of the batch that are in the cache and not terminal, in the order of the batch and
      each as often as it stands there; `at` are their places. */
  ghost predicate KeepsLive(lru: map<Id, Item>, batch: Batch, kept: seq<Id>, at: seq<nat>) {
    |at| == |kept| &&
    (forall j :: 0 <= j < |at| ==> at[j] < |batch| && kept[j] == batch[at[j]]) &&
    (forall i, j :: 0 <= i < j < |at| ==> at[i] < at[j]) &&
    (forall i :: 0 <= i < |batch| ==> (i in at <==> batch[i] in lru && !lru[batch[i]].terminal))
  }

  lemma {:induction false} KeepsLiveStep(lru: map<Id, Item>, batch: Batch, id: Id, kept: seq<Id>, at: seq<nat>)
    requires KeepsLive(lru, batch, kept, at)
    ensures
      if id in lru && !lru[id].terminal then KeepsLive(lru, batch + [id], kept + [id], at + [|batch|])
      else KeepsLive(lru, batch + [id], kept, at)
  {
    assert forall i :: 0 <= i < |batch| ==> (batch + [id])[i] == batch[i];
    assert forall j :: 0 <= j < |at| ==> at[j] in at && at[j] != |batch|;
    forall i: nat ensures i in at + [|batch|] <==> i in at || i == |batch| {}
  }

  lemma {:induction false} ScreenedSnoc(sh: Shared, batch: Batch, id: Id)
    ensures Screened(sh, batch + [id]) == Screened(sh, batch) + (if Live(sh, id) then [id] else [])
    decreases |batch|
  {
    if batch == [] {
      assert [id][1..] == [] && batch + [id] == [id];
    } else {
      assert (batch + [id])[0] == batch[0] && (batch + [id])[1..] == batch[1..] + [id];
      ScreenedSnoc(sh, batch[1..], id);
    }
  }

  lemma {:induction false} ScreenedIs(sh: Shared, batch: Batch) returns (at: seq<nat>)
    ensures KeepsLive(sh.lru, batch, Screened(sh, batch), at)
    decreases |batch|
  {
    hide KeepsLive, Screened;
    if batch == [] {
      at := NothingKept(sh);
    } else {
      var front, last := batch[..|batch| - 1], batch[|batch| - 1];
      assert batch == front + [last];
      ScreenedSnoc(sh, front, last);
      var before := ScreenedIs(sh, front);
      KeepsLiveStep(sh.lru, front, last, Screened(sh, front), before);
      at := if Live(sh, last) then before + [|front|] else before;
      assert Screened(sh, front) + [] == Screened(sh, front);
    }
  }

  lemma {:induction false} NothingKept(sh: Shared) returns (at: seq<nat>)
    ensures KeepsLive(sh.lru, [], Screened(sh, []), at)
  {
    at := [];
  }

  lemma {:induction false} ScreensOne(c: Config, from: Local, l: Local, id: Id, rest: seq<Op>) returns (next: Local)
    requires Reaches(c, from, l) && l.th.ops == [Unmark(id)] + ([Screen(id)] + rest)
    ensures Reaches(c, from, next)
    ensures next == Local(l.sh.(marks := l.sh.marks - {id}),
                          Thread(rest, if Live(l.sh, id) then l.th.picked + [id] else l.th.picked))
  {
    hide Reaches;
    next := Passes(c, from, l, Unmark(id), [Screen(id)] + rest, NO_CHOICE);
    next := Does(c, from, next, Screen(id), rest, NO_CHOICE);
    assert next.th.ops == rest;
  }

  lemma {:induction false} ScreenedSplit(sh: Shared, batch: Batch, picked: seq<Id>)
    requires batch != []
    ensures picked + Screened(sh, batch) ==
      (if Live(sh, batch[0]) then picked + [batch[0]] else picked) +
      Screened(sh.(marks := sh.marks - {batch[0]}), batch[1..])
  {
    ScreenedFrame(sh, sh.(marks := sh.marks - {batch[0]}), batch[1..]);
  }

  lemma {:induction false} ScreenedFrame(sh: Shared, sh': Shared, batch: Batch)
    requires sh.lru == sh'.lru
    ensures Screened(sh, batch) == Screened(sh', batch)
    decreases |batch|
  {
    if batch != [] { ScreenedFrame(sh, sh', batch[1..]); }
  }

  lemma {:induction false} ScreensAll(c: Config, from: Local, l: Local, batch: Batch, rest: seq<Op>)
    returns (next: Local)
    requires Reaches(c, from, l) && l.th.ops == ScreenOps(batch) + rest
    ensures Reaches(c, from, next)
    ensures next == Local(Unmarked(l.sh, batch), Thread(rest, l.th.picked + Screened(l.sh, batch)))
    decreases |batch|
  {
    hide Reaches;
    if batch == [] {
      assert l.th.ops == rest && l.th.picked + [] == l.th.picked;
      next := l;
    } else {
      var id := batch[0];
      ScreenedSplit(l.sh, batch, l.th.picked);
      next := ScreensOne(c, from, l, id, ScreenOps(batch[1..]) + rest);
      next := ScreensAll(c, from, next, batch[1..], rest);
    }
  }

  lemma {:induction false} UpdatesAll(c: Config, from: Local, l: Local, answers: seq<Answer>, rest: seq<Op>)
    returns (next: Local)
    requires Reaches(c, from, l) && l.th.ops == AnswerOps(answers) + rest && l.sh.holder == None
    requires |l.sh.lru| <= c.capacity
    ensures Reaches(c, from, next)
    ensures next == Local(l.sh.(lru := Answered(l.sh.lru, answers)), Thread(rest, l.th.picked))
    decreases |answers|
  {
    hide Reaches;
    if answers == [] {
      assert l.th.ops == rest;
      next := l;
    } else {
      var first := answers[0];
      assert l.th.ops == UpdateOps(first.id, first.item) + (AnswerOps(answers[1..]) + rest);
      next := DoesUpdate(c, from, l, first.id, first.item, AnswerOps(answers[1..]) + rest);
      assert first.id in l.sh.lru ==> l.sh.lru[first.id := first.item].Keys == l.sh.lru.Keys;
      next := UpdatesAll(c, from, next, answers[1..], rest);
    }
  }

  lemma {:induction false} SweepsOne(c: Config, from: Local, l: Local, k: Id) returns (next: Local)
    requires Reaches(c, from, l) && l.th.ops == [Sweep] && l.sh.holder == None && k in l.sh.toDelete
    ensures Reaches(c, from, next)
    ensures next == Local(l.sh.(lru := l.sh.lru - {k}, toDelete := l.sh.toDelete - {k}), Thread([Sweep], l.th.picked))
  {
    hide Reaches;
    assert l.th.ops == [Sweep] + [];
    next := Does(c, from, l, Sweep, [], NO_CHOICE.(next := Some(k)));
    assert next.th.ops == DeleteOps(k) + [Sweep];
    next := DoesDelete(c, from, next, k, [Sweep]);
  }

  lemma {:induction false} SweepsAll(c: Config, from: Local, l: Local) returns (next: Local)
    requires Reaches(c, from, l) && l.th.ops == [Sweep] && l.sh.holder == None
    ensures Reaches(c, from, next)
    ensures next == Local(l.sh.(lru := l.sh.lru - l.sh.toDelete, toDelete := {}), Thread([], l.th.picked))
    decreases |l.sh.toDelete|
  {
    hide Reaches;
    if l.sh.toDelete == {} {
      assert l.th.ops == [Sweep] + [];
      next := Passes(c, from, l, Sweep, [], NO_CHOICE);
      assert l.sh.lru - l.sh.toDelete == l.sh.lru;
    } else {
      var k :| k in l.sh.toDelete;
      next := SweepsOne(c, from, l, k);
      assert (l.sh.lru - {k}) - (l.sh.toDelete - {k}) == l.sh.lru - l.sh.toDelete;
      next := SweepsAll(c, from, next);
    }
  }

  class InMemoryAutoRefresh {
    const c: Config
    var lruMap: map<Id, Item>
    var processing: map<Id, int>
    var toDelete: set<Id>
    var workqueue: map<nat, Batch>
    var nextBatch: nat
    var clock: int

    constructor (c: Config)
      requires c.capacity > 0 && !c.atomicCreate && !c.atomicMark
      ensures Valid() && this.c == c && View() == Shared(map[], map[], {}, map[], 0, 0, None)
    {
      this.c := c;
      lruMap, processing, toDelete, workqueue, nextBatch, clock := map[], map[], {}, map[], 0, 0;
    }

    ghost predicate Valid()
      reads this
    {
      0 < c.capacity && |lruMap| <= c.capacity && !c.atomicCreate && !c.atomicMark
    }

    ghost function View(): Shared
      reads this
    {
      Shared(lruMap, processing, toDelete, workqueue, nextBatch, clock, None)
    }

    /** Updates the item only if it is in the cache. */
    method Update(id: Id, item: Item) returns (ok: bool)
      requires Valid()
      modifies this`lruMap
      ensures Valid() && ok == (id in old(lruMap))
      ensures lruMap == if ok then old(lruMap)[id := item] else old(lruMap)
      ensures Performs(c, old(View()), Api.Update(id, item), View())
    {
      ghost var start := Local(View(), Thread(Program(Api.Update(id, item)), []));
      Nothing(c, start);
      assert start.th.ops == UpdateOps(id, item) + [];
      ghost var l := DoesUpdate(c, start, start, id, item, []);
      ok := id in lruMap;
      if ok {
        assert lruMap[id := item].Keys == lruMap.Keys;
        lruMap := lruMap[id := item];
      }
      Finished(c, start.sh, Api.Update(id, item), l);
    }

    method Delete(key: Id)
      requires Valid()
      modifies this`toDelete, this`lruMap
      ensures Valid() && toDelete == old(toDelete) - {key} && lruMap == old(lruMap) - {key}
      ensures Performs(c, old(View()), Api.Delete(key), View())
    {
      ghost var start := Local(View(), Thread(Program(Api.Delete(key)), []));
      Nothing(c, start);
      assert start.th.ops == DeleteOps(key) + [];
      ghost var l := DoesDelete(c, start, start, key, []);
      toDelete := toDelete - {key};
      Smaller(lruMap, key);
      lruMap := lruMap - {key};
      Finished(c, start.sh, Api.Delete(key), l);
    }

    method DeleteDelayed(id: Id)
      requires Valid()
      modifies this`toDelete
      ensures Valid() && toDelete == old(toDelete) + {id}
      ensures Performs(c, old(View()), Api.DeleteDelayed(id), View())
    {
      ghost var start := Local(View(), Thread(Program(Api.DeleteDelayed(id)), []));
      Nothing(c, start);
      assert start.th.ops == [Flag(id)] + [];
      ghost var l := Passes(c, start, start, Flag(id), [], NO_CHOICE);
      toDelete := toDelete + {id};
      Finished(c, start.sh, Api.DeleteDelayed(id), l);
    }

    method Get(id: Id) returns (r: Result<Item, string>)
      ensures r == if id in lruMap then Success(lruMap[id]) else Failure("NOT_FOUND")
    {
      if id in lruMap {
        return Success(lruMap[id]);
      }
      return Failure("NOT_FOUND");
    }

    /** Returns the item if it is in the cache; otherwise inserts it, at the price of `victim` if the
        cache is full, and queues and marks it if the cache syncs on creation. */
    method GetOrCreate(id: Id, item: Item, victim: Option<Id>) returns (r: Item)
      requires Valid() && (id !in lruMap ==> VictimOk(c, View(), id, victim))
      modifies this
      ensures Valid() && r == if id in old(lruMap) then old(lruMap)[id] else item
      ensures View() == if id in old(lruMap) then old(View()) else Created(c, old(View()), id, item, victim)
      ensures id !in old(lruMap) ==>
        (victim.Some? <==> |old(lruMap)| == c.capacity) && id in lruMap && lruMap[id] == item &&
        lruMap == if victim.Some? then old(lruMap)[id := item] - {victim.value} else old(lruMap)[id := item]
      ensures id !in old(lruMap) && c.syncOnCreate ==>
        workqueue == old(workqueue)[old(nextBatch) := [id]] && nextBatch == old(nextBatch) + 1 &&
        processing == old(processing)[id := clock]
      ensures id in old(lruMap) || !c.syncOnCreate ==>
        workqueue == old(workqueue) && nextBatch == old(nextBatch) && processing == old(processing)
      ensures toDelete == old(toDelete) && clock == old(clock)
      ensures Performs(c, old(View()), Api.GetOrCreate(id, item), View())
    {
      hide Performs;
      CreationRuns(c, View(), id, item, victim);
      if id in lruMap {
        return lruMap[id];
      }
      InsertFits(c, View(), id, item, victim);
      EvictsWhenFull(c, View(), id, victim);
      if victim.Some? {
        lruMap := lruMap[id := item] - {victim.value};
      } else {
        lruMap := lruMap[id := item];
      }
      if c.syncOnCreate {
        workqueue := workqueue[nextBatch := [id]];
        nextBatch := nextBatch + 1;
        processing := processing[id := clock];
      }
      return item;
    }

    /** Whether the key is being processed; a mark older than five periods is dropped and does not count. */
    method InProcessing(key: Id) returns (r: bool)
      modifies this`processing
      ensures r <==> key in old(processing) && clock - old(processing)[key] <= 5 * c.period
      ensures processing == if r then old(processing) else old(processing) - {key}
    {
      if key in processing {
        if clock - processing[key] > c.period * 5 {
          processing := processing - {key};
          return false;
        }
        return true;
      }
      return false;
    }

    /** The keys of the LRU map, in some order. */
    method Keys() returns (keys: seq<Id>)
      ensures NoDup(keys) && forall k :: k in keys <==> k in lruMap
    {
      keys := [];
      var rest := lruMap.Keys;
      while rest != {}
        invariant rest <= lruMap.Keys && NoDup(keys)
        invariant forall k :: k in keys <==> k in lruMap && k !in rest
        decreases rest
      {
        var k :| k in rest;
        keys := keys + [k];
        rest := rest - {k};
      }
    }

    method ConsiderKey(k: Id) returns (due: bool)
      requires Valid()
      modifies this`lruMap, this`toDelete, this`processing
      ensures Valid() && View() == AfterKey(c, old(View()), k)
      ensures due <==> Due(c, old(View()), k)
    {
      DueIs(c, View(), k);
      if k in toDelete {
        Delete(k);
        return false;
      }
      if k in lruMap && !lruMap[k].terminal {
        var busy := InProcessing(k);
        return !busy;
      }
      return false;
    }

    method ConsiderKeys(keys: seq<Id>) returns (snapshot: seq<Id>)
      requires Valid()
      modifies this`lruMap, this`toDelete, this`processing
      ensures Valid() && View() == AfterKeys(c, old(View()), keys) && snapshot == DueKeys(c, old(View()), keys)
    {
      snapshot := [];
      for i := 0 to |keys|
        invariant Valid() && AfterKeys(c, View(), keys[i..]) == AfterKeys(c, old(View()), keys)
        invariant snapshot + DueKeys(c, View(), keys[i..]) == DueKeys(c, old(View()), keys)
      {
        assert keys[i..][1..] == keys[i + 1..];
        DueKeysSplit(c, View(), keys[i..], snapshot);
        var due := ConsiderKey(keys[i]);
        if due {
          snapshot := snapshot + [keys[i]];
        }
      }
    }

    /** The first half of the enqueue round: deletes the flagged keys and collects the due ones, each
        once. */
    method TakeSnapshot() returns (snapshot: seq<Id>, ghost l: Local)
      requires Valid()
      modifies this`lruMap, this`toDelete, this`processing
      ensures Valid() && View() == Considered(c, old(View()), old(lruMap).Keys)
      ensures NoDup(snapshot)
      ensures forall k :: k in snapshot <==>
        k in old(lruMap) && !old(lruMap)[k].terminal && k !in old(toDelete) &&
        (k in old(processing) ==> clock - old(processing)[k] > 5 * c.period)
      ensures lruMap == old(lruMap) - old(toDelete) && toDelete == old(toDelete) - old(lruMap).Keys
      ensures processing == old(processing) - set k | k in snapshot
      ensures Reaches(c, Local(old(View()), Thread(Program(Api.EnqueueBatches), [])), l)
      ensures l == Local(View(), Thread([MakeBatches], snapshot))
    {
      ghost var sh := View();
      var keys := Keys();
      l := Lists(c, sh, keys);
      l := Scans(c, Local(sh, Thread(Program(Api.EnqueueBatches), [])), l, keys);
      snapshot := ConsiderKeys(keys);
      AfterKeysIs(c, sh, keys);
      DueKeysAre(c, sh, keys);
      assert (set k | k in keys) == sh.lru.Keys;
      assert [] + snapshot == snapshot;
      ConsideredAll(c, sh, snapshot);
    }

    /** The second half: queues each batch, then marks its ids. */
    method QueueBatches(batches: seq<Batch>)
      requires Valid()
      modifies this`workqueue, this`nextBatch, this`processing
      ensures Valid() && View() == AfterBatches(old(View()), batches)
    {
      for i := 0 to |batches|
        invariant Valid() && AfterBatches(View(), batches[i..]) == AfterBatches(old(View()), batches)
      {
        var batch := batches[i];
        assert batches[i..][1..] == batches[i + 1..];
        ghost var target := AfterBatch(View(), batch);
        workqueue := workqueue[nextBatch := batch];
        nextBatch := nextBatch + 1;
        for j := 0 to |batch|
          invariant Valid() && MarkAll(View(), batch[j..]) == target
        {
          assert batch[j..][1..] == batch[j + 1..];
          processing := processing[batch[j] := clock];
        }
      }
    }

    /** One round of the enqueue loop; `cut` divides the snapshot into batches, or fails. */
    method EnqueueBatches(cut: seq<Id> -> Option<seq<Batch>>) returns (ok: bool, ghost snapshot: seq<Id>)
      requires Valid()
      modifies this
      ensures Valid() && NoDup(snapshot)
      ensures forall k :: k in snapshot <==>
        k in old(lruMap) && !old(lruMap)[k].terminal && k !in old(toDelete) &&
        (k in old(processing) ==> clock - old(processing)[k] > 5 * c.period)
      ensures ok <==> cut(snapshot).Some?
      ensures View() == AfterBatches(Considered(c, old(View()), old(lruMap).Keys), cut(snapshot).GetOr([]))
      ensures Performs(c, old(View()), Api.EnqueueBatches, View())
    {
      ghost var sh := View();
      var found, l := TakeSnapshot();
      snapshot := found;
      var batches := cut(found);
      CutsAndQueues(c, sh, l, batches.GetOr([]));
      if batches.None? {
        return false, snapshot;
      }
      QueueBatches(batches.value);
      return true, snapshot;
    }

    /** Takes a batch off the queue, unmarks its ids and keeps those worth asking about. */
    method TakeBatch(ref: nat) returns (newBatch: seq<Id>)
      requires Valid() && ref in workqueue
      modifies this`workqueue, this`processing
      ensures View() == Unmarked(old(View()).(queue := old(workqueue) - {ref}), old(workqueue)[ref])
      ensures workqueue == old(workqueue) - {ref} && processing == old(processing) - set k | k in old(workqueue)[ref]
      ensures exists at :: KeepsLive(lruMap, old(workqueue)[ref], newBatch, at)
      ensures newBatch == Screened(old(View()), old(workqueue)[ref])
    {
      var batch := workqueue[ref];
      workqueue := workqueue - {ref};
      ghost var taken := Unmarked(View(), batch);
      ScreenedFrame(old(View()), View(), batch);
      UnmarkedIs(View(), batch);
      newBatch := [];
      for i := 0 to |batch|
        invariant Unmarked(View(), batch[i..]) == taken
        invariant newBatch + Screened(View(), batch[i..]) == Screened(old(View()), batch)
      {
        assert batch[i..][1..] == batch[i + 1..];
        ScreenedSplit(View(), batch[i..], newBatch);
        processing := processing - {batch[i]};
        if batch[i] in lruMap && !lruMap[batch[i]].terminal {
          newBatch := newBatch + [batch[i]];
        }
      }
      ghost var at := ScreenedIs(old(View()), batch);
      assert KeepsLive(lruMap, batch, newBatch, at);
    }

    method StoreAnswers(answers: seq<Answer>)
      requires Valid()
      modifies this`lruMap
      ensures Valid() && lruMap == Answered(old(lruMap), answers)
      ensures LastAnswersCount(old(lruMap), answers, lruMap)
    {
      AnsweredIs(lruMap, answers);
      for i := 0 to |answers|
        invariant Valid() && Answered(lruMap, answers[i..]) == Answered(old(lruMap), answers)
      {
        assert answers[i..][1..] == answers[i + 1..];
        var ok := Update(answers[i].id, answers[i].item);
      }
    }

    /** Deletes the flagged items one by one, in any order. */
    method DeleteFlagged()
      requires Valid()
      modifies this`toDelete, this`lruMap
      ensures Valid() && toDelete == {} && lruMap == old(lruMap) - old(toDelete)
    {
      while toDelete != {}
        invariant Valid() && lruMap - toDelete == old(lruMap) - old(toDelete)
        decreases |toDelete|
      {
        var key :| key in toDelete;
        ghost var lru, flagged := lruMap, toDelete;
        Delete(key);
        assert (lru - {key}) - (flagged - {key}) == lru - flagged;
      }
      assert lruMap - {} == lruMap;
    }

    /** One turn of a worker: takes a batch, unmarks and screens its ids, asks the callback about the
        rest, stores its answers and deletes the flagged items. If nothing is left to ask about, or
        the callback fails, the turn ends before the deletions. */
    method SyncOnce(ref: nat, callback: seq<Id> -> Option<seq<Answer>>)
      requires Valid() && ref in workqueue
      modifies this
      ensures Valid()
      ensures
        var taken := Unmarked(old(View()).(queue := old(workqueue) - {ref}), old(workqueue)[ref]);
        var picked := Screened(old(View()), old(workqueue)[ref]);
        View() == if picked == [] || callback(picked).None? then taken
          else taken.(lru := Answered(taken.lru, callback(picked).value) - taken.toDelete, toDelete := {})
      ensures Performs(c, old(View()), Api.SyncOnce, View())
    {
      hide Performs, KeepsLive, LastAnswersCount, Unmarked, Screened, Answered;
      SyncRuns(c, View(), ref, callback);
      var newBatch := TakeBatch(ref);
      if |newBatch| == 0 {
        return;
      }
      var updatedBatch := callback(newBatch);
      if updatedBatch.None? {
        return;
      }
      StoreAnswers(updatedBatch.value);
      DeleteFlagged();
    }
  }

  lemma {:induction false} SyncRuns(c: Config, sh: Shared, ref: nat, callback: seq<Id> -> Option<seq<Answer>>)
    requires ref in sh.queue && sh.holder == None && |sh.lru| <= c.capacity
    ensures
      var taken := Unmarked(sh.(queue := sh.queue - {ref}), sh.queue[ref]);
      var picked := Screened(sh, sh.queue[ref]);
      Performs(c, sh, Api.SyncOnce,
        if picked == [] || callback(picked).None? then taken
        else taken.(lru := Answered(taken.lru, callback(picked).value) - taken.toDelete, toDelete := {}))
  {
    hide Reaches, Performs;
    var batch := sh.queue[ref];
    var picked := Screened(sh, batch);
    var start := Local(sh, Thread(Program(Api.SyncOnce), []));
    var l := Takes(c, sh, ref);
    var taken := l.sh;
    UnmarkedIs(sh.(queue := sh.queue - {ref}), batch);
    if picked == [] || callback(picked).None? {
      l := Passes(c, start, l, Call, [], NO_CHOICE);
    } else {
      l := CallsAndStores(c, start, l, callback(picked).value);
      l := SweepsAll(c, start, l);
    }
    Finished(c, sh, Api.SyncOnce, l);
  }

  lemma {:induction false} Takes(c: Config, sh: Shared, ref: nat) returns (l: Local)
    requires ref in sh.queue
    ensures Reaches(c, Local(sh, Thread(Program(Api.SyncOnce), [])), l)
    ensures l == Local(Unmarked(sh.(queue := sh.queue - {ref}), sh.queue[ref]),
                       Thread([Call] + [], Screened(sh, sh.queue[ref])))
  {
    hide Reaches;
    var batch := sh.queue[ref];
    var start := Local(sh, Thread(Program(Api.SyncOnce), []));
    Nothing(c, start);
    assert start.th.ops == [Fetch] + [];
    l := Does(c, start, start, Fetch, [], NO_CHOICE.(ref := ref));
    assert l.th.ops == ScreenOps(batch) + ([Call] + []);
    l := ScreensAll(c, start, l, batch, [Call] + []);
    ScreenedFrame(sh, sh.(queue := sh.queue - {ref}), batch);
    assert [] + Screened(sh, batch) == Screened(sh, batch);
  }

  lemma {:induction false} CallsAndStores(c: Config, from: Local, l: Local, answers: seq<Answer>) returns (next: Local)
    requires Reaches(c, from, l) && l.th.ops == [Call] + [] && l.th.picked != [] && l.sh.holder == None
    requires |l.sh.lru| <= c.capacity
    ensures Reaches(c, from, next)
    ensures next == Local(l.sh.(lru := Answered(l.sh.lru, answers)), Thread([Sweep], l.th.picked))
  {
    hide Reaches;
    next := Does(c, from, l, Call, [], NO_CHOICE.(answers := Some(answers)));
    assert next.th.ops == AnswerOps(answers) + [Sweep];
    next := UpdatesAll(c, from, next, answers, [Sweep]);
  }

  /** A cache without room for any item cannot be made. */
  method NewInMemoryAutoRefresh(size: nat, resyncPeriod: nat, syncOnCreate: bool)
    returns (r: Result<InMemoryAutoRefresh, string>)
    ensures r.Failure? <==> size == 0
    ensures r.Success? ==>
      fresh(r.value) && r.value.Valid() && r.value.c == Config(size, syncOnCreate, resyncPeriod, false, false) &&
      r.value.View() == Shared(map[], map[], {}, map[], 0, 0, None)
  {
    if size == 0 {
      return Failure("creating LRU cache");
    }
    var cache := new InMemoryAutoRefresh(Config(size, syncOnCreate, resyncPeriod, false, false));
    return Success(cache);
  }

  /** The default division: one batch for each item. */
  method SingleItemBatches(snapshot: seq<Id>) returns (batches: seq<Batch>)
    ensures |batches| == |snapshot| && forall i :: 0 <= i < |batches| ==> batches[i] == [snapshot[i]]
  {
    batches := [];
    for i := 0 to |snapshot|
      invariant |batches| == i && forall j :: 0 <= j < i ==> batches[j] == [snapshot[j]]
    {
      batches := batches + [[snapshot[i]]];
    }
  }

  lemma {:induction false} LooksUp(c: Config, sh: Shared, id: Id, item: Item) returns (l: Local)
    requires !c.atomicCreate && !c.atomicMark
    ensures Reaches(c, Local(sh, Thread(Program(Api.GetOrCreate(id, item)), [])), l) && l.sh == sh
    ensures l.th == Thread(if id in sh.lru then [] else [AddNew(id, item)] + AfterAdding(c, id), [])
  {
    hide Reaches;
    var start := Local(sh, Thread(Program(Api.GetOrCreate(id, item)), []));
    Nothing(c, start);
    assert start.th.ops == [Lookup(id, item)] + [];
    l := Does(c, start, start, Lookup(id, item), [], NO_CHOICE);
    assert MarkOps([id]) == [Mark(id)];
    assert EnqueueOps(c, [id]) == [Enqueue([id]), Mark(id)];
    assert l.th.ops == if id in sh.lru then [] else [AddNew(id, item)] + AfterAdding(c, id);
  }

  lemma {:induction false} CreationRuns(c: Config, sh: Shared, id: Id, item: Item, victim: Option<Id>)
    requires !c.atomicCreate && !c.atomicMark && (id !in sh.lru ==> VictimOk(c, sh, id, victim))
    ensures Performs(c, sh, Api.GetOrCreate(id, item), if id in sh.lru then sh else Created(c, sh, id, item, victim))
  {
    hide Reaches, Performs;
    var api := Api.GetOrCreate(id, item);
    var start := Local(sh, Thread(Program(api), []));
    var l := LooksUp(c, sh, id, item);
    if id !in sh.lru {
      l := Passes(c, start, l, AddNew(id, item), AfterAdding(c, id), NO_CHOICE.(victim := victim));
      if c.syncOnCreate { l := QueuesOne(c, start, l, id); }
    }
    Finished(c, sh, api, l);
  }

  lemma {:induction false} QueuesOne(c: Config, from: Local, l: Local, id: Id) returns (next: Local)
    requires Reaches(c, from, l) && l.th.ops == [Enqueue([id]), Mark(id)] && !c.atomicMark
    ensures Reaches(c, from, next) && next.th.ops == []
    ensures next.sh == l.sh.(queue := l.sh.queue[l.sh.nextBatch := [id]], nextBatch := l.sh.nextBatch + 1,
                             marks := l.sh.marks[id := l.sh.clock])
  {
    hide Reaches;
    assert l.th.ops == [Enqueue([id])] + [Mark(id)];
    next := Passes(c, from, l, Enqueue([id]), [Mark(id)], NO_CHOICE);
    assert [Mark(id)] == [Mark(id)] + [];
    next := Passes(c, from, next, Mark(id), [], NO_CHOICE);
  }

  lemma {:induction false} Smaller(m: map<Id, Item>, key: Id)
    ensures |m - {key}| <= |m|
  {
    assert (m - {key}).Keys == m.Keys - {key};
    assert |m - {key}| == |m.Keys - {key}| && |m| == |m.Keys|;
    if key in m { assert |m.Keys - {key}| == |m.Keys| - 1; } else { assert m.Keys - {key} == m.Keys; }
  }

  lemma {:induction false} EvictsWhenFull(c: Config, sh: Shared, id: Id, victim: Option<Id>)
    requires VictimOk(c, sh, id, victim) && id !in sh.lru && |sh.lru| <= c.capacity
    ensures (victim.Some? <==> |sh.lru| == c.capacity) && (victim.Some? ==> victim.value != id)
  {
    assert |sh.lru.Keys + {id}| == |sh.lru.Keys| + 1 && |sh.lru| == |sh.lru.Keys|;
  }

  /** An insertion never leaves more entries than the capacity. */
  lemma {:induction false} InsertFits(c: Config, sh: Shared, id: Id, item: Item, victim: Option<Id>)
    requires VictimOk(c, sh, id, victim) && |sh.lru| <= c.capacity
    ensures |Insert(sh, id, item, victim).lru| <= c.capacity
  {
    var grown := sh.lru[id := item];
    assert grown.Keys == sh.lru.Keys + {id} && |grown| == |grown.Keys| && |sh.lru| == |sh.lru.Keys|;
    if victim.Some? {
      assert (grown - {victim.value}).Keys == grown.Keys - {victim.value};
      assert |grown - {victim.value}| == |grown.Keys - {victim.value}|;
      assert sh.lru.Keys + {id} == sh.lru.Keys || |sh.lru.Keys + {id}| == |sh.lru.Keys| + 1;
    }
  }
}

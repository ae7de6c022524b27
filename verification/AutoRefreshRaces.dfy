/** Runs of the auto-refresh cache, put together event by event: a client creates an item, the enqueue
    loop makes a round, workers fetch, call back and answer, and the steps of all of them interleave.
    The runs that break a promise of the cache are made of these pieces. */
module AutoRefreshRaces {
  import opened Options
  import opened AutoRefreshMachine
  import Marks = AutoRefreshMarks
  import Once = AutoRefreshOnce
  import Places = AutoRefreshPlaces
  import Terminal = AutoRefreshTerminal

  /** A cache with one enqueue loop and some workers; all other threads are clients. `once` asks that
      no id is created twice. */
  datatype Crew = Crew(c: Config, loop: Tid, workers: set<Tid>, once: bool)

  const IDLE := Thread([], [])
  const K := "k"
  const FRESH := Item(0, false)
  const DONE := Item(0, true)
  const EMPTY := Shared(map[], map[], {}, map[], 0, 0, None)

  /** The runs below are as well-behaved as any theorem asks for. */
  ghost predicate Allowed(g: Crew, s: State, e: Event) {
    Marks.Calm(g.c, s, g.loop, e) && Terminal.Tame(s, e) && Staffed(g.workers, e)
  }

  ghost function Rule(g: Crew): (State, Event) -> bool {
    (s: State, e: Event) => Allowed(g, s, e)
  }

  ghost predicate Leads(g: Crew, s0: State, es: seq<Event>, s: State) {
    Init(s0) && Run(g.c, s0, es) && Obeys(g.c, s0, es, Rule(g)) && Final(g.c, s0, es) == s &&
    (g.once ==> Once.CreatesOnce(es))
  }

  ghost predicate Reachable(g: Crew, s: State) {
    exists s0, es :: Leads(g, s0, es, s)
  }

  /** The state is reachable without a creation of `id`. */
  ghost predicate Unmade(g: Crew, s: State, id: Id) {
    exists s0, es :: Leads(g, s0, es, s) && id !in Once.Made(es)
  }

  ghost predicate MayCreate(g: Crew, s: State, id: Id) {
    Reachable(g, s) && (g.once ==> Unmade(g, s, id))
  }

  lemma {:induction false} OnceSnoc(es: seq<Event>, e: Event)
    requires Once.CreatesOnce(es) && (Once.Creation(e) ==> e.api.id !in Once.Made(es))
    ensures Once.CreatesOnce(es + [e])
  {
    var es' := es + [e];
    assert forall i :: 0 <= i < |es| ==> es'[i] == es[i];
    forall i | 0 <= i < |es| && Once.Creation(es[i]) && Once.Creation(e) ensures es[i].api.id != e.api.id {
      Once.MadeAre(es, e.api.id);
    }
  }

  lemma {:induction false} ReachStep(g: Crew, s: State, e: Event)
    requires Reachable(g, s) && Enabled(g.c, s, e) && Allowed(g, s, e)
    requires Once.Creation(e) ==> MayCreate(g, s, e.api.id)
    ensures Reachable(g, Step(g.c, s, e))
  {
    var s0, es :| Leads(g, s0, es, s) && (g.once && Once.Creation(e) ==> e.api.id !in Once.Made(es));
    RunSnoc(g.c, s0, es, e);
    ObeysSnoc(g.c, s0, es, e, Rule(g));
    if g.once { OnceSnoc(es, e); }
    assert Leads(g, s0, es + [e], Step(g.c, s, e));
  }

  ghost predicate Idle(s: State, t: Tid) {
    t in s.threads && s.threads[t].ops == []
  }

  ghost predicate Client(g: Crew, t: Tid) {
    t != g.loop && t !in g.workers
  }

  // ---- single events

  lemma {:induction false} NewCache(g: Crew, threads: set<Tid>) returns (s: State)
    ensures Reachable(g, s) && s == State(EMPTY, map t | t in threads :: IDLE) && forall id :: MayCreate(g, s, id)
  {
    s := State(EMPTY, map t | t in threads :: IDLE);
    assert Leads(g, s, [], s) && Once.Made([]) == {};
  }

  lemma {:induction false} Begins(g: Crew, s: State, t: Tid, api: Api) returns (s': State)
    requires Reachable(g, s) && Idle(s, t) && Allowed(g, s, Start(t, api))
    requires api.GetOrCreate? ==> MayCreate(g, s, api.id)
    ensures Reachable(g, s') && s' == State(s.sh, s.threads[t := Thread(Program(api), [])])
  {
    ReachStep(g, s, Start(t, api));
    s' := Step(g.c, s, Start(t, api));
  }

  /** Thread `t` executes `op`. */
  lemma {:induction false} Does(g: Crew, s: State, t: Tid, op: Op, rest: seq<Op>, choice: Choice) returns (s': State)
    requires Reachable(g, s) && t in s.threads && s.threads[t].ops == [op] + rest && CanDo(g.c, s.sh, t, op, choice)
    requires choice.victim == None && (op.CheckMark? || op.MakeBatches? || op.Call? ==> Allowed(g, s, Act(t, choice)))
    ensures Reachable(g, s')
    ensures
      var picked := s.threads[t].picked;
      s' == State(Effect(g.c, s.sh, t, op, choice),
                  s.threads[t := Thread(Pushed(g.c, s.sh, picked, op, choice) + rest, Picks(s.sh, picked, op))])
  {
    HeadStep(g.c, s, t, op, rest, choice);
    assert Executes(s, Act(t, choice)) == Some(op);
    assert Allowed(g, s, Act(t, choice));
    ReachStep(g, s, Act(t, choice));
    s' := Step(g.c, s, Act(t, choice));
  }

  /** Thread `t` executes an operation that pushes nothing and picks nothing. */
  lemma {:induction false} Passes(g: Crew, s: State, t: Tid, op: Op, rest: seq<Op>) returns (s': State)
    requires Reachable(g, s) && t in s.threads && s.threads[t].ops == [op] + rest && CanDo(g.c, s.sh, t, op, NO_CHOICE)
    requires op.AddNew? || op.Enqueue? || op.Mark? || op.Lock? || op.Unlock? || op.Put? || op.Unmark?
    ensures Reachable(g, s')
    ensures s' == State(Effect(g.c, s.sh, t, op, NO_CHOICE), s.threads[t := Thread(rest, s.threads[t].picked)])
  {
    hide Reachable;
    s' := Does(g, s, t, op, rest, NO_CHOICE);
    assert [] + rest == rest;
  }

  // ---- creation

  lemma {:induction false} SingleOps(c: Config, id: Id)
    ensures EnqueueOps(c, [id]) == [Enqueue([id])] + (if c.atomicMark then [] else [Mark(id)])
    ensures EnqueueAllOps(c, [[id]]) == EnqueueOps(c, [id])
    ensures ScreenOps([id]) == [Unmark(id)] + [Screen(id)]
    ensures ConsiderOps([id]) == [Consider(id)]
    ensures Places.Flat([[id]]) == [id]
  {
    assert MarkOps([id]) == [Mark(id)];
    assert [[id]][1..] == [] && [id][1..] == [];
    assert EnqueueAllOps(c, []) == [];
  }

  /** Thread `t` queues and marks `id`, in one step or two. */
  lemma {:induction false} Queues(g: Crew, s: State, t: Tid, id: Id) returns (s': State)
    requires Reachable(g, s) && t in s.threads && s.threads[t].ops == EnqueueOps(g.c, [id])
    ensures Reachable(g, s') && s' == State(QueuedAlone(s.sh, id), s.threads[t := Thread([], s.threads[t].picked)])
  {
    hide Reachable;
    SingleOps(g.c, id);
    if g.c.atomicMark {
      assert s.threads[t].ops == [Enqueue([id])] + [];
      s' := Passes(g, s, t, Enqueue([id]), []);
      assert s'.sh == QueuedAlone(s.sh, id);
    } else {
      s' := Passes(g, s, t, Enqueue([id]), [Mark(id)]);
      assert [Mark(id)] == [Mark(id)] + [];
      s' := Passes(g, s', t, Mark(id), []);
    }
  }

  /** Client `t` looks `id` up without success and is about to insert it. */
  lemma {:induction false} Misses(g: Crew, s: State, t: Tid, id: Id) returns (s': State)
    requires !g.c.atomicCreate && MayCreate(g, s, id) && Client(g, t) && Idle(s, t) && id !in s.sh.lru
    ensures Reachable(g, s')
    ensures s' == State(s.sh, s.threads[t := Thread([AddNew(id, FRESH)] + AfterAdding(g.c, id), [])])
  {
    hide Reachable, Unmade;
    s' := Begins(g, s, t, GetOrCreate(id, FRESH));
    assert s'.threads[t].ops == [Lookup(id, FRESH)] + [];
    s' := Does(g, s', t, Lookup(id, FRESH), [], NO_CHOICE);
    assert s'.threads[t].ops == [AddNew(id, FRESH)] + AfterAdding(g.c, id);
  }

  /** Nothing has to be evicted for `id`. */
  ghost predicate HasRoom(c: Config, sh: Shared, id: Id) {
    |sh.lru.Keys + {id}| <= c.capacity
  }

  lemma {:induction false} Fits(c: Config, sh: Shared)
    requires c.capacity > 0 && sh.lru.Keys <= {K}
    ensures HasRoom(c, sh, K) && VictimOk(c, sh, K, None)
    ensures forall item: Item :: Insert(sh, K, item, None).lru == map[K := item]
  {
    assert sh.lru.Keys + {K} == {K};
  }

  lemma {:induction false} InsertsAndQueues(g: Crew, s: State, t: Tid, id: Id) returns (s': State)
    requires Reachable(g, s) && t in s.threads && HasRoom(g.c, s.sh, id)
    requires s.threads[t] == Thread([AddNew(id, FRESH)] + AfterAdding(g.c, id), [])
    ensures Reachable(g, s') && s' == State(Created(g.c, s.sh, id, FRESH, None), s.threads[t := IDLE])
  {
    hide Reachable;
    s' := Passes(g, s, t, AddNew(id, FRESH), AfterAdding(g.c, id));
    if g.c.syncOnCreate { s' := Queues(g, s', t, id); }
  }

  /** Client `t` creates `id`. */
  lemma {:induction false} Creates(g: Crew, s: State, t: Tid, id: Id) returns (s': State)
    requires MayCreate(g, s, id) && Client(g, t) && Idle(s, t) && id !in s.sh.lru && HasRoom(g.c, s.sh, id)
    ensures Reachable(g, s') && s' == State(Created(g.c, s.sh, id, FRESH, None), s.threads[t := IDLE])
  {
    hide Reachable, Unmade, Created;
    if g.c.atomicCreate {
      s' := Begins(g, s, t, GetOrCreate(id, FRESH));
      assert s'.threads[t].ops == [Lookup(id, FRESH)] + [];
      s' := Does(g, s', t, Lookup(id, FRESH), [], NO_CHOICE);
      assert s'.threads[t] == IDLE;
    } else {
      s' := Misses(g, s, t, id);
      s' := InsertsAndQueues(g, s', t, id);
    }
  }

  // ---- workers

  /** Worker `t` takes batch `ref`, unmarks `K` and is about to call back on it. */
  lemma {:induction false} Fetches(g: Crew, s: State, t: Tid, ref: nat) returns (s': State)
    requires Reachable(g, s) && t in g.workers && t != g.loop && Idle(s, t)
    requires ref in s.sh.queue && s.sh.queue[ref] == [K] && Live(s.sh, K)
    ensures Reachable(g, s')
    ensures s' == State(s.sh.(queue := s.sh.queue - {ref}, marks := s.sh.marks - {K}),
                        s.threads[t := Thread([Call], [K])])
  {
    hide Reachable;
    SingleOps(g.c, K);
    s' := Begins(g, s, t, SyncOnce);
    assert s'.threads[t].ops == [Fetch] + [];
    s' := Does(g, s', t, Fetch, [], NO_CHOICE.(ref := ref));
    assert s'.threads[t].ops == [Unmark(K)] + [Screen(K), Call];
    s' := Passes(g, s', t, Unmark(K), [Screen(K), Call]);
    assert s'.threads[t].ops == [Screen(K)] + [Call];
    s' := Screens(g, s', t);
  }

  lemma {:induction false} Screens(g: Crew, s: State, t: Tid) returns (s': State)
    requires Reachable(g, s) && t in s.threads && s.threads[t] == Thread([Screen(K), Call], []) && Live(s.sh, K)
    ensures Reachable(g, s') && s' == State(s.sh, s.threads[t := Thread([Call], [K])])
  {
    hide Reachable;
    assert s.threads[t].ops == [Screen(K)] + [Call];
    s' := Does(g, s, t, Screen(K), [Call], NO_CHOICE);
    assert s'.threads[t] == Thread([Call], [K]);
  }

  ghost predicate Calling(s: State, t: Tid) {
    t in s.threads && s.threads[t] == Thread([Call], [K])
  }

  /** The callback of worker `t` fails, which ends its turn. */
  lemma {:induction false} Fails(g: Crew, s: State, t: Tid) returns (s': State)
    requires Reachable(g, s) && Calling(s, t)
    ensures Reachable(g, s') && s' == State(s.sh, s.threads[t := Thread([], [K])])
  {
    hide Reachable;
    assert s.threads[t].ops == [Call] + [];
    s' := Does(g, s, t, Call, [], NO_CHOICE);
    assert s'.threads[t] == Thread([], [K]);
  }

  /** The callback of worker `t` answers `item` for `K`. */
  lemma {:induction false} CallsBack(g: Crew, s: State, t: Tid, item: Item) returns (s': State)
    requires Reachable(g, s) && Calling(s, t)
    ensures Reachable(g, s') && s' == State(s.sh, s.threads[t := Thread(UpdateOps(K, item) + [Sweep], [K])])
  {
    hide Reachable;
    var a := [Answer(K, item)];
    assert a[1..] == [];
    assert AnswerOps(a) == UpdateOps(K, item);
    assert Terminal.AnswerIds(a) == [K];
    assert s.threads[t].ops == [Call] + [];
    s' := Does(g, s, t, Call, [], NO_CHOICE.(answers := Some(a)));
    assert s'.threads[t].ops == UpdateOps(K, item) + [Sweep];
  }

  /** And Update finds `K` in the cache. */
  lemma {:induction false} AboutToStore(g: Crew, s: State, t: Tid, item: Item) returns (s': State)
    requires Reachable(g, s) && Calling(s, t) && K in s.sh.lru && s.sh.holder == None
    ensures Reachable(g, s')
    ensures s' == State(s.sh.(holder := Some(t)), s.threads[t := Thread([Put(K, item), Unlock, Sweep], [K])])
  {
    hide Reachable;
    s' := CallsBack(g, s, t, item);
    assert s'.threads[t].ops == [Lock] + [Contains(K, item), Unlock, Sweep];
    s' := Passes(g, s', t, Lock, [Contains(K, item), Unlock, Sweep]);
    assert s'.threads[t].ops == [Contains(K, item)] + [Unlock, Sweep];
    s' := Does(g, s', t, Contains(K, item), [Unlock, Sweep], NO_CHOICE);
    assert s'.threads[t].ops == [Put(K, item), Unlock, Sweep];
  }

  /** The answer is stored. */
  lemma {:induction false} Answers(g: Crew, s: State, t: Tid, item: Item) returns (s': State)
    requires g.c.capacity > 0 && Reachable(g, s) && Calling(s, t) && s.sh.lru.Keys == {K} && s.sh.holder == None
    ensures Reachable(g, s')
    ensures s' == State(s.sh.(lru := map[K := item]), s.threads[t := Thread([Sweep], [K])])
  {
    hide Reachable;
    Fits(g.c, s.sh);
    s' := AboutToStore(g, s, t, item);
    assert s'.threads[t].ops == [Put(K, item)] + [Unlock, Sweep];
    s' := Passes(g, s', t, Put(K, item), [Unlock, Sweep]);
    assert s'.threads[t].ops == [Unlock] + [Sweep];
    s' := Passes(g, s', t, Unlock, [Sweep]);
  }

  // ---- the enqueue loop

  /** `K` is in the cache, and neither queued nor marked. */
  ghost predicate Waiting(sh: Shared, n: nat) {
    sh == Shared(map[K := FRESH], map[], {}, map[], n, 0, None)
  }

  /** The enqueue loop has collected `K` and is about to queue it. */
  lemma {:induction false} Cuts(g: Crew, s: State, n: nat) returns (s': State)
    requires Reachable(g, s) && g.loop !in g.workers && Idle(s, g.loop) && Waiting(s.sh, n)
    ensures Reachable(g, s') && s' == State(s.sh, s.threads[g.loop := Thread(EnqueueOps(g.c, [K]), [K])])
  {
    hide Reachable;
    SingleOps(g.c, K);
    s' := Lists(g, s, n);
    s' := Snapshots(g, s', n);
    assert s'.threads[g.loop].ops == [MakeBatches] + [];
    s' := Does(g, s', g.loop, MakeBatches, [], NO_CHOICE.(batches := [[K]]));
    assert s'.threads[g.loop] == Thread(EnqueueOps(g.c, [K]), [K]);
  }

  lemma {:induction false} Lists(g: Crew, s: State, n: nat) returns (s': State)
    requires Reachable(g, s) && g.loop !in g.workers && Idle(s, g.loop) && Waiting(s.sh, n)
    ensures Reachable(g, s') && s' == State(s.sh, s.threads[g.loop := Thread([Consider(K), MakeBatches], [])])
  {
    hide Reachable;
    SingleOps(g.c, K);
    s' := Begins(g, s, g.loop, EnqueueBatches);
    assert s'.threads[g.loop].ops == [ListKeys] + [];
    s' := Does(g, s', g.loop, ListKeys, [], NO_CHOICE.(keys := [K]));
    assert s'.threads[g.loop] == Thread([Consider(K), MakeBatches], []);
  }

  lemma {:induction false} Snapshots(g: Crew, s: State, n: nat) returns (s': State)
    requires Reachable(g, s) && g.loop in s.threads && Waiting(s.sh, n)
    requires s.threads[g.loop] == Thread([Consider(K), MakeBatches], [])
    ensures Reachable(g, s') && s' == State(s.sh, s.threads[g.loop := Thread([MakeBatches], [K])])
  {
    hide Reachable;
    var q := g.loop;
    assert s.threads[q].ops == [Consider(K)] + [MakeBatches];
    s' := Does(g, s, q, Consider(K), [MakeBatches], NO_CHOICE);
    assert s'.threads[q].ops == [Peek(K)] + [MakeBatches];
    s' := Does(g, s', q, Peek(K), [MakeBatches], NO_CHOICE);
    assert s'.threads[q].ops == [CheckMark(K)] + [MakeBatches];
    s' := Does(g, s', q, CheckMark(K), [MakeBatches], NO_CHOICE);
    assert s'.threads[q] == Thread([MakeBatches], [K]);
  }

  // ---- longer runs

  /** Threads that a run leaves alone. */
  ghost predicate Apart(s: State, s': State, touched: set<Tid>) {
    s'.threads.Keys == s.threads.Keys && forall t :: t in s.threads && t !in touched ==> s'.threads[t] == s.threads[t]
  }

  /** After a creation: if it queued `K`, worker `v` takes the batch, and its callback fails. */
  lemma {:induction false} Drains(g: Crew, s: State, v: Tid) returns (s': State, n: nat)
    requires Reachable(g, s) && s.sh == Created(g.c, EMPTY, K, FRESH, None)
    requires v in g.workers && v != g.loop && Idle(s, v)
    ensures Reachable(g, s') && Waiting(s'.sh, n) && Apart(s, s', {v}) && Idle(s', v)
  {
    hide Reachable;
    if g.c.syncOnCreate {
      s' := Fetches(g, s, v, 0);
      s' := Fails(g, s', v);
      n := 1;
      assert s'.sh.queue == map[] && s'.sh.marks == map[];
    } else {
      s', n := s, 0;
    }
  }

  /** One round of the enqueue loop, after which worker `t` holds `K`. */
  lemma {:induction false} RoundAndFetch(g: Crew, s: State, n: nat, t: Tid) returns (s': State)
    requires Reachable(g, s) && g.loop !in g.workers && Idle(s, g.loop) && Waiting(s.sh, n)
    requires t in g.workers && Idle(s, t)
    ensures Reachable(g, s') && Waiting(s'.sh, n + 1) && Apart(s, s', {g.loop, t})
    ensures Idle(s', g.loop) && Calling(s', t)
  {
    hide Reachable;
    s' := Cuts(g, s, n);
    s' := Queues(g, s', g.loop, K);
    s' := Fetches(g, s', t, n);
    assert s'.sh.queue == map[] && s'.sh.marks == map[];
  }
}

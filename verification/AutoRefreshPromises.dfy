/** The exact conditions under which the auto-refresh cache keeps its promises. */
module AutoRefreshPromises {
  import opened Options
  import opened AutoRefreshMachine
  import opened AutoRefreshRaces
  import Delete = AutoRefreshDelete
  import Marks = AutoRefreshMarks
  import Once = AutoRefreshOnce
  import Places = AutoRefreshPlaces
  import Terminal = AutoRefreshTerminal

  // ---- one item, two workers

  /** Two workers are about to call back on the same item. */
  ghost predicate SharesItem(s: State) {
    exists t, u, k :: HasCall(s, t, k) && HasCall(s, u, k) && t != u
  }

  ghost predicate HasCall(s: State, t: Tid, k: Id) {
    t in s.threads && s.threads[t].ops != [] && s.threads[t].ops[0].Call? && k in s.threads[t].picked
  }

  ghost function StaffRule(workers: set<Tid>): (State, Event) -> bool {
    (s: State, e: Event) => Staffed(workers, e)
  }

  ghost predicate StaffedRun(c: Config, workers: set<Tid>, s0: State, es: seq<Event>) {
    Init(s0) && Run(c, s0, es) && Obeys(c, s0, es, StaffRule(workers))
  }

  lemma {:induction false} TwoWorkersHoldSameItem(g: Crew, a: Tid, v: Tid, w: Tid) returns (s: State, n: nat)
    requires g.c.capacity > 0 && g.loop !in g.workers && Client(g, a) && v in g.workers && w in g.workers && v != w
    ensures Reachable(g, s) && Waiting(s.sh, n) && Calling(s, v) && Calling(s, w)
  {
    hide Reachable, Unmade;
    s := NewCache(g, {g.loop, a, v, w});
    Fits(g.c, s.sh);
    s := Creates(g, s, a, K);
    s, n := Drains(g, s, v);
    s := RoundAndFetch(g, s, n, v);
    s := RoundAndFetch(g, s, n + 1, w);
    n := n + 2;
  }

  ghost predicate OnlyWorkersCall(s: State, workers: set<Tid>) {
    forall t, op :: t in s.threads && op in s.threads[t].ops && (op.Fetch? || op.Call?) ==> t in workers
  }

  lemma {:induction false} StepKeepsCalls(c: Config, workers: set<Tid>, s: State, e: Event)
    requires OnlyWorkersCall(s, workers) && Enabled(c, s, e) && Staffed(workers, e)
    ensures OnlyWorkersCall(Step(c, s, e), workers)
  {
    hide Effect, Pushed, Picks, CanDo;
    if e.Act? {
      var th := s.threads[e.t];
      assert th.ops[0] in th.ops && forall p :: p in th.ops[1..] ==> p in th.ops;
      PushedFollows(c, s.sh, th.picked, th.ops[0], e.choice);
    }
  }

  lemma {:induction false} RunKeepsCalls(c: Config, workers: set<Tid>, s: State, es: seq<Event>)
    requires OnlyWorkersCall(s, workers) && Run(c, s, es) && Obeys(c, s, es, StaffRule(workers))
    ensures OnlyWorkersCall(Final(c, s, es), workers)
    decreases |es|
  {
    if es != [] {
      StepKeepsCalls(c, workers, s, es[0]);
      RunKeepsCalls(c, workers, Step(c, s, es[0]), es[1..]);
    }
  }

  /** Some number above all thread ids of a set. */
  lemma {:induction false} Above(s: set<Tid>) returns (n: Tid)
    ensures forall t :: t in s ==> t < n
  {
    if s == {} {
      n := 0;
    } else {
      var t :| t in s;
      var m := Above(s - {t});
      assert forall u :: u in s ==> u == t || u in s - {t};
      n := if m > t then m else t + 1;
    }
  }

  lemma {:induction false} TwoOf(s: set<Tid>) returns (v: Tid, w: Tid)
    requires |s| >= 2
    ensures v in s && w in s && v != w
  {
    v :| v in s;
    assert |s - {v}| == |s| - 1;
    w :| w in s - {v};
  }

  lemma {:induction false} AtMostOne(s: set<Tid>, t: Tid, u: Tid)
    requires |s| <= 1 && t in s && u in s
    ensures t == u
  {
    assert |s - {t}| == |s| - 1;
    assert s - {t} == {};
    assert u !in s - {t};
  }

  /** The comment on the processing map promises that it keeps different workers off the same item.
      It does so exactly when there is at most one worker: a worker unmarks the ids of its batch before
      the callback, so the next round of the enqueue loop queues them again. */
  lemma {:induction false} ItemsAreUnsharedIff(c: Config, workers: set<Tid>)
    requires c.capacity > 0
    ensures |workers| <= 1 <==>
      forall s0, es :: StaffedRun(c, workers, s0, es) ==> !SharesItem(Final(c, s0, es))
  {
    if |workers| <= 1 {
      forall s0, es | StaffedRun(c, workers, s0, es) ensures !SharesItem(Final(c, s0, es)) {
        RunKeepsCalls(c, workers, s0, es);
        LoneCaller(Final(c, s0, es), workers);
      }
    } else {
      var s0, es := SharingRun(c, workers);
    }
  }

  lemma {:induction false} LoneCaller(s: State, workers: set<Tid>)
    requires |workers| <= 1 && OnlyWorkersCall(s, workers)
    ensures !SharesItem(s)
  {
    forall t, u, k | HasCall(s, t, k) && HasCall(s, u, k) ensures t == u {
      assert s.threads[t].ops[0] in s.threads[t].ops && s.threads[u].ops[0] in s.threads[u].ops;
      AtMostOne(workers, t, u);
    }
  }

  lemma {:induction false} SharingRun(c: Config, workers: set<Tid>) returns (s0: State, es: seq<Event>)
    requires c.capacity > 0 && |workers| >= 2
    ensures StaffedRun(c, workers, s0, es) && SharesItem(Final(c, s0, es))
  {
    var n, v, w;
    n := Above(workers);
    v, w := TwoOf(workers);
    var g := Crew(c, n, workers, false);
    var s, m := TwoWorkersHoldSameItem(g, n + 1, v, w);
    s0, es :| Leads(g, s0, es, s);
    ObeysWeaker(c, s0, es, Rule(g), StaffRule(workers));
    assert HasCall(s, v, K) && HasCall(s, w, K);
  }

  // ---- terminal values

  /** One event of `t` replaces the terminal value of `K` by a non-terminal one. */
  ghost predicate Reopens(c: Config, s: State, t: Tid) {
    K in s.sh.lru && s.sh.lru[K].terminal && Enabled(c, s, Act(t, NO_CHOICE)) &&
    var lru := Step(c, s, Act(t, NO_CHOICE)).sh.lru; K in lru && !lru[K].terminal
  }

  /** A second worker breaks the absorption of terminal values. */
  lemma {:induction false} TwoWorkersReopenTerminal(g: Crew, a: Tid, v: Tid, w: Tid) returns (s: State)
    requires g.c.capacity > 0 && g.loop !in g.workers && Client(g, a) && v in g.workers && w in g.workers && v != w
    ensures Reachable(g, s) && Reopens(g.c, s, w) && !s.threads[w].ops[0].Call?
  {
    hide Reachable, Unmade;
    var n;
    s, n := TwoWorkersHoldSameItem(g, a, v, w);
    s := Answers(g, s, v, DONE);
    s := AboutToStore(g, s, w, FRESH);
    Fits(g.c, s.sh);
  }

  /** So does a GetOrCreate whose lookup and insertion are two steps, with a single worker. */
  lemma {:induction false} SplitCreateReopensTerminal(g: Crew, a: Tid, b: Tid, v: Tid) returns (s: State)
    requires g.c.capacity > 0 && !g.c.atomicCreate && !g.once && g.loop !in g.workers && v in g.workers
    requires Client(g, a) && Client(g, b) && a != b
    ensures Reachable(g, s) && Reopens(g.c, s, b) && !s.threads[b].ops[0].Call?
  {
    hide Reachable, Unmade, Reopens, Effect;
    var n;
    s := NewCache(g, {g.loop, a, b, v});
    Fits(g.c, s.sh);
    s := Misses(g, s, b, K);
    s := Creates(g, s, a, K);
    s, n := Drains(g, s, v);
    s := RoundAndFetch(g, s, n, v);
    s := Answers(g, s, v, DONE);
    LateInsertion(g, s, b);
  }

  lemma {:induction false} LateInsertion(g: Crew, s: State, b: Tid)
    requires g.c.capacity > 0 && b in s.threads && s.sh.lru == map[K := DONE]
    requires s.threads[b] == Thread([AddNew(K, FRESH)] + AfterAdding(g.c, K), [])
    ensures Reopens(g.c, s, b) && !s.threads[b].ops[0].Call?
  {
    Fits(g.c, s.sh);
    HeadStep(g.c, s, b, AddNew(K, FRESH), AfterAdding(g.c, K), NO_CHOICE);
  }

  lemma {:induction false} ReopeningBreaks(g: Crew, s: State, t: Tid)
    requires Reachable(g, s) && Reopens(g.c, s, t) && !s.threads[t].ops[0].Call?
    ensures !Terminal.Absorbing(g.c, g.workers) && (g.once ==> !Once.AbsorbingOnce(g.c, g.workers))
  {
    var c, rule, e := g.c, Terminal.TameRule(g.workers), Act(t, NO_CHOICE);
    var s0, es :| Leads(g, s0, es, s);
    ObeysWeaker(c, s0, es, Rule(g), rule);
    OneEvent(c, s, e);
    OneObeys(c, s, e, rule);
    assert [e][1..] == [];
    assert Terminal.Present(c, s, [e], K);
    assert Terminal.Settles(c, g.workers, s0, es, [e], K);
    assert !Terminal.Unchanged(c, s0, es, [e], K);
    if g.once { OnceSnoc(es, e); }
  }

  /** Two workers break it in every configuration, with or without repeated creations. */
  lemma {:induction false} TwoWorkersBreak(c: Config, workers: set<Tid>)
    requires c.capacity > 0 && |workers| >= 2
    ensures !Terminal.Absorbing(c, workers) && !Once.AbsorbingOnce(c, workers)
  {
    var n := Above(workers);
    var g := Crew(c, n, workers, true);
    var v, w := TwoOf(workers);
    var s := TwoWorkersReopenTerminal(g, n + 1, v, w);
    ReopeningBreaks(g, s, w);
  }

  lemma {:induction false} TheOne(workers: set<Tid>) returns (w: Tid)
    requires |workers| == 1
    ensures workers == {w}
  {
    w :| w in workers;
    forall t | t in workers ensures t == w { AtMostOne(workers, t, w); }
  }

  /** Terminal values are absorbing exactly when there are no workers, which leaves none to absorb, or
      when there is one and creation is atomic. */
  lemma {:induction false} AbsorbingIff(c: Config, workers: set<Tid>)
    requires c.capacity > 0
    ensures Terminal.Absorbing(c, workers) <==> |workers| == 0 || (|workers| == 1 && c.atomicCreate)
  {
    hide Reachable, Reopens, Terminal.Absorbing;
    if |workers| == 0 {
      Terminal.NoWorkerAbsorbs(c);
    } else if |workers| >= 2 {
      TwoWorkersBreak(c, workers);
    } else {
      var w := TheOne(workers);
      if c.atomicCreate {
        Terminal.OneWorkerAbsorbs(c, w);
      } else {
        var n := Above(workers);
        var g := Crew(c, n, workers, false);
        var s := SplitCreateReopensTerminal(g, n + 1, n + 2, w);
        ReopeningBreaks(g, s, n + 2);
      }
    }
  }

  /** In the documented use, where no id is created twice, one worker is enough and two are too many:
      creation need not be atomic. */
  lemma {:induction false} AbsorbingOnceIff(c: Config, workers: set<Tid>)
    requires c.capacity > 0
    ensures Once.AbsorbingOnce(c, workers) <==> |workers| <= 1
  {
    hide Once.AbsorbingOnce;
    if |workers| == 0 {
      Once.NoWorkerAbsorbsOnce(c);
    } else if |workers| >= 2 {
      TwoWorkersBreak(c, workers);
    } else {
      var w := TheOne(workers);
      Once.OneWorkerAbsorbsOnce(c, w);
    }
  }

  // ---- an eviction during an Update

  /** Some id outside a set. */
  lemma {:induction false} NewId(ids: set<Id>) returns (id: Id)
    ensures forall k :: k in ids ==> |k| < |id|
  {
    if ids == {} {
      id := "a";
    } else {
      var k :| k in ids;
      var longer := NewId(ids - {k});
      assert forall j :: j in ids ==> j == k || j in ids - {k};
      id := if |k| < |longer| then longer else k + "a";
    }
  }

  /** Client `t` creates new items until the cache is full. */
  lemma {:induction false} FillsUp(g: Crew, s: State, t: Tid) returns (s': State)
    requires Reachable(g, s) && !g.once && Client(g, t) && Idle(s, t) && |s.sh.lru| <= g.c.capacity
    ensures Reachable(g, s') && |s'.sh.lru| == g.c.capacity && s.sh.lru.Keys <= s'.sh.lru.Keys
    ensures Apart(s, s', {t}) && Idle(s', t)
    decreases g.c.capacity - |s.sh.lru|
  {
    hide Reachable, Unmade, Created, HasRoom;
    if |s.sh.lru| == g.c.capacity {
      s' := s;
    } else {
      var id := NewId(s.sh.lru.Keys);
      OneMore(g.c, s.sh, id);
      var next := Creates(g, s, t, id);
      s' := FillsUp(g, next, t);
    }
  }

  lemma {:induction false} OneMore(c: Config, sh: Shared, id: Id)
    requires id !in sh.lru && |sh.lru| < c.capacity
    ensures
      var sh' := Created(c, sh, id, FRESH, None);
      HasRoom(c, sh, id) && |sh'.lru| == |sh.lru| + 1 && sh.lru.Keys <= sh'.lru.Keys
  {
    var lru' := sh.lru[id := FRESH];
    assert lru'.Keys == sh.lru.Keys + {id};
    assert |lru'| == |lru'.Keys| && |sh.lru| == |sh.lru.Keys|;
  }

  ghost predicate Arises(c: Config, workers: set<Tid>, s: State) {
    exists s0, es :: StaffedRun(c, workers, s0, es) && Final(c, s0, es) == s
  }

  lemma {:induction false} ArisesStep(c: Config, workers: set<Tid>, s: State, e: Event)
    requires Arises(c, workers, s) && Enabled(c, s, e) && Staffed(workers, e)
    ensures Arises(c, workers, Step(c, s, e))
  {
    var s0, es :| StaffedRun(c, workers, s0, es) && Final(c, s0, es) == s;
    RunSnoc(c, s0, es, e);
    ObeysSnoc(c, s0, es, e, StaffRule(workers));
    assert StaffedRun(c, workers, s0, es + [e]);
  }

  /** Thread `t` has found `K` in the cache and is about to store an answer for it. */
  ghost predicate Storing(s: State, t: Tid) {
    t in s.threads && s.threads[t].ops != [] && s.threads[t].ops[0] == Put(K, FRESH)
  }

  /** A client creates an item, and the full cache evicts `K` for it. */
  lemma {:induction false} Evicts(c: Config, workers: set<Tid>, s: State, t: Tid, v: Tid) returns (s': State)
    requires Arises(c, workers, s) && Idle(s, t) && t !in workers && K in s.sh.lru && |s.sh.lru| == c.capacity
    requires Storing(s, v)
    ensures Arises(c, workers, s') && K !in s'.sh.lru && Storing(s', v)
  {
    hide Arises;
    var id := NewId(s.sh.lru.Keys);
    var create, evict := Start(t, GetOrCreate(id, FRESH)), NO_CHOICE.(victim := Some(K));
    assert id !in s.sh.lru && |s.sh.lru.Keys + {id}| == |s.sh.lru.Keys| + 1;
    ArisesStep(c, workers, s, create);
    s' := Step(c, s, create);
    assert s'.threads[t].ops == [Lookup(id, FRESH)] + [];
    HeadStep(c, s', t, Lookup(id, FRESH), [], evict);
    ArisesStep(c, workers, s', Act(t, evict));
    s' := Step(c, s', Act(t, evict));
    if !c.atomicCreate {
      assert s'.threads[t].ops == [AddNew(id, FRESH)] + AfterAdding(c, id);
      HeadStep(c, s', t, AddNew(id, FRESH), AfterAdding(c, id), evict);
      ArisesStep(c, workers, s', Act(t, evict));
      s' := Step(c, s', Act(t, evict));
    }
  }

  /** Worker `v` is about to store an answer in a full cache, and client `a` is idle. */
  lemma {:induction false} StoringWhenFull(g: Crew, a: Tid, v: Tid) returns (s: State)
    requires g.c.capacity > 0 && !g.once && g.loop !in g.workers && Client(g, a) && v in g.workers
    ensures Reachable(g, s) && Storing(s, v) && Idle(s, a) && K in s.sh.lru && |s.sh.lru| == g.c.capacity
  {
    hide Reachable, Unmade, Effect, Created;
    var n;
    s := NewCache(g, {g.loop, a, v});
    Fits(g.c, s.sh);
    s := Creates(g, s, a, K);
    s, n := Drains(g, s, v);
    s := RoundAndFetch(g, s, n, v);
    s := AboutToStore(g, s, v, FRESH);
    assert |s.sh.lru| == 1;
    s := FillsUp(g, s, a);
  }

  /** For every configuration and every staff there are runs after which an item that was evicted comes
      back although nobody creates it again: an Update was about to store it. */
  lemma {:induction false} EvictedComesBack(c: Config, workers: set<Tid>)
      returns (s0: State, before: seq<Event>, after: seq<Event>)
    requires c.capacity > 0 && workers != {}
    ensures StaffedRun(c, workers, s0, before)
    ensures
      var s := Final(c, s0, before);
      Delete.LockInv(s) && K !in s.sh.lru && Delete.PutPending(s, K) && Delete.ComesBack(c, s, after, K)
  {
    hide Reachable, Delete.LockInv, Delete.ComesBack;
    var n := Above(workers);
    var v :| v in workers;
    var g := Crew(c, n, workers, false);
    var s := StoringWhenFull(g, n + 1, v);
    ReachableArises(g, s);
    s := Evicts(c, workers, s, n + 1, v);
    s0, before :| StaffedRun(c, workers, s0, before) && Final(c, s0, before) == s;
    StartsLocked(s0);
    Delete.RunKeepsLockInv(c, s0, before);
    Delete.ResurrectionIffPutPending(c, s, K);
    after :| Delete.ComesBack(c, s, after, K);
  }

  lemma {:induction false} StartsLocked(s: State)
    requires Init(s)
    ensures Delete.LockInv(s)
  {
  }

  lemma {:induction false} ReachableArises(g: Crew, s: State)
    requires Reachable(g, s)
    ensures Arises(g.c, g.workers, s)
  {
    var s0, es :| Leads(g, s0, es, s);
    ObeysWeaker(g.c, s0, es, Rule(g), StaffRule(g.workers));
    assert StaffedRun(g.c, g.workers, s0, es);
  }

  // ---- queue and marks

  /** Queueing before marking leaves a stale mark when a worker takes the batch in between: no batch
      and no thread holds `K`, yet it counts as being processed until the mark expires. */
  lemma {:induction false} StaleMark(g: Crew, a: Tid, v: Tid) returns (s: State)
    requires g.c.capacity > 0 && !g.c.atomicMark && g.loop !in g.workers && Client(g, a) && v in g.workers
    ensures Reachable(g, s) && K in s.sh.marks && s.sh.queue == map[]
    ensures forall t :: t in s.threads ==> s.threads[t].ops == []
  {
    hide Reachable, Unmade, Created;
    var n;
    s := NewCache(g, {g.loop, a, v});
    Fits(g.c, s.sh);
    s := Creates(g, s, a, K);
    s, n := Drains(g, s, v);
    s := MarksLate(g, s, n, v);
  }

  /** The worker takes the batch before the loop marks it. */
  lemma {:induction false} MarksLate(g: Crew, s: State, n: nat, v: Tid) returns (s': State)
    requires Reachable(g, s) && !g.c.atomicMark && g.loop !in g.workers && Idle(s, g.loop) && Waiting(s.sh, n)
    requires v in g.workers && Idle(s, v)
    ensures Reachable(g, s') && K in s'.sh.marks && s'.sh.queue == map[]
    ensures Apart(s, s', {g.loop, v}) && Idle(s', g.loop) && Idle(s', v)
  {
    hide Reachable;
    SingleOps(g.c, K);
    s' := Cuts(g, s, n);
    s' := Passes(g, s', g.loop, Enqueue([K]), [Mark(K)]);
    s' := Fetches(g, s', v, n);
    assert s'.sh.queue == map[];
    s' := Fails(g, s', v);
    assert s'.threads[g.loop].ops == [Mark(K)] + [];
    s' := Passes(g, s', g.loop, Mark(K), []);
  }

  /** Two clients that create the same item at once queue it twice. */
  lemma {:induction false} QueuedTwice(g: Crew, a: Tid, b: Tid) returns (s: State)
    requires g.c.capacity > 0 && g.c.syncOnCreate && !g.c.atomicCreate && !g.once
    requires Client(g, a) && Client(g, b) && a != b
    ensures Reachable(g, s) && 0 in s.sh.queue && 1 in s.sh.queue && s.sh.queue[0] == s.sh.queue[1] == [K]
  {
    hide Reachable, Unmade;
    s := NewCache(g, {a, b});
    Fits(g.c, s.sh);
    s := Misses(g, s, a, K);
    s := Misses(g, s, b, K);
    s := InsertsAndQueues(g, s, a, K);
    Fits(g.c, s.sh);
    s := InsertsAndQueues(g, s, b, K);
  }

  ghost predicate CalmlyLeads(c: Config, q: Tid, s0: State, es: seq<Event>) {
    Init(s0) && Run(c, s0, es) && Marks.CalmRun(c, s0, q, es)
  }

  lemma {:induction false} CalmlyReached(g: Crew, s: State) returns (s0: State, es: seq<Event>)
    requires Reachable(g, s)
    ensures CalmlyLeads(g.c, g.loop, s0, es) && Final(g.c, s0, es) == s
  {
    s0, es :| Leads(g, s0, es, s);
    ObeysWeaker(g.c, s0, es, Rule(g), Marks.CalmRule(g.c, g.loop));
  }

  lemma {:induction false} SplitMarksDisagree(c: Config) returns (q: Tid, s0: State, es: seq<Event>)
    requires c.capacity > 0 && !c.atomicMark
    ensures CalmlyLeads(c, q, s0, es) && !Marks.Agree(Final(c, s0, es))
  {
    var g := Crew(c, 0, {2}, false);
    q := 0;
    var s := StaleMark(g, 1, 2);
    assert forall t :: t in s.threads ==> Places.UnmarkIds(s.threads[t].ops) == [];
    assert forall ref :: ref !in s.sh.queue;
    s0, es := CalmlyReached(g, s);
  }

  lemma {:induction false} SplitCreationDisagrees(c: Config) returns (q: Tid, s0: State, es: seq<Event>)
    requires c.capacity > 0 && c.syncOnCreate && !c.atomicCreate
    ensures CalmlyLeads(c, q, s0, es) && !Marks.Apart(Final(c, s0, es).sh.queue)
  {
    var g := Crew(c, 0, {}, false);
    q := 0;
    var s := QueuedTwice(g, 1, 2);
    assert K in s.sh.queue[0] && K in s.sh.queue[1];
    s0, es := CalmlyReached(g, s);
  }

  /** What the code as it stands keeps in calm runs, or would keep: queued batches are apart exactly when a
      creation that queues its item is one step. How the loop marks its batches does not matter. */
  lemma {:induction false} QueuedApartIff(c: Config)
    requires c.capacity > 0
    ensures c.atomicCreate || !c.syncOnCreate <==>
      forall q, s0, es :: CalmlyLeads(c, q, s0, es) ==> Marks.Apart(Final(c, s0, es).sh.queue)
  {
    hide Marks.Apart;
    if c.atomicCreate || !c.syncOnCreate {
      forall q, s0, es | CalmlyLeads(c, q, s0, es) ensures Marks.Apart(Final(c, s0, es).sh.queue) {
        Marks.QueueStaysApart(c, s0, q, es);
      }
    } else {
      var q, s0, es := SplitCreationDisagrees(c);
    }
  }

  /** Queue and marks agree in all calm runs exactly when a batch is marked as it is queued, both by the
      enqueue loop and, if creations queue at all, by a creation. */
  lemma {:induction false} AgreementIff(c: Config)
    requires c.capacity > 0
    ensures c.atomicMark && (c.atomicCreate || !c.syncOnCreate) <==>
      forall q, s0, es :: CalmlyLeads(c, q, s0, es) ==> Marks.Agree(Final(c, s0, es))
  {
    if c.atomicMark && (c.atomicCreate || !c.syncOnCreate) {
      forall q, s0, es | CalmlyLeads(c, q, s0, es) ensures Marks.Agree(Final(c, s0, es)) {
        Marks.QueueAndMarksAgree(c, s0, q, es);
      }
    } else {
      var q, s0, es;
      if c.atomicMark { q, s0, es := SplitCreationDisagrees(c); } else { q, s0, es := SplitMarksDisagree(c); }
    }
  }
}

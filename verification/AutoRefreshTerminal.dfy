/** With one worker, a terminal value stays in the cache unchanged until its key is evicted, deleted or
    inserted late by a creation that missed it before, however many stale batches are still queued. */
module AutoRefreshTerminal {
  import opened Options
  import opened AutoRefreshMachine

  predicate Writes(op: Op) {
    op.Contains? || op.Put?
  }

  /** The ids that an operation list is going to overwrite, in order. */
  ghost function WriteIds(ops: seq<Op>): seq<Id>
    decreases |ops|
  {
    if ops == [] then []
    else (if Writes(ops[0]) then [ops[0].id] else []) + WriteIds(ops[1..])
  }

  ghost function AnswerIds(answers: seq<Answer>): seq<Id> {
    seq(|answers|, i requires 0 <= i < |answers| => answers[i].id)
  }

  /** No terminal value is stored under `k`. */
  ghost predicate Open(sh: Shared, k: Id) {
    k in sh.lru ==> !sh.lru[k].terminal
  }

  ghost predicate Outside(op: Op) {
    !Writes(op) && !op.Call? && !op.Fetch?
  }

  /** An item is created non-terminal. */
  ghost predicate Clean(op: Op) {
    op.Lookup? || op.AddNew? ==> !op.item.terminal
  }

  ghost predicate Screening(op: Op) {
    op.Unmark? || op.Screen? || op.Call?
  }

  /** What the single worker may be in the middle of. */
  ghost predicate WorkerOk(sh: Shared, th: Thread) {
    NoDup(WriteIds(th.ops)) &&
    (forall k :: k in WriteIds(th.ops) ==> Open(sh, k)) &&
    (forall op :: op in th.ops && op.Fetch? ==> |th.ops| == 1) &&
    (forall i :: 0 <= i < |th.ops| && th.ops[i].Call? ==> i == |th.ops| - 1) &&
    (forall op :: op in th.ops && op.Call? ==>
      (forall p :: p in th.ops ==> Screening(p)) && WriteIds(th.ops) == [] &&
      forall k :: k in th.picked ==> Open(sh, k))
  }

  ghost predicate Inv(s: State, w: Tid) {
    forall t :: t in s.threads ==>
      (forall op :: op in s.threads[t].ops ==> Clean(op)) &&
      (if t == w then WorkerOk(s.sh, s.threads[t])
       else forall op :: op in s.threads[t].ops ==> Outside(op))
  }

  /** What is asked of clients and callbacks: items are created non-terminal, nobody outside calls
      Update, and a callback answers at most once for each id of its batch and for no other id. */
  ghost predicate Tame(s: State, e: Event) {
    match e
    case Start(t, GetOrCreate(_, item)) => !item.terminal
    case Start(t, Update(_, _)) => false
    case Act(t, choice) =>
      Executes(s, e) == Some(Call) && choice.answers.Some? ==>
        NoDup(AnswerIds(choice.answers.value)) &&
        forall k :: k in AnswerIds(choice.answers.value) ==> k in s.threads[t].picked
    case _ => true
  }

  /** Such a use in which no thread but `w` is a worker. */
  ghost predicate SingleWorker(s: State, w: Tid, e: Event) {
    Tame(s, e) && (e.Start? && e.api.SyncOnce? ==> e.t == w)
  }

  lemma {:induction false} WriteIdsAppend(a: seq<Op>, b: seq<Op>)
    ensures WriteIds(a + b) == WriteIds(a) + WriteIds(b)
    decreases |a|
  {
    if a == [] {
      assert a + b == b;
    } else {
      assert (a + b)[0] == a[0] && (a + b)[1..] == a[1..] + b;
      WriteIdsAppend(a[1..], b);
    }
  }

  lemma {:induction false} NoWriteIds(ops: seq<Op>)
    requires forall op :: op in ops ==> !Writes(op)
    ensures WriteIds(ops) == []
    decreases |ops|
  {
    if ops != [] {
      assert ops[0] in ops;
      NoWriteIds(ops[1..]);
    }
  }

  lemma {:induction false} UpdateOpsWrite(id: Id, item: Item)
    ensures WriteIds(UpdateOps(id, item)) == [id]
  {
    var ops := UpdateOps(id, item);
    assert ops[1..] == [Contains(id, item), Unlock];
    assert ops[1..][1..] == [Unlock];
    NoWriteIds([Unlock]);
  }

  lemma {:induction false} AnswerOpsWrite(answers: seq<Answer>)
    ensures WriteIds(AnswerOps(answers)) == AnswerIds(answers)
    decreases |answers|
  {
    hide UpdateOps, WriteIds;
    if answers == [] {
      NoWriteIds([]);
    } else {
      var first := answers[0];
      UpdateOpsWrite(first.id, first.item);
      AnswerOpsWrite(answers[1..]);
      WriteIdsAppend(UpdateOps(first.id, first.item), AnswerOps(answers[1..]));
      assert AnswerIds(answers) == [first.id] + AnswerIds(answers[1..]);
    }
  }

  lemma {:induction false} PushedKinds(c: Config, sh: Shared, picked: seq<Id>, op: Op, choice: Choice)
    ensures forall p :: p in Pushed(c, sh, picked, op, choice) ==> !p.Fetch? && (Clean(op) ==> Clean(p))
    ensures !op.Contains? && !op.Call? ==> forall p :: p in Pushed(c, sh, picked, op, choice) ==> !Writes(p)
    ensures !op.Fetch? ==> forall p :: p in Pushed(c, sh, picked, op, choice) ==> !p.Call?
  {
    hide Pushed;
    PushedFollows(c, sh, picked, op, choice);
  }

  lemma {:induction false} InsertOnEntry(sh: Shared, id: Id, item: Item, victim: Option<Id>, k: Id)
    requires k in Insert(sh, id, item, victim).lru
    ensures
      var lru' := Insert(sh, id, item, victim).lru;
      if k == id then lru'[k] == item else k in sh.lru && lru'[k] == sh.lru[k]
  {
  }

  lemma {:induction false} LookupOnEntry(c: Config, sh: Shared, t: Tid, op: Op, choice: Choice, k: Id)
    requires op.Lookup? && k in Effect(c, sh, t, op, choice).lru
    ensures
      var lru' := Effect(c, sh, t, op, choice).lru;
      (k in sh.lru && lru'[k] == sh.lru[k]) || (op.id == k && k !in sh.lru && lru'[k] == op.item)
  {
    if op.id !in sh.lru && c.atomicCreate { InsertOnEntry(sh, op.id, op.item, choice.victim, k); }
  }

  /** The only ways in which an entry of the LRU map can change. */
  lemma {:induction false} EffectOnEntry(c: Config, sh: Shared, t: Tid, op: Op, choice: Choice, k: Id)
    requires k in Effect(c, sh, t, op, choice).lru
    ensures
      var lru' := Effect(c, sh, t, op, choice).lru;
      || (k in sh.lru && lru'[k] == sh.lru[k])
      || (op.Lookup? && op.id == k && k !in sh.lru && lru'[k] == op.item)
      || (op.AddNew? && op.id == k && lru'[k] == op.item)
      || (op.Put? && op.id == k)
  {
    if op.Lookup? {
      LookupOnEntry(c, sh, t, op, choice, k);
    } else if op.Put? || op.AddNew? {
      InsertOnEntry(sh, op.id, op.item, choice.victim, k);
    }
  }

  /** The entries that no Put touches stay open. */
  ghost predicate KeepsOpen(sh: Shared, sh': Shared, op: Op) {
    forall k :: Open(sh, k) && !(op.Put? && op.id == k) ==> Open(sh', k)
  }

  lemma {:induction false} EffectKeepsOpen(c: Config, sh: Shared, t: Tid, op: Op, choice: Choice)
    requires Clean(op)
    ensures KeepsOpen(sh, Effect(c, sh, t, op, choice), op)
  {
    forall k | Open(sh, k) && !(op.Put? && op.id == k) && k in Effect(c, sh, t, op, choice).lru
      ensures Open(Effect(c, sh, t, op, choice), k)
    {
      EffectOnEntry(c, sh, t, op, choice, k);
    }
  }

  /** Nothing that is pushed writes: the ids to write are those of the rest. */
  lemma {:induction false} PlainWriteIds(ops: seq<Op>, pushed: seq<Op>)
    requires ops != [] && NoDup(WriteIds(ops)) && forall p :: p in pushed ==> Outside(p)
    ensures
      var ids, ids' := WriteIds(ops), WriteIds(pushed + ops[1..]);
      NoDup(ids') && (forall k :: k in ids' ==> k in ids) &&
      (Writes(ops[0]) ==> ops[0].id !in ids') && (ids == [] ==> ids' == [])
  {
    var rest := WriteIds(ops[1..]);
    NoWriteIds(pushed);
    WriteIdsAppend(pushed, ops[1..]);
    var first := if Writes(ops[0]) then 1 else 0;
    assert WriteIds(ops) == (if Writes(ops[0]) then [ops[0].id] else []) + rest;
    assert forall i :: 0 <= i < |rest| ==> rest[i] == WriteIds(ops)[i + first];
    assert Writes(ops[0]) ==> WriteIds(ops)[0] == ops[0].id;
  }

  /** Nothing that is pushed calls or fetches: a call stays at the end. */
  lemma {:induction false} PlainShape(ops: seq<Op>, pushed: seq<Op>)
    requires ops != [] && (forall p :: p in pushed ==> Outside(p))
    requires forall op :: op in ops && op.Fetch? ==> |ops| == 1
    requires forall i :: 0 <= i < |ops| && ops[i].Call? ==> i == |ops| - 1
    ensures
      var ops' := pushed + ops[1..];
      && (forall p :: p in ops' ==> p in pushed || p in ops)
      && (forall p :: p in ops' ==> !p.Fetch?)
      && (forall i :: 0 <= i < |ops'| && ops'[i].Call? ==> i == |ops'| - 1)
      && (forall p :: p in ops' && p.Call? ==> p in ops)
  {
    var ops' := pushed + ops[1..];
    assert forall p :: p in ops' <==> p in pushed || p in ops[1..];
    assert forall p :: p in ops[1..] ==> p in ops;
    assert forall i :: 0 <= i < |pushed| ==> ops'[i] == pushed[i] && pushed[i] in pushed;
    forall i | 0 <= i < |ops'| && ops'[i].Call? ensures i == |ops'| - 1 {
      assert ops[i - |pushed| + 1] == ops'[i];
    }
    forall p | p in ops[1..] ensures !p.Fetch? {
      assert p in ops;
    }
  }

  /** The worker performs an operation that pushes nothing of interest. */
  lemma {:induction false} WorkerPlain(sh: Shared, sh': Shared, th: Thread, pushed: seq<Op>, picked': seq<Id>)
    requires th.ops != [] && WorkerOk(sh, th) && KeepsOpen(sh, sh', th.ops[0])
    requires forall p :: p in pushed ==> Outside(p)
    requires Screening(th.ops[0]) ==>
      pushed == [] && forall k :: k in picked' ==> k in th.picked || Open(sh, k)
    ensures WorkerOk(sh', Thread(pushed + th.ops[1..], picked'))
  {
    var op, ops' := th.ops[0], pushed + th.ops[1..];
    PlainWriteIds(th.ops, pushed);
    PlainShape(th.ops, pushed);
    assert op in th.ops;
    forall p | p in ops' && p.Call?
      ensures (forall r :: r in ops' ==> Screening(r)) && WriteIds(ops') == [] &&
        forall k :: k in picked' ==> Open(sh', k)
    {
      assert p in th.ops && Screening(op);
    }
  }

  lemma {:induction false} WorkerContains(sh: Shared, sh': Shared, th: Thread, put: Op)
    requires th.ops != [] && WorkerOk(sh, th) && th.ops[0].Contains? && KeepsOpen(sh, sh', th.ops[0])
    requires put.Put? && put.id == th.ops[0].id
    ensures WorkerOk(sh', Thread([put] + th.ops[1..], th.picked))
  {
    var ops' := [put] + th.ops[1..];
    assert ops'[1..] == th.ops[1..];
    assert WriteIds(ops') == WriteIds(th.ops);
    assert th.ops[0] in th.ops;
    forall p | p in ops' ensures !p.Fetch? && !p.Call? {
      if p != put { assert p in th.ops[1..] && p in th.ops; }
    }
  }

  lemma {:induction false} WorkerFetches(sh': Shared, batch: Batch)
    ensures WorkerOk(sh', Thread(ScreenOps(batch) + [Call], []))
  {
    ScreenOpsKinds(batch);
    var ops := ScreenOps(batch) + [Call];
    NoWriteIds(ops);
    forall i | 0 <= i < |ops|
      ensures Screening(ops[i]) && (ops[i].Call? ==> i == |ops| - 1) && !ops[i].Fetch?
    {
      if i < |ScreenOps(batch)| { assert ops[i] == ScreenOps(batch)[i]; }
    }
  }

  lemma {:induction false} WorkerCalls(sh: Shared, th: Thread, answers: seq<Answer>)
    requires th.ops == [Call] && WorkerOk(sh, th)
    requires NoDup(AnswerIds(answers)) && forall k :: k in AnswerIds(answers) ==> k in th.picked
    ensures WorkerOk(sh, Thread(AnswerOps(answers) + [Sweep], th.picked))
  {
    assert Call in th.ops;
    AnswerOpsKinds(answers);
    AnswerOpsWrite(answers);
    WriteIdsAppend(AnswerOps(answers), [Sweep]);
    NoWriteIds([Sweep]);
  }

  lemma {:induction false} WorkerActs(c: Config, s: State, w: Tid, choice: Choice)
    requires Inv(s, w) && Enabled(c, s, Act(w, choice)) && SingleWorker(s, w, Act(w, choice))
    ensures var s' := Step(c, s, Act(w, choice)); WorkerOk(s'.sh, s'.threads[w])
  {
    var th := s.threads[w];
    var op, rest := th.ops[0], th.ops[1..];
    var sh' := Effect(c, s.sh, w, op, choice);
    var pushed := Pushed(c, s.sh, th.picked, op, choice);
    assert op in th.ops;
    EffectKeepsOpen(c, s.sh, w, op, choice);
    if op.Fetch? {
      assert rest == [] && pushed + rest == pushed;
      WorkerFetches(sh', if choice.ref in s.sh.queue then s.sh.queue[choice.ref] else []);
    } else if op.Call? && pushed != [] {
      assert th.ops == [Call] && pushed + rest == pushed;
      WorkerCalls(s.sh, th, choice.answers.value);
    } else if op.Contains? && pushed != [] {
      WorkerContains(s.sh, sh', th, pushed[0]);
    } else {
      PushedKinds(c, s.sh, th.picked, op, choice);
      WorkerPlain(s.sh, sh', th, pushed, Picks(s.sh, th.picked, op));
    }
  }

  lemma {:induction false} ProgramOk(sh: Shared, api: Api, picked: seq<Id>)
    requires !api.Update?
    requires api.GetOrCreate? ==> !api.item.terminal
    ensures forall op :: op in Program(api) ==> Clean(op) && !Writes(op) && !op.Call?
    ensures !api.SyncOnce? ==> forall op :: op in Program(api) ==> Outside(op)
    ensures api.SyncOnce? ==> Program(api) == [Fetch]
    ensures WorkerOk(sh, Thread(Program(api), picked))
  {
    var ops := Program(api);
    if api.Delete? {
      assert ops == [Lock, Unflag(api.id), Remove(api.id), Unlock];
    } else {
      assert |ops| == 1 && forall op :: op in ops ==> op == ops[0];
    }
    NoWriteIds(ops);
  }

  lemma {:induction false} StartKeepsInv(c: Config, s: State, t: Tid, api: Api, w: Tid)
    requires Inv(s, w) && Enabled(c, s, Start(t, api)) && SingleWorker(s, w, Start(t, api))
    ensures Inv(Step(c, s, Start(t, api)), w)
  {
    ProgramOk(s.sh, api, []);
  }

  lemma {:induction false} ActKeepsInv(c: Config, s: State, t: Tid, choice: Choice, w: Tid)
    requires Inv(s, w) && Enabled(c, s, Act(t, choice)) && SingleWorker(s, w, Act(t, choice))
    ensures Inv(Step(c, s, Act(t, choice)), w)
  {
    var th := s.threads[t];
    var op, pushed := th.ops[0], Pushed(c, s.sh, th.picked, th.ops[0], choice);
    var sh' := Effect(c, s.sh, t, op, choice);
    assert op in th.ops && forall p :: p in th.ops[1..] ==> p in th.ops;
    PushedKinds(c, s.sh, th.picked, op, choice);
    EffectKeepsOpen(c, s.sh, t, op, choice);
    if t == w {
      WorkerActs(c, s, w, choice);
    } else if w in s.threads {
      assert WorkerOk(sh', s.threads[w]);
    }
  }

  lemma {:induction false} StepKeepsInv(c: Config, s: State, e: Event, w: Tid)
    requires Inv(s, w) && Enabled(c, s, e) && SingleWorker(s, w, e)
    ensures Inv(Step(c, s, e), w)
  {
    match e
    case Start(t, api) => StartKeepsInv(c, s, t, api, w);
    case Tick(_) =>
    case Act(t, choice) => ActKeepsInv(c, s, t, choice, w);
  }

  ghost function SingleRule(w: Tid): (State, Event) -> bool {
    (s: State, e: Event) => SingleWorker(s, w, e)
  }

  ghost predicate SingleWorkerRun(c: Config, s: State, w: Tid, es: seq<Event>)
    requires Run(c, s, es)
  {
    Obeys(c, s, es, SingleRule(w))
  }

  lemma {:induction false} RunKeepsInv(c: Config, s: State, w: Tid, es: seq<Event>)
    requires Inv(s, w) && Run(c, s, es) && SingleWorkerRun(c, s, w, es)
    ensures Inv(Final(c, s, es), w)
    decreases |es|
  {
    if es != [] {
      StepKeepsInv(c, s, es[0], w);
      RunKeepsInv(c, Step(c, s, es[0]), w, es[1..]);
    }
  }

  /** `k` never leaves the cache during the run. */
  ghost predicate Present(c: Config, s: State, es: seq<Event>, k: Id)
    requires Run(c, s, es)
    decreases |es|
  {
    k in s.sh.lru && (es != [] ==> Present(c, Step(c, s, es[0]), es[1..], k))
  }

  /** A creation of `k` inserts although `k` is in the cache by now. */
  ghost predicate InsertsLate(s: State, e: Event, k: Id) {
    var op := Executes(s, e);
    op.Some? && op.value.AddNew? && op.value.id == k && k in s.sh.lru
  }

  ghost function NeverLate(k: Id): (State, Event) -> bool {
    (s: State, e: Event) => !InsertsLate(s, e, k)
  }

  lemma {:induction false} StepKeepsTerminal(c: Config, s: State, e: Event, w: Tid, k: Id)
    requires Inv(s, w) && Enabled(c, s, e) && !InsertsLate(s, e, k)
    requires k in s.sh.lru && s.sh.lru[k].terminal && k in Step(c, s, e).sh.lru
    ensures Step(c, s, e).sh.lru[k] == s.sh.lru[k]
  {
    if e.Act? {
      var ops := s.threads[e.t].ops;
      assert ops[0] in ops;
      assert ops[0].Put? ==> WriteIds(ops)[0] == ops[0].id && ops[0].id in WriteIds(ops);
      EffectOnEntry(c, s.sh, e.t, ops[0], e.choice, k);
    }
  }

  lemma {:induction false} TerminalStays(c: Config, s: State, w: Tid, es: seq<Event>, k: Id)
    requires Inv(s, w) && Run(c, s, es) && SingleWorkerRun(c, s, w, es)
    requires Present(c, s, es, k) && s.sh.lru[k].terminal && Obeys(c, s, es, NeverLate(k))
    ensures Present(c, s, es, k) && k in Final(c, s, es).sh.lru && Final(c, s, es).sh.lru[k] == s.sh.lru[k]
    decreases |es|
  {
    if es != [] {
      StepKeepsTerminal(c, s, es[0], w, k);
      StepKeepsInv(c, s, es[0], w);
      TerminalStays(c, Step(c, s, es[0]), w, es[1..], k);
    }
  }

  /** Terminal is absorbing: in every run with one worker, a terminal value once in the cache is the
      value found there at any later time, unless its key leaves the cache or is inserted late. */
  lemma {:induction false} TerminalIsAbsorbing(c: Config, s0: State, w: Tid, before: seq<Event>, after: seq<Event>,
        k: Id)
    requires Init(s0) && Run(c, s0, before) && SingleWorkerRun(c, s0, w, before)
    requires var s := Final(c, s0, before);
      Run(c, s, after) && SingleWorkerRun(c, s, w, after) && Present(c, s, after, k) && s.sh.lru[k].terminal &&
      Obeys(c, s, after, NeverLate(k))
    ensures
      var s := Final(c, s0, before);
      var s' := Final(c, s, after);
      k in s.sh.lru && k in s'.sh.lru && s'.sh.lru[k] == s.sh.lru[k]
  {
    RunKeepsInv(c, s0, w, before);
    TerminalStays(c, Final(c, s0, before), w, after, k);
  }

  // ---- late insertions

  /** The threads that are between the lookup and the insertion of a creation. */
  ghost predicate NoneCreating(s: State) {
    forall t, op :: t in s.threads && op in s.threads[t].ops ==> !op.AddNew?
  }

  /** With atomic creation nothing is inserted late. */
  lemma {:induction false} AtomicIsNeverLate(c: Config, s: State, es: seq<Event>, k: Id)
    requires c.atomicCreate && NoneCreating(s) && Run(c, s, es)
    ensures Obeys(c, s, es, NeverLate(k)) && NoneCreating(Final(c, s, es))
    decreases |es|
  {
    if es != [] {
      StepKeepsNoneCreating(c, s, es[0]);
      assert !InsertsLate(s, es[0], k);
      AtomicIsNeverLate(c, Step(c, s, es[0]), es[1..], k);
    }
  }

  lemma {:induction false} StepKeepsNoneCreating(c: Config, s: State, e: Event)
    requires c.atomicCreate && NoneCreating(s) && Enabled(c, s, e)
    ensures NoneCreating(Step(c, s, e)) && forall k :: !InsertsLate(s, e, k)
  {
    if e.Act? {
      var th := s.threads[e.t];
      assert th.ops[0] in th.ops && forall p :: p in th.ops[1..] ==> p in th.ops;
      PushedFollows(c, s.sh, th.picked, th.ops[0], e.choice);
    }
  }

  // ---- any number of workers

  /** A tame use in which exactly the threads of `workers` run the sync loop. */
  ghost function TameRule(workers: set<Tid>): (State, Event) -> bool {
    (s: State, e: Event) => Tame(s, e) && Staffed(workers, e)
  }

  ghost predicate TameRun(c: Config, s: State, workers: set<Tid>, es: seq<Event>) {
    Run(c, s, es) && Obeys(c, s, es, TameRule(workers))
  }

  /** After `before`, a terminal value is stored under `k`, which then stays in the cache. */
  ghost predicate Settles(c: Config, workers: set<Tid>, s0: State, before: seq<Event>, after: seq<Event>, k: Id) {
    Init(s0) && TameRun(c, s0, workers, before) && TameRun(c, Final(c, s0, before), workers, after) &&
    Present(c, Final(c, s0, before), after, k) && Final(c, s0, before).sh.lru[k].terminal
  }

  ghost predicate Unchanged(c: Config, s0: State, before: seq<Event>, after: seq<Event>, k: Id)
    requires Run(c, s0, before) && Run(c, Final(c, s0, before), after) && k in Final(c, s0, before).sh.lru
  {
    var s' := Final(c, Final(c, s0, before), after);
    k in s'.sh.lru && s'.sh.lru[k] == Final(c, s0, before).sh.lru[k]
  }

  /** With these workers, a terminal value never changes while its key is in the cache. */
  ghost predicate Absorbing(c: Config, workers: set<Tid>) {
    forall s0, before, after, k :: Settles(c, workers, s0, before, after, k) ==> Unchanged(c, s0, before, after, k)
  }

  lemma {:induction false} OneWorkerAbsorbs(c: Config, w: Tid)
    requires c.atomicCreate
    ensures Absorbing(c, {w})
  {
    forall s0, before, after, k | Settles(c, {w}, s0, before, after, k) ensures Unchanged(c, s0, before, after, k) {
      AtomicIsNeverLate(c, s0, before, k);
      AtomicIsNeverLate(c, Final(c, s0, before), after, k);
      LoneWorkerSettles(c, w, s0, before, after, k);
    }
  }

  lemma {:induction false} LoneWorkerSettles(c: Config, w: Tid, s0: State, before: seq<Event>, after: seq<Event>, k: Id)
    requires Settles(c, {w}, s0, before, after, k) && Obeys(c, Final(c, s0, before), after, NeverLate(k))
    ensures Unchanged(c, s0, before, after, k)
  {
    ObeysWeaker(c, s0, before, TameRule({w}), SingleRule(w));
    ObeysWeaker(c, Final(c, s0, before), after, TameRule({w}), SingleRule(w));
    TerminalIsAbsorbing(c, s0, w, before, after, k);
  }

  /** Without workers nobody ever stores a terminal value. */
  ghost predicate AllOpen(s: State) {
    (forall k :: Open(s.sh, k)) &&
    forall t, op :: t in s.threads && op in s.threads[t].ops ==> Outside(op) && Clean(op)
  }

  lemma {:induction false} ActKeepsAllOpen(c: Config, s: State, t: Tid, choice: Choice)
    requires AllOpen(s) && Enabled(c, s, Act(t, choice))
    ensures AllOpen(Step(c, s, Act(t, choice)))
  {
    hide Effect, Pushed, Picks, CanDo;
    var th := s.threads[t];
    var op, sh' := th.ops[0], Effect(c, s.sh, t, th.ops[0], choice);
    assert op in th.ops && forall p :: p in th.ops[1..] ==> p in th.ops;
    assert Outside(op) && Clean(op);
    PushedKinds(c, s.sh, th.picked, op, choice);
    EffectKeepsOpen(c, s.sh, t, op, choice);
    forall k ensures Open(sh', k) {
      assert Open(s.sh, k);
    }
  }

  lemma {:induction false} StepKeepsAllOpen(c: Config, s: State, e: Event)
    requires AllOpen(s) && Enabled(c, s, e) && TameRule({})(s, e)
    ensures AllOpen(Step(c, s, e))
  {
    match e
    case Start(t, api) => ProgramOk(s.sh, api, []);
    case Tick(_) =>
      forall k ensures Open(Step(c, s, e).sh, k) {
        assert Open(s.sh, k);
      }
    case Act(t, choice) => ActKeepsAllOpen(c, s, t, choice);
  }

  lemma {:induction false} RunKeepsAllOpen(c: Config, s: State, es: seq<Event>)
    requires AllOpen(s) && TameRun(c, s, {}, es)
    ensures AllOpen(Final(c, s, es))
    decreases |es|
  {
    if es != [] {
      StepKeepsAllOpen(c, s, es[0]);
      RunKeepsAllOpen(c, Step(c, s, es[0]), es[1..]);
    }
  }

  lemma {:induction false} NoWorkerNeverSettles(c: Config, s0: State, before: seq<Event>, after: seq<Event>, k: Id)
    ensures !Settles(c, {}, s0, before, after, k)
  {
    if Init(s0) && TameRun(c, s0, {}, before) {
      RunKeepsAllOpen(c, s0, before);
      assert Open(Final(c, s0, before).sh, k);
    }
  }

  lemma {:induction false} NoWorkerAbsorbs(c: Config)
    ensures Absorbing(c, {})
  {
    forall s0, before, after, k ensures !Settles(c, {}, s0, before, after, k) {
      NoWorkerNeverSettles(c, s0, before, after, k);
    }
  }
}

/** The auto-refresh cache as a concurrent state machine. Every thread runs a list of atomic
    operations; one event executes the first operation of one thread, so events interleave the
    operations of all clients, all workers and the enqueue loop in every possible way. */
module AutoRefreshMachine {
  import opened Options

  type Id = string
  type Tid = nat
  type Batch = seq<Id>

  datatype Item = Item(payload: int, terminal: bool)

  datatype Answer = Answer(id: Id, item: Item)

  /** `atomicCreate` and `atomicMark` are false for the code as written. They describe a stronger
      cache, which some theorems compare it with: GetOrCreate runs as one step, and the enqueue loop marks
      the ids of a batch in the step that queues it. */
  datatype Config = Config(
    capacity: nat,
    syncOnCreate: bool,
    period: nat,
    atomicCreate: bool,
    atomicMark: bool)

  /** One atomic access to one of the shared structures. */
  datatype Op =
    // GetOrCreate
    | Lookup(id: Id, item: Item)
    | AddNew(id: Id, item: Item)
    | Enqueue(batch: Batch)
    | Mark(id: Id)
    // Update and Delete, between Lock and Unlock
    | Lock
    | Unlock
    | Contains(id: Id, item: Item)
    | Put(id: Id, item: Item)
    | Unflag(id: Id)
    | Remove(id: Id)
    // DeleteDelayed
    | Flag(id: Id)
    // the enqueue loop
    | ListKeys
    | Consider(id: Id)
    | Peek(id: Id)
    | CheckMark(id: Id)
    | Expire(id: Id)
    | MakeBatches
    // a worker
    | Fetch
    | Unmark(id: Id)
    | Screen(id: Id)
    | Call
    | Sweep

  /** What a thread still has to do, and the ids it has collected: the snapshot of the enqueue
      loop, or the batch a worker is going to pass to the callback. */
  datatype Thread = Thread(ops: seq<Op>, picked: seq<Id>)

  /** `queue` maps the address of each waiting batch to its ids; a worker may get any of them,
      because rate limiting delays batches by arbitrary amounts. */
  datatype Shared = Shared(
    lru: map<Id, Item>,
    marks: map<Id, int>,
    toDelete: set<Id>,
    queue: map<nat, Batch>,
    nextBatch: nat,
    clock: int,
    holder: Option<Tid>)

  datatype State = State(sh: Shared, threads: map<Tid, Thread>)

  datatype Api =
    | GetOrCreate(id: Id, item: Item)
    | Update(id: Id, item: Item)
    | Delete(id: Id)
    | DeleteDelayed(id: Id)
    | EnqueueBatches
    | SyncOnce

  /** The outcomes that the machine does not determine: which entry the LRU map evicts, which
      batch the queue hands out, the order of the listed keys, how the snapshot is cut into
      batches, what the callback answers (None: it failed), which flagged key is visited next. */
  datatype Choice = Choice(
    victim: Option<Id>,
    ref: nat,
    keys: seq<Id>,
    batches: seq<Batch>,
    answers: Option<seq<Answer>>,
    next: Option<Id>)

  const NO_CHOICE := Choice(None, 0, [], [], None, None)

  datatype Event =
    | Start(t: Tid, api: Api)
    | Act(t: Tid, choice: Choice)
    | Tick(elapsed: nat)

  function UpdateOps(id: Id, item: Item): seq<Op> {
    [Lock, Contains(id, item), Unlock]
  }

  function DeleteOps(id: Id): seq<Op> {
    [Lock, Unflag(id), Remove(id), Unlock]
  }

  function Program(api: Api): seq<Op> {
    match api
    case GetOrCreate(id, item) => [Lookup(id, item)]
    case Update(id, item) => UpdateOps(id, item)
    case Delete(id) => DeleteOps(id)
    case DeleteDelayed(id) => [Flag(id)]
    case EnqueueBatches => [ListKeys]
    case SyncOnce => [Fetch]
  }

  function MarkOps(ids: seq<Id>): seq<Op> {
    seq(|ids|, i requires 0 <= i < |ids| => Mark(ids[i]))
  }

  function ConsiderOps(ids: seq<Id>): seq<Op> {
    seq(|ids|, i requires 0 <= i < |ids| => Consider(ids[i]))
  }

  function EnqueueOps(c: Config, batch: Batch): seq<Op> {
    [Enqueue(batch)] + if c.atomicMark then [] else MarkOps(batch)
  }

  function EnqueueAllOps(c: Config, batches: seq<Batch>): seq<Op> {
    if batches == [] then [] else EnqueueOps(c, batches[0]) + EnqueueAllOps(c, batches[1..])
  }

  function ScreenOps(batch: Batch): seq<Op> {
    if batch == [] then [] else [Unmark(batch[0]), Screen(batch[0])] + ScreenOps(batch[1..])
  }

  function AnswerOps(answers: seq<Answer>): seq<Op> {
    if answers == [] then [] else UpdateOps(answers[0].id, answers[0].item) + AnswerOps(answers[1..])
  }

  predicate NoDup<T(==)>(s: seq<T>) {
    forall i, j :: 0 <= i < j < |s| ==> s[i] != s[j]
  }

  predicate Live(sh: Shared, id: Id) {
    id in sh.lru && !sh.lru[id].terminal
  }

  predicate Expired(c: Config, sh: Shared, id: Id) {
    id in sh.marks && sh.clock - sh.marks[id] > 5 * c.period
  }

  /** The LRU map evicts exactly when an insertion exceeds its capacity, and never the new entry. */
  predicate VictimOk(c: Config, sh: Shared, id: Id, victim: Option<Id>) {
    (victim.Some? <==> |sh.lru.Keys + {id}| > c.capacity) &&
    (victim.Some? ==> victim.value in sh.lru && victim.value != id)
  }

  function Insert(sh: Shared, id: Id, item: Item, victim: Option<Id>): Shared {
    sh.(lru := if victim.Some? then sh.lru[id := item] - {victim.value} else sh.lru[id := item])
  }

  function Queued(c: Config, sh: Shared, batch: Batch): Shared {
    sh.(queue := sh.queue[sh.nextBatch := batch], nextBatch := sh.nextBatch + 1,
        marks := if c.atomicMark then sh.marks + (map id | id in batch :: sh.clock) else sh.marks)
  }

  /** `id` queued in a batch of its own, and marked. */
  function QueuedAlone(sh: Shared, id: Id): Shared {
    sh.(queue := sh.queue[sh.nextBatch := [id]], nextBatch := sh.nextBatch + 1, marks := sh.marks[id := sh.clock])
  }

  /** The shared structures after an item was created. */
  function Created(c: Config, sh: Shared, id: Id, item: Item, victim: Option<Id>): Shared {
    var grown := Insert(sh, id, item, victim);
    if c.syncOnCreate then QueuedAlone(grown, id) else grown
  }

  /** What a creation that is not atomic still does after its insertion. */
  function AfterAdding(c: Config, id: Id): seq<Op> {
    if c.syncOnCreate then EnqueueOps(c, [id]) else []
  }

  ghost predicate CanDo(c: Config, sh: Shared, t: Tid, op: Op, choice: Choice) {
    match op
    case Lock => sh.holder == None
    case Lookup(id, _) => id !in sh.lru && c.atomicCreate ==> VictimOk(c, sh, id, choice.victim)
    case AddNew(id, _) => VictimOk(c, sh, id, choice.victim)
    case Put(id, _) => VictimOk(c, sh, id, choice.victim)
    case ListKeys => NoDup(choice.keys) && forall k :: k in choice.keys <==> k in sh.lru
    case Fetch => choice.ref in sh.queue
    case Sweep => choice.next.Some? ==> choice.next.value in sh.toDelete
    case _ => true
  }

  /** The effect of one operation on the shared structures. */
  function Effect(c: Config, sh: Shared, t: Tid, op: Op, choice: Choice): Shared {
    match op
    case Lookup(id, item) =>
      if id in sh.lru || !c.atomicCreate then sh else Created(c, sh, id, item, choice.victim)
    case AddNew(id, item) => Insert(sh, id, item, choice.victim)
    case Enqueue(batch) => Queued(c, sh, batch)
    case Mark(id) => sh.(marks := sh.marks[id := sh.clock])
    case Lock => sh.(holder := Some(t))
    case Unlock => sh.(holder := None)
    case Put(id, item) => Insert(sh, id, item, choice.victim)
    case Unflag(id) => sh.(toDelete := sh.toDelete - {id})
    case Remove(id) => sh.(lru := sh.lru - {id})
    case Flag(id) => sh.(toDelete := sh.toDelete + {id})
    case Expire(id) => sh.(marks := sh.marks - {id})
    case Fetch => sh.(queue := sh.queue - {choice.ref})
    case Unmark(id) => sh.(marks := sh.marks - {id})
    case _ => sh
  }

  /** The operations that the executed one puts in front of the remaining ones. */
  function Pushed(c: Config, sh: Shared, picked: seq<Id>, op: Op, choice: Choice): seq<Op> {
    match op
    case Lookup(id, item) =>
      if id in sh.lru || c.atomicCreate then []
      else [AddNew(id, item)] + AfterAdding(c, id)
    case Contains(id, item) => if id in sh.lru then [Put(id, item)] else []
    case ListKeys => ConsiderOps(choice.keys) + [MakeBatches]
    case Consider(id) => if id in sh.toDelete then DeleteOps(id) else [Peek(id)]
    case Peek(id) => if Live(sh, id) then [CheckMark(id)] else []
    case CheckMark(id) => if Expired(c, sh, id) then [Expire(id)] else []
    case MakeBatches => EnqueueAllOps(c, choice.batches)
    case Fetch => ScreenOps(if choice.ref in sh.queue then sh.queue[choice.ref] else []) + [Call]
    case Call =>
      if picked == [] || choice.answers.None? then [] else AnswerOps(choice.answers.value) + [Sweep]
    case Sweep => if choice.next.Some? then DeleteOps(choice.next.value) + [Sweep] else []
    case _ => []
  }

  function Picks(sh: Shared, picked: seq<Id>, op: Op): seq<Id> {
    match op
    case ListKeys => []
    case CheckMark(id) => if id in sh.marks then picked else picked + [id]
    case Expire(id) => picked + [id]
    case Fetch => []
    case Screen(id) => if Live(sh, id) then picked + [id] else picked
    case _ => picked
  }

  ghost predicate Enabled(c: Config, s: State, e: Event) {
    match e
    case Start(t, _) => t in s.threads && s.threads[t].ops == []
    case Act(t, choice) =>
      t in s.threads && s.threads[t].ops != [] && CanDo(c, s.sh, t, s.threads[t].ops[0], choice)
    case Tick(_) => true
  }

  function Step(c: Config, s: State, e: Event): State
    requires Enabled(c, s, e)
  {
    match e
    case Start(t, api) => s.(threads := s.threads[t := Thread(Program(api), [])])
    case Tick(elapsed) => s.(sh := s.sh.(clock := s.sh.clock + elapsed))
    case Act(t, choice) =>
      var Thread(ops, picked) := s.threads[t];
      State(
        Effect(c, s.sh, t, ops[0], choice),
        s.threads[t := Thread(Pushed(c, s.sh, picked, ops[0], choice) + ops[1..],
                              Picks(s.sh, picked, ops[0]))])
  }

  /** A new cache whose threads have not started anything. */
  ghost predicate Init(s: State) {
    s.sh == Shared(map[], map[], {}, map[], 0, 0, None) &&
    forall t :: t in s.threads ==> s.threads[t] == Thread([], [])
  }

  ghost predicate Run(c: Config, s: State, es: seq<Event>)
    decreases |es|
  {
    es == [] || (Enabled(c, s, es[0]) && Run(c, Step(c, s, es[0]), es[1..]))
  }

  function Final(c: Config, s: State, es: seq<Event>): State
    requires Run(c, s, es)
    decreases |es|
  {
    if es == [] then s else Final(c, Step(c, s, es[0]), es[1..])
  }

  /** The operation that an event executes, if any. */
  function Executes(s: State, e: Event): Option<Op> {
    if e.Act? && e.t in s.threads && s.threads[e.t].ops != [] then Some(s.threads[e.t].ops[0]) else None
  }

  lemma {:induction false} RunSnoc(c: Config, s: State, es: seq<Event>, e: Event)
    requires Run(c, s, es) && Enabled(c, Final(c, s, es), e)
    ensures Run(c, s, es + [e]) && Final(c, s, es + [e]) == Step(c, Final(c, s, es), e)
    decreases |es|
  {
    var es' := es + [e];
    if es == [] {
      assert es'[1..] == [];
      assert Run(c, Step(c, s, e), es'[1..]);
    } else {
      assert es'[0] == es[0] && es'[1..] == es[1..] + [e];
      RunSnoc(c, Step(c, s, es[0]), es[1..], e);
    }
  }

  /** What executing the first operation of a thread does to the machine. */
  lemma {:induction false} HeadStep(c: Config, s: State, t: Tid, op: Op, rest: seq<Op>, choice: Choice)
    requires t in s.threads && s.threads[t].ops == [op] + rest && CanDo(c, s.sh, t, op, choice)
    ensures Enabled(c, s, Act(t, choice))
    ensures
      var picked := s.threads[t].picked;
      Step(c, s, Act(t, choice)) ==
      State(Effect(c, s.sh, t, op, choice),
            s.threads[t := Thread(Pushed(c, s.sh, picked, op, choice) + rest, Picks(s.sh, picked, op))])
  {
    hide Effect, Pushed, Picks, CanDo;
    assert s.threads[t].ops[1..] == rest;
  }

  // ---- what an operation pushes

  /** The kinds of operations that an executed one can put in front of the remaining ones. */
  predicate Follows(op: Op, p: Op) {
    match op
    case Lookup(id, item) => p == AddNew(id, item) || p.Enqueue? || p.Mark?
    case Contains(id, item) => p == Put(id, item)
    case ListKeys => p.Consider? || p.MakeBatches?
    case Consider(_) => p.Peek? || DeleteOp(p)
    case Peek(_) => p.CheckMark?
    case CheckMark(_) => p.Expire?
    case MakeBatches => p.Enqueue? || p.Mark?
    case Fetch => p.Unmark? || p.Screen? || p.Call?
    case Call => p.Lock? || p.Contains? || p.Unlock? || p.Sweep?
    case Sweep => p.Sweep? || DeleteOp(p)
    case _ => false
  }

  predicate DeleteOp(p: Op) {
    p.Lock? || p.Unflag? || p.Remove? || p.Unlock?
  }

  lemma {:induction false} EnqueueOpsKinds(c: Config, batches: seq<Batch>)
    ensures forall op :: op in EnqueueAllOps(c, batches) ==> op.Enqueue? || op.Mark?
    decreases |batches|
  {
    if batches != [] { EnqueueOpsKinds(c, batches[1..]); }
  }

  lemma {:induction false} ScreenOpsKinds(batch: Batch)
    ensures forall op :: op in ScreenOps(batch) ==> op.Unmark? || op.Screen?
    decreases |batch|
  {
    if batch != [] { ScreenOpsKinds(batch[1..]); }
  }

  lemma {:induction false} AnswerOpsKinds(answers: seq<Answer>)
    ensures forall op :: op in AnswerOps(answers) ==> op.Lock? || op.Contains? || op.Unlock?
    decreases |answers|
  {
    if answers != [] { AnswerOpsKinds(answers[1..]); }
  }

  lemma {:induction false} PushedFollows(c: Config, sh: Shared, picked: seq<Id>, op: Op, choice: Choice)
    ensures forall p :: p in Pushed(c, sh, picked, op, choice) ==> Follows(op, p)
  {
    match op
    case MakeBatches => EnqueueOpsKinds(c, choice.batches);
    case Fetch => ScreenOpsKinds(if choice.ref in sh.queue then sh.queue[choice.ref] else []);
    case Call => if choice.answers.Some? { AnswerOpsKinds(choice.answers.value); }
    case _ =>
  }

  // ---- runs under a rule

  /** Every event of the run obeys a rule about the state in which it happens. */
  ghost predicate Obeys(c: Config, s: State, es: seq<Event>, rule: (State, Event) -> bool)
    requires Run(c, s, es)
    decreases |es|
  {
    es != [] ==> rule(s, es[0]) && Obeys(c, Step(c, s, es[0]), es[1..], rule)
  }

  lemma {:induction false} ObeysSnoc(c: Config, s: State, es: seq<Event>, e: Event, rule: (State, Event) -> bool)
    requires Run(c, s, es) && Obeys(c, s, es, rule) && Enabled(c, Final(c, s, es), e) && rule(Final(c, s, es), e)
    ensures Run(c, s, es + [e]) && Obeys(c, s, es + [e], rule)
    decreases |es|
  {
    var es' := es + [e];
    RunSnoc(c, s, es, e);
    if es == [] {
      assert es'[1..] == [];
    } else {
      assert es'[0] == es[0] && es'[1..] == es[1..] + [e];
      ObeysSnoc(c, Step(c, s, es[0]), es[1..], e, rule);
    }
  }

  lemma {:induction false} ObeysWeaker(c: Config, s: State, es: seq<Event>,
                                       rule: (State, Event) -> bool, weaker: (State, Event) -> bool)
    requires Run(c, s, es) && Obeys(c, s, es, rule) && forall u, e :: rule(u, e) ==> weaker(u, e)
    ensures Obeys(c, s, es, weaker)
    decreases |es|
  {
    if es != [] { ObeysWeaker(c, Step(c, s, es[0]), es[1..], rule, weaker); }
  }

  lemma {:induction false} OneEvent(c: Config, s: State, e: Event)
    requires Enabled(c, s, e)
    ensures Run(c, s, [e]) && Final(c, s, [e]) == Step(c, s, e)
  {
    assert [e][1..] == [];
  }

  lemma {:induction false} OneObeys(c: Config, s: State, e: Event, rule: (State, Event) -> bool)
    requires Enabled(c, s, e) && rule(s, e)
    ensures Run(c, s, [e]) && Obeys(c, s, [e], rule)
  {
    assert [e][1..] == [];
  }

  /** The threads of `workers`, and only they, run the sync loop. */
  predicate Staffed(workers: set<Tid>, e: Event) {
    e.Start? ==> (e.t in workers <==> e.api.SyncOnce?)
  }
}
